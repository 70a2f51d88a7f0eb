/** The control flow of `main`, stage by stage. Each stage is a method
    whose contract is one of the outcome predicates of `Pipeline`; the
    lemmas there carry the reasoning. */
module Script {
  import opened Wrappers
  import opened Numbers
  import opened Params
  import opened Paths
  import opened Engine
  import opened Probe
  import Effects
  import opened Pipeline

  /** Lines 30-87, after the effects are parsed and there is work to do. */
  method Process(c: Conversions, e: Engine, args: Args, effects: seq<EffectParams>)
    returns (r: RunOutcome, ghost pads: seq<string>)
    modifies e
    ensures ProcessEnded(c, e.fails, args, effects, SampleRateOf(c, e.answers(RateTokens(args.audio)), args.audio),
                         BinauralArg(c, args), DurationOf(c, e.answers(DurationTokens(args.audio)), args.audio),
                         old(e.log), old(e.files), r, pads, e.log, e.files)
  {
    ghost var log0, files0 := e.log, e.files;
    ghost var bp := BinauralArg(c, args);
    ghost var dur := DurationOf(c, e.answers(DurationTokens(args.audio)), args.audio);
    var rateR := GetAudioSampleRate(c, e, args.audio);
    if rateR.Failure? {
      RateRejected(c, e.fails, args, effects, rateR, bp, dur, log0, files0);
      return Raised(RuntimeError(rateR.error)), [];
    }
    var rate := rateR.value;
    var name := Effects.CacheNaming(BuildDir, rate);
    NamingInBuild(rate);
    r, pads := Resample(c, e, args, effects, rate, name, bp, dur, log0, files0);
    StagesToProcess(c, e.fails, args, effects, rateR, bp, dur, log0, files0, r, pads, e.log, e.files);
  }

  /** Line 31 and what follows, once the sample rate is known; `name`
      names the resampled file of an effect file. */
  method Resample(c: Conversions, e: Engine, args: Args, effects: seq<EffectParams>, rate: int,
                  name: string -> string, ghost bp: Result<BinauralParams, ParseError>,
                  ghost dur: Result<real, ProbeError>, ghost log0: seq<Call>, ghost files0: set<string>)
    returns (r: RunOutcome, ghost pads: seq<string>)
    modifies e
    requires NamesInBuild(name)
    requires bp == BinauralArg(c, args)
    requires dur == DurationOf(c, e.answers(DurationTokens(args.audio)), args.audio)
    requires e.log == log0 + [Call.Soxi(RateTokens(args.audio))] && e.files == files0
    ensures StagesEnded(c, e.fails, args, effects, rate, name, bp, dur, log0, files0, r, pads, e.log, e.files)
  {
    var mapR := ResampleStage(c, e, args, effects, rate, name, bp, dur, log0, files0);
    if mapR.Failure? {
      return Raised(CalledProcessError(mapR.error)), [];
    }
    r, pads := Produce(c, e, args, effects, rate, name, mapR.value, bp, dur, log0, files0);
  }

  /** Line 31: resample every effect file, and end the run when a
      conversion fails. */
  method ResampleStage(c: Conversions, e: Engine, args: Args, effects: seq<EffectParams>, rate: int,
                       name: string -> string, ghost bp: Result<BinauralParams, ParseError>,
                       ghost dur: Result<real, ProbeError>, ghost log0: seq<Call>, ghost files0: set<string>)
    returns (mapR: Result<map<string, string>, seq<string>>)
    modifies e
    requires NamesInBuild(name)
    requires e.log == log0 + [Call.Soxi(RateTokens(args.audio))] && e.files == files0
    ensures mapR.Success? ==>
              var plan := Effects.ResamplePlan(effects, rate, name, files0);
              && mapR.value == Effects.CacheMap(effects, name)
              && e.log == log0 + [Call.Soxi(RateTokens(args.audio))] + plan
              && Succeeds(e.fails, plan)
              && e.files == files0 + mapR.value.Values
    ensures mapR.Failure? ==>
              StagesEnded(c, e.fails, args, effects, rate, name, bp, dur, log0, files0,
                          Raised(CalledProcessError(mapR.error)), [], e.log, e.files)
  {
    mapR := Effects.ResampleWith(e, effects, rate, name);
    if mapR.Failure? {
      ResampleRaised(c, e.fails, args, effects, rate, name, bp, dur, log0, files0, mapR.error, e.log, e.files);
    }
  }

  /** Lines 33-87, once every effect is resampled into `fileMap`. */
  method Produce(c: Conversions, e: Engine, args: Args, effects: seq<EffectParams>, rate: int,
                 ghost name: string -> string, fileMap: map<string, string>,
                 ghost bp: Result<BinauralParams, ParseError>, ghost dur: Result<real, ProbeError>,
                 ghost log0: seq<Call>, ghost files0: set<string>)
    returns (r: RunOutcome, ghost pads: seq<string>)
    modifies e
    requires NamesInBuild(name)
    requires bp == BinauralArg(c, args)
    requires dur == DurationOf(c, e.answers(DurationTokens(args.audio)), args.audio)
    requires fileMap == Effects.CacheMap(effects, name)
    requires var plan := Effects.ResamplePlan(effects, rate, name, files0);
             && e.log == log0 + [Call.Soxi(RateTokens(args.audio))] + plan
             && Succeeds(e.fails, plan)
             && e.files == files0 + fileMap.Values
    ensures StagesEnded(c, e.fails, args, effects, rate, name, bp, dur, log0, files0, r, pads, e.log, e.files)
  {
    ghost var log1, files1 := e.log, e.files;
    var output := Join(BuildDir, MixedFilename(args.audio));
    assert output == OutputMix(args.audio);
    var fault := BuildMix(c, e, args, rate, output);
    if fault.Some? {
      MixRaised(c, e.fails, args, effects, rate, name, bp, dur, log0, files0, log1, files1, fault.value,
                e.log, e.files);
      return Raised(fault.value), [];
    }
    ghost var log2, files2 := e.log, e.files;
    CoversAll(effects, name);
    fault, pads := ApplyEffects(c, e, effects, fileMap, output);
    if fault.Some? {
      EffectsRaised(c, e.fails, args, effects, rate, name, bp, dur, log0, files0, log1, files1, log2, files2,
                    fault.value, pads, e.log, e.files);
      return Raised(fault.value), pads;
    }
    ghost var log3, files3 := e.log, e.files;
    var reported := Cleanup(e, args, |effects|, output);
    ProcessFinished(c, e.fails, args, effects, rate, name, bp, dur, log0, files0, log1, files1, log2, files2,
                    pads, log3, files3, e.files);
    r := Finished(output, reported);
  }

  /** `main`: create the build directory, parse every effect, return when
      there is neither a binaural argument nor an effect, and otherwise
      run lines 30-87. Effects are all parsed before anything is probed. */
  method Run(c: Conversions, e: Engine, args: Args) returns (r: RunOutcome, ghost pads: seq<string>)
    modifies e
    ensures r == NothingToDo <==> !HasBinaural(args) && args.effect == []
    ensures r == NothingToDo ==> e.log == old(e.log) && e.files == old(e.files) + {BuildDir}
    ensures ParseAll(c, args.effect).Failure? ==>
              && r == Raised(ValueError(ParseAll(c, args.effect).error))
              && e.log == old(e.log) && e.files == old(e.files) + {BuildDir}
    ensures ParseAll(c, args.effect).Success? && r != NothingToDo ==>
              ProcessEnded(c, e.fails, args, ParseAll(c, args.effect).value,
                           SampleRateOf(c, e.answers(RateTokens(args.audio)), args.audio),
                           BinauralArg(c, args), DurationOf(c, e.answers(DurationTokens(args.audio)), args.audio),
                           old(e.log), old(e.files) + {BuildDir}, r, pads, e.log, e.files)
  {
    e.MakeDirs(BuildDir);
    var parsed := ParseEffects(c, args.effect);
    if parsed.Failure? {
      return Raised(ValueError(parsed.error)), [];
    }
    var effects := parsed.value;
    if !HasBinaural(args) && effects == [] {
      return NothingToDo, [];
    }
    r, pads := Process(c, e, args, effects);
  }
}
