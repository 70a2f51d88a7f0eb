/** The entry script: parse every `--effect`, stop when there is nothing to
    do, probe the sample rate, resample the effects into the build
    directory, write the output by a binaural mix or a plain copy, overlay
    the effects one after another through numbered intermediates, copy the
    last intermediate onto the output, and clean up. Any exception ends the
    run where it is raised; the cleanup is not in a `finally`. */
module Pipeline {
  import opened Wrappers
  import opened Text
  import opened Numbers
  import opened Params
  import opened Paths
  import opened Engine
  import opened Probe
  import Binaurals
  import Effects

  /** The gain of an effect whose gain field is empty. */
  const DefaultGain: real := 0.5

  // ---------------------------------------------------------------------
  // The entry script's own `parse_effect_arg`, without a repeat clause

  /** The fields as this parser reads them: a file, a gain (the default when
      empty), a required offset; any further field is not looked at. */
  function PlainEffectFields(c: Conversions, s: string, defaultGain: real): Result<EffectParams, Cause>
  {
    var parts := Split(s, ':');
    if |parts| < 2 then Failure(FieldCount(|parts|))
    else
      var gain :- if parts[1] == [] then Success(defaultGain) else ParseFloat(c, parts[1]);
      if |parts| < 3 || parts[2] == [] then Failure(MissingOffset)
      else
        var offset :- ParseFloat(c, parts[2]);
        Success(EffectParams(parts[0], gain, offset))
  }

  /** What this `parse_effect_arg` returns or raises. An accepted argument
      has at least three fields and never a repeat. */
  function ParseEffectPlain(c: Conversions, s: string, defaultGain: real): (r: Result<EffectParams, ParseError>)
    ensures r.Failure? ==> r.error.message == Effects.EffectErrorPrefix + s
    ensures r.Success? ==> |Split(s, ':')| >= 3 && r.value.repeat.None?
  {
    match PlainEffectFields(c, s, defaultGain)
    case Success(p) => Success(p)
    case Failure(cause) => Failure(ParseError(Effects.EffectErrorPrefix + s, cause))
  }

  /** The two effect parsers agree up to the repeat clause: this one rejects
      exactly what the other rejects for its first three fields, and where
      it accepts, the other one adds the repeat of the extra fields, or
      rejects a bad repeat value. */
  lemma PlainDropsRepeat(c: Conversions, s: string, defaultGain: real)
    ensures ParseEffectPlain(c, s, defaultGain).Failure? ==>
              Effects.ParseEffect(c, s, defaultGain) == ParseEffectPlain(c, s, defaultGain)
    ensures ParseEffectPlain(c, s, defaultGain).Success? ==>
              var p := ParseEffectPlain(c, s, defaultGain).value;
              var rep := Effects.RepeatOf(c, Split(s, ':')[3..]);
              Effects.ParseEffect(c, s, defaultGain) ==
                if rep.Success? then Success(p.(repeat := rep.value))
                else Failure(ParseError(Effects.EffectErrorPrefix + s, rep.error))
  {
  }

  /** Every field after the third is ignored, so a `repeat=` clause given
      to the entry script is dropped without a word. */
  lemma ExtraFieldIgnored(c: Conversions, file: string, g: string, o: string, extra: string,
                          defaultGain: real)
    requires ':' !in file && ':' !in g && ':' !in o
    ensures PlainEffectFields(c, file + ":" + g + ":" + o + ":" + extra, defaultGain)
              == PlainEffectFields(c, file + ":" + g + ":" + o, defaultGain)
  {
    var head := file + ":" + g + ":" + o;
    assert head == file + [':'] + (g + ":" + o);
    SplitConcat(file, g + ":" + o, ':');
    SplitNoSeparator(file, ':');
    Binaurals.TwoSides(g, o);
    assert Split(head, ':') == [file, g, o];
    assert head + ":" + extra == head + [':'] + extra;
    SplitConcat(head, extra, ':');
  }

  /** All `--effect` arguments, in order; the first one rejected raises. */
  function ParseAll(c: Conversions, strs: seq<string>): (r: Result<seq<EffectParams>, ParseError>)
    ensures r.Success? <==> forall k :: 0 <= k < |strs| ==> ParseEffectPlain(c, strs[k], DefaultGain).Success?
    ensures r.Success? ==> (|r.value| == |strs| &&
              forall k :: 0 <= k < |strs| ==> r.value[k] == ParseEffectPlain(c, strs[k], DefaultGain).value)
    decreases |strs|
  {
    if strs == [] then Success([])
    else
      var first :- ParseEffectPlain(c, strs[0], DefaultGain);
      var rest :- ParseAll(c, strs[1..]);
      assert forall k :: 0 < k < |strs| ==> strs[k] == strs[1..][k - 1];
      Success([first] + rest)
  }

  /** When every argument before `i` is accepted and argument `i` is not,
      the error raised is the one for argument `i`. */
  lemma {:induction false} ParseAllStops(c: Conversions, strs: seq<string>, i: nat)
    requires i < |strs|
    requires forall k :: 0 <= k < i ==> ParseEffectPlain(c, strs[k], DefaultGain).Success?
    requires ParseEffectPlain(c, strs[i], DefaultGain).Failure?
    ensures ParseAll(c, strs) == Failure(ParseEffectPlain(c, strs[i], DefaultGain).error)
    decreases i
  {
    if i > 0 {
      assert forall k :: 0 < k < |strs| ==> strs[k] == strs[1..][k - 1];
      ParseAllStops(c, strs[1..], i - 1);
    }
  }

  /** Lines 21-24: the effects are parsed one by one into a list. */
  method ParseEffects(c: Conversions, strs: seq<string>) returns (r: Result<seq<EffectParams>, ParseError>)
    ensures r == ParseAll(c, strs)
  {
    var effects: seq<EffectParams> := [];
    var i := 0;
    while i < |strs|
      invariant i <= |strs| && |effects| == i
      invariant forall k :: 0 <= k < i ==>
                  ParseEffectPlain(c, strs[k], DefaultGain).Success? &&
                  effects[k] == ParseEffectPlain(c, strs[k], DefaultGain).value
    {
      var p := ParseEffectPlain(c, strs[i], DefaultGain);
      if p.Failure? {
        ParseAllStops(c, strs, i);
        return Failure(p.error);
      }
      effects := effects + [p.value];
      i := i + 1;
    }
    assert ParseAll(c, strs).Success?;
    assert ParseAll(c, strs).value == effects;
    r := Success(effects);
  }

  // ---------------------------------------------------------------------
  // The overlay chain

  /** The track effect `i` is laid over: the output for the first effect,
      the previous intermediate for the others. */
  function Prev(output: string, i: nat): string
  {
    if i == 0 then output else TmpEffect(i - 1)
  }

  /** The intermediates of the first `n` effects. */
  function TmpSet(n: nat): set<string>
  {
    set i: nat | i < n :: TmpEffect(i)
  }

  /** Every effect's file has a resampled path. */
  predicate Covers(effects: seq<EffectParams>, fileMap: map<string, string>)
  {
    forall k :: 0 <= k < |effects| ==> effects[k].file in fileMap
  }

  /** The pad and mix commands of overlay `i`, whose pad file is `pad`. */
  function StepPlan(c: Conversions, effects: seq<EffectParams>, fileMap: map<string, string>,
                    output: string, i: nat, pad: string): seq<Call>
    requires i < |effects| && Covers(effects, fileMap)
  {
    Effects.PadMixPlan(c, Prev(output, i), fileMap[effects[i].file], effects[i].gain,
                       effects[i].offset, pad, TmpEffect(i))
  }

  /** The commands of the first `|pads|` overlays when all succeed. */
  function ChainPlan(c: Conversions, effects: seq<EffectParams>, fileMap: map<string, string>,
                     output: string, pads: seq<string>): seq<Call>
    requires |pads| <= |effects| && Covers(effects, fileMap)
    decreases |pads|
  {
    if pads == [] then []
    else
      var i := |pads| - 1;
      ChainPlan(c, effects, fileMap, output, pads[..i]) + StepPlan(c, effects, fileMap, output, i, pads[i])
  }

  lemma {:induction false} ChainPlanLength(c: Conversions, effects: seq<EffectParams>,
                                           fileMap: map<string, string>, output: string, pads: seq<string>)
    requires |pads| <= |effects| && Covers(effects, fileMap)
    ensures |ChainPlan(c, effects, fileMap, output, pads)| == 2 * |pads|
    decreases |pads|
  {
    if pads != [] {
      ChainPlanLength(c, effects, fileMap, output, pads[..|pads| - 1]);
    }
  }

  /** The chain in input order: overlay `i` pads the resampled file of
      effect `i` with its own offset and gain, then mixes the previous track
      with it into `tmp_effect_<i>`. */
  lemma {:induction false} ChainPlanAt(c: Conversions, effects: seq<EffectParams>,
                                       fileMap: map<string, string>, output: string, pads: seq<string>,
                                       i: nat)
    requires |pads| <= |effects| && Covers(effects, fileMap) && i < |pads|
    ensures 2 * i + 1 < |ChainPlan(c, effects, fileMap, output, pads)|
    ensures ChainPlan(c, effects, fileMap, output, pads)[2 * i] ==
              Call.Sox(Effects.PadTokens(c, fileMap[effects[i].file], pads[i], effects[i].offset,
                                         effects[i].gain), pads[i])
    ensures ChainPlan(c, effects, fileMap, output, pads)[2 * i + 1] ==
              Call.Sox(Effects.MixTokens(Prev(output, i), pads[i], TmpEffect(i)), TmpEffect(i))
    decreases |pads|
  {
    var n := |pads| - 1;
    var before := ChainPlan(c, effects, fileMap, output, pads[..n]);
    var step := StepPlan(c, effects, fileMap, output, n, pads[n]);
    var pad := Call.Sox(Effects.PadTokens(c, fileMap[effects[i].file], pads[i], effects[i].offset,
                                          effects[i].gain), pads[i]);
    var mix := Call.Sox(Effects.MixTokens(Prev(output, i), pads[i], TmpEffect(i)), TmpEffect(i));
    ChainPlanLength(c, effects, fileMap, output, pads[..n]);
    StepPlanIs(c, effects, fileMap, output, n, pads[n]);
    if i < n {
      ChainPlanAt(c, effects, fileMap, output, pads[..n], i);
      assert pads[..n][i] == pads[i];
    }
    PlanAtFromParts(ChainPlan(c, effects, fileMap, output, pads), before, step, n, i, pad, mix);
  }

  /** Where call pair `i` of `before + step` comes from, `before` holding
      `n` pairs and `step` one. */
  lemma PlanAtFromParts(plan: seq<Call>, before: seq<Call>, step: seq<Call>, n: nat, i: nat, x: Call, y: Call)
    requires plan == before + step && |before| == 2 * n && |step| == 2 && i <= n
    requires i < n ==> before[2 * i] == x && before[2 * i + 1] == y
    requires i == n ==> step[0] == x && step[1] == y
    ensures 2 * i + 1 < |plan| && plan[2 * i] == x && plan[2 * i + 1] == y
  {
  }

  lemma StepPlanIs(c: Conversions, effects: seq<EffectParams>, fileMap: map<string, string>,
                   output: string, i: nat, pad: string)
    requires i < |effects| && Covers(effects, fileMap)
    ensures |StepPlan(c, effects, fileMap, output, i, pad)| == 2
    ensures StepPlan(c, effects, fileMap, output, i, pad)[0] ==
              Call.Sox(Effects.PadTokens(c, fileMap[effects[i].file], pad, effects[i].offset, effects[i].gain), pad)
    ensures StepPlan(c, effects, fileMap, output, i, pad)[1] ==
              Call.Sox(Effects.MixTokens(Prev(output, i), pad, TmpEffect(i)), TmpEffect(i))
  {
  }

  /** A fresh temporary file is never one of the build-directory paths. */
  lemma TempIsNotBuild(p: string, i: nat)
    requires IsTempPath(p)
    ensures p != TmpEffect(i) && !StartsWith(p, "build/")
  {
    var tmp := "tmp_effect_" + NatDecimal(i) + ".wav";
    assert tmp[0] == 't';
    assert TmpEffect(i) == "build/" + tmp;
    assert p[..5] == "/tmp/";
    assert p[0] == '/' && TmpEffect(i)[0] == 'b';
  }

  lemma TmpSetSnoc(n: nat)
    ensures TmpSet(n + 1) == TmpSet(n) + {TmpEffect(n)}
  {
    assert TmpEffect(n) in TmpSet(n + 1);
  }

  /** The state of the overlay loop after the first `|pads|` overlays: the
      commands so far issued and succeeded, and their outputs exist. */
  ghost predicate ChainReached(c: Conversions, fails: seq<string> -> bool, effects: seq<EffectParams>,
                               fileMap: map<string, string>, output: string, files0: set<string>,
                               log0: seq<Call>, pads: seq<string>, log: seq<Call>, files: set<string>)
  {
    && |pads| <= |effects| && Covers(effects, fileMap)
    && log == log0 + ChainPlan(c, effects, fileMap, output, pads)
    && Succeeds(fails, ChainPlan(c, effects, fileMap, output, pads))
    && files == files0 + TmpSet(|pads|)
  }

  lemma ChainStart(c: Conversions, fails: seq<string> -> bool, effects: seq<EffectParams>,
                   fileMap: map<string, string>, output: string, files0: set<string>, log0: seq<Call>)
    requires Covers(effects, fileMap)
    ensures ChainReached(c, fails, effects, fileMap, output, files0, log0, [], log0, files0)
  {
    assert TmpSet(0) == {};
    assert log0 + [] == log0;
  }

  /** How the overlay loop ends: with every overlay done, the whole chain
      issued and every intermediate present; or raising at the first
      failing command of overlay `|pads| - 1`, the chain issued up to it
      and the intermediates of the overlays before it present. */
  ghost predicate ChainEnded(c: Conversions, fails: seq<string> -> bool, effects: seq<EffectParams>,
                             fileMap: map<string, string>, output: string, files0: set<string>,
                             log0: seq<Call>, r: Effects.Outcome, pads: seq<string>,
                             log: seq<Call>, files: set<string>)
  {
    && |pads| <= |effects| && Covers(effects, fileMap)
    && var plan := ChainPlan(c, effects, fileMap, output, pads);
       var issued := Issued(fails, plan);
       && log == log0 + issued
       && (r == Effects.Done <==> |pads| == |effects| && Succeeds(fails, plan))
       && (r == Effects.Done ==> files == files0 + TmpSet(|effects|))
       && (r != Effects.Done ==>
             && |pads| >= 1
             && !Succeeds(fails, plan)
             && r == Effects.CommandFailed(issued[|issued| - 1].tokens)
             && files == files0 + TmpSet(|pads| - 1))
  }

  /** The chain of one more overlay extends the chain. */
  lemma ChainSnoc(c: Conversions, effects: seq<EffectParams>, fileMap: map<string, string>,
                  output: string, pads: seq<string>, pad: string)
    requires |pads| < |effects| && Covers(effects, fileMap)
    ensures ChainPlan(c, effects, fileMap, output, pads + [pad]) ==
              ChainPlan(c, effects, fileMap, output, pads) + StepPlan(c, effects, fileMap, output, |pads|, pad)
  {
    assert (pads + [pad])[..|pads|] == pads;
  }

  /** Logging a succeeding plan and then a plan that fails. */
  lemma LogThenFail(fails: seq<string> -> bool, log0: seq<Call>, p: seq<Call>, q: seq<Call>)
    requires Succeeds(fails, p) && !Succeeds(fails, q)
    ensures (log0 + p) + Issued(fails, q) == log0 + Issued(fails, p + q)
    ensures Issued(fails, p + q)[|Issued(fails, p + q)| - 1] == Issued(fails, q)[|Issued(fails, q)| - 1]
    ensures !Succeeds(fails, p + q)
  {
    IssuedAfter(fails, p, q);
  }

  /** Logging a succeeding plan and then another succeeding one. */
  lemma LogThenSucceed(fails: seq<string> -> bool, log0: seq<Call>, p: seq<Call>, q: seq<Call>)
    requires Succeeds(fails, p) && Succeeds(fails, q)
    ensures (log0 + p) + q == log0 + (p + q)
    ensures Succeeds(fails, p + q)
  {
    SucceedsAppend(fails, p, q);
  }

  /** An overlay whose pad and mix both succeed. */
  lemma ChainStep(c: Conversions, fails: seq<string> -> bool, effects: seq<EffectParams>,
                  fileMap: map<string, string>, output: string, files0: set<string>, log0: seq<Call>,
                  pads: seq<string>, log: seq<Call>, files: set<string>, pad: string)
    requires ChainReached(c, fails, effects, fileMap, output, files0, log0, pads, log, files)
    requires |pads| < |effects| && IsTempPath(pad) && pad !in files
    requires Succeeds(fails, StepPlan(c, effects, fileMap, output, |pads|, pad))
    ensures ChainReached(c, fails, effects, fileMap, output, files0, log0, pads + [pad],
                         log + StepPlan(c, effects, fileMap, output, |pads|, pad),
                         (files + {TmpEffect(|pads|)}) - {pad})
  {
    var i := |pads|;
    ChainSnoc(c, effects, fileMap, output, pads, pad);
    LogThenSucceed(fails, log0, ChainPlan(c, effects, fileMap, output, pads),
                   StepPlan(c, effects, fileMap, output, i, pad));
    StepFiles(files0, files, i, pad);
  }

  /** The files after overlay `i`: its output added, its pad file gone. */
  lemma StepFiles(files0: set<string>, files: set<string>, i: nat, pad: string)
    requires files == files0 + TmpSet(i) && IsTempPath(pad) && pad !in files
    ensures (files + {TmpEffect(i)}) - {pad} == files0 + TmpSet(i + 1)
  {
    TempIsNotBuild(pad, i);
    TmpSetSnoc(i);
  }

  /** An overlay whose pad or mix fails: the loop raises, having issued
      the chain up to that command. */
  lemma ChainFails(c: Conversions, fails: seq<string> -> bool, effects: seq<EffectParams>,
                   fileMap: map<string, string>, output: string, files0: set<string>, log0: seq<Call>,
                   pads: seq<string>, log: seq<Call>, files: set<string>, pad: string, r: Effects.Outcome)
    requires ChainReached(c, fails, effects, fileMap, output, files0, log0, pads, log, files)
    requires |pads| < |effects|
    requires !Succeeds(fails, StepPlan(c, effects, fileMap, output, |pads|, pad))
    requires var step := Issued(fails, StepPlan(c, effects, fileMap, output, |pads|, pad));
             r == Effects.CommandFailed(step[|step| - 1].tokens)
    ensures ChainEnded(c, fails, effects, fileMap, output, files0, log0, r, pads + [pad],
                       log + Issued(fails, StepPlan(c, effects, fileMap, output, |pads|, pad)), files)
  {
    ChainSnoc(c, effects, fileMap, output, pads, pad);
    LogThenFail(fails, log0, ChainPlan(c, effects, fileMap, output, pads),
                StepPlan(c, effects, fileMap, output, |pads|, pad));
  }

  /** After the last overlay the whole chain has run. */
  lemma ChainDone(c: Conversions, fails: seq<string> -> bool, effects: seq<EffectParams>,
                  fileMap: map<string, string>, output: string, files0: set<string>, log0: seq<Call>,
                  pads: seq<string>, log: seq<Call>, files: set<string>)
    requires ChainReached(c, fails, effects, fileMap, output, files0, log0, pads, log, files)
    requires |pads| == |effects|
    ensures ChainEnded(c, fails, effects, fileMap, output, files0, log0, Effects.Done, pads, log, files)
  {
  }

  /** Lines 58-69: each effect in input order is laid over the running
      output into `tmp_effect_<i>`, which becomes the running output. */
  method OverlayChain(c: Conversions, e: Engine, effects: seq<EffectParams>,
                      fileMap: map<string, string>, output: string)
    returns (r: Effects.Outcome, ghost pads: seq<string>)
    requires Covers(effects, fileMap)
    modifies e
    ensures ChainEnded(c, e.fails, effects, fileMap, output, old(e.files), old(e.log), r, pads, e.log, e.files)
  {
    ghost var files0, log0 := e.files, e.log;
    pads := [];
    var running := output;
    var i := 0;
    ChainStart(c, e.fails, effects, fileMap, output, files0, log0);
    while i < |effects|
      invariant i == |pads| && running == Prev(output, i)
      invariant ChainReached(c, e.fails, effects, fileMap, output, files0, log0, pads, e.log, e.files)
    {
      var res, pad := OverlayOne(c, e, effects, fileMap, output, i, running, files0, log0, pads);
      pads := pads + [pad];
      if res != Effects.Done {
        return res, pads;
      }
      running := TmpEffect(i);
      i := i + 1;
    }
    ChainDone(c, e.fails, effects, fileMap, output, files0, log0, pads, e.log, e.files);
    r := Effects.Done;
  }

  /** Lines 59-68, one pass of the overlay loop: effect `i` is laid over
      `running` into `tmp_effect_<i>`. */
  method OverlayOne(c: Conversions, e: Engine, effects: seq<EffectParams>, fileMap: map<string, string>,
                    output: string, i: nat, running: string, ghost files0: set<string>, ghost log0: seq<Call>,
                    ghost pads: seq<string>)
    returns (r: Effects.Outcome, pad: string)
    requires i == |pads| < |effects| && running == Prev(output, i)
    requires ChainReached(c, e.fails, effects, fileMap, output, files0, log0, pads, e.log, e.files)
    modifies e
    ensures r == Effects.Done ==>
              ChainReached(c, e.fails, effects, fileMap, output, files0, log0, pads + [pad], e.log, e.files)
    ensures r != Effects.Done ==>
              ChainEnded(c, e.fails, effects, fileMap, output, files0, log0, r, pads + [pad], e.log, e.files)
  {
    var next := Join(BuildDir, "tmp_effect_" + NatDecimal(i) + ".wav");
    ghost var log1, files1 := e.log, e.files;
    r, pad := Effects.PadAndMix(c, e, running, fileMap[effects[i].file], effects[i].gain,
                                effects[i].offset, next);
    if r != Effects.Done {
      ChainFails(c, e.fails, effects, fileMap, output, files0, log0, pads, log1, files1, pad, r);
    } else {
      ChainStep(c, e.fails, effects, fileMap, output, files0, log0, pads, log1, files1, pad);
    }
  }

  /** Lines 84-87: the intermediates of all effects but the last are
      removed where they exist (the last one is removed at line 74). */
  method RemoveIntermediates(e: Engine, n: nat)
    modifies e
    ensures e.log == old(e.log)
    ensures e.files == old(e.files) - TmpSet(if n == 0 then 0 else n - 1)
  {
    var count := if n == 0 then 0 else n - 1;
    var i := 0;
    assert TmpSet(0) == {};
    while i < count
      invariant i <= count
      invariant e.log == old(e.log) && e.files == old(e.files) - TmpSet(i)
    {
      var path := Join(BuildDir, "tmp_effect_" + NatDecimal(i) + ".wav");
      if e.Exists(path) {
        var _ := e.Remove(path);
      }
      TmpSetSnoc(i);
      i := i + 1;
    }
  }

  // ---------------------------------------------------------------------
  // Writing the output track

  /** The command-line arguments `main` reads. An absent `--effect` is the
      empty list; an absent `--binaural` is `None`. */
  datatype Args = Args(audio: string, binaural: Option<string>, binauralGain: real, effect: seq<string>)

  /** `if args.binaural:` holds for a given, non-empty string. */
  predicate HasBinaural(args: Args)
  {
    args.binaural.Some? && args.binaural.value != []
  }

  /** The synthesized file, when there is one. */
  function BinauralSet(args: Args): set<string>
  {
    if HasBinaural(args) then {BinauralFile()} else {}
  }

  /** The exception that ends a run. */
  datatype Fault =
    | ValueError(parse: ParseError)               // an argument was rejected
    | RuntimeError(probe: ProbeError)             // soxi printed no usable number
    | CalledProcessError(tokens: seq<string>)     // a sox command exited non-zero

  function CopyTokens(input: string, output: string): seq<string>
  {
    ["sox", input, output]
  }

  /** Lines 36-51 when every step succeeds, given what the binaural
      argument and the duration probe yield: the duration query, the synth
      into the binaural file and the mix of the input with it. A rejected
      binaural argument stops before any of them, an unreadable duration
      after the query. */
  function BinauralCalls(c: Conversions, bp: Result<BinauralParams, ParseError>,
                         dur: Result<real, ProbeError>, gain: real, audio: string, rate: int,
                         output: string): seq<Call>
  {
    if bp.Failure? then []
    else if dur.Failure? then [Call.Soxi(DurationTokens(audio))]
    else [Call.Soxi(DurationTokens(audio)),
          Call.Sox(Binaurals.SynthTokens(c, BinauralFile(), dur.value, rate, bp.value, gain), BinauralFile()),
          Call.Sox(Effects.MixTokens(audio, BinauralFile(), output), output)]
  }

  /** Lines 35-55: the binaural commands, or a plain copy of the input. */
  function MixCalls(c: Conversions, args: Args, bp: Result<BinauralParams, ParseError>,
                    dur: Result<real, ProbeError>, rate: int, output: string): seq<Call>
  {
    if HasBinaural(args) then BinauralCalls(c, bp, dur, args.binauralGain, args.audio, rate, output)
    else [Call.Sox(CopyTokens(args.audio, output), output)]
  }

  /** The binaural argument parses and the duration probe reads a number,
      or there is no binaural argument. */
  predicate MixReady(args: Args, bp: Result<BinauralParams, ParseError>, dur: Result<real, ProbeError>)
  {
    HasBinaural(args) ==> bp.Success? && dur.Success?
  }

  /** Exactly one command of the mix stage writes `output`, the last one,
      when `output` is not the binaural file. */
  lemma LastWriter(c: Conversions, args: Args, bp: Result<BinauralParams, ParseError>,
                   dur: Result<real, ProbeError>, rate: int, output: string)
    requires MixReady(args, bp, dur) && output != BinauralFile()
    ensures var calls := MixCalls(c, args, bp, dur, rate, output);
            && calls != []
            && calls[|calls| - 1] == Call.Sox(calls[|calls| - 1].tokens, output)
            && forall k :: 0 <= k < |calls| - 1 ==> !(calls[k].Sox? && calls[k].output == output)
  {
  }

  /** Exactly one command writes the output: the last one, which is the mix
      of the binaural branch or the copy of the other branch. */
  lemma OneWriterOfOutput(c: Conversions, args: Args, bp: Result<BinauralParams, ParseError>,
                          dur: Result<real, ProbeError>, rate: int)
    requires MixReady(args, bp, dur)
    ensures var calls := MixCalls(c, args, bp, dur, rate, OutputMix(args.audio));
            && calls != []
            && calls[|calls| - 1] == Call.Sox(calls[|calls| - 1].tokens, OutputMix(args.audio))
            && forall k :: 0 <= k < |calls| - 1 ==> !(calls[k].Sox? && calls[k].output == OutputMix(args.audio))
  {
    OutputIsNotIntermediate(args.audio, 0);
    LastWriter(c, args, bp, dur, rate, OutputMix(args.audio));
  }

  /** A soxi query never fails the plan it starts. */
  lemma IssuedAfterQuery(fails: seq<string> -> bool, q: Call, rest: seq<Call>)
    requires q.Soxi?
    ensures Issued(fails, [q] + rest) == [q] + Issued(fails, rest)
    ensures Succeeds(fails, [q] + rest) <==> Succeeds(fails, rest)
  {
    assert ([q] + rest)[1..] == rest;
    SucceedsAppend(fails, [q], rest);
  }

  /** How lines 36-51 end, from the state `log0`, `files0`: the commands
      issued are the binaural calls up to the first failing one; a rejected
      argument raises `ValueError`, an unreadable duration `RuntimeError`,
      a failing command `CalledProcessError` with its tokens; on success the
      binaural file and the output exist, and the binaural file alone stays
      when the mix fails. */
  ghost predicate BinauralEnded(c: Conversions, fails: seq<string> -> bool,
                                bp: Result<BinauralParams, ParseError>, dur: Result<real, ProbeError>,
                                gain: real, audio: string, rate: int, output: string,
                                log0: seq<Call>, files0: set<string>,
                                fault: Option<Fault>, log: seq<Call>, files: set<string>)
  {
    var calls := BinauralCalls(c, bp, dur, gain, audio, rate, output);
    var issued := Issued(fails, calls);
    && log == log0 + issued
    && (fault.None? <==> |calls| == 3 && Succeeds(fails, calls))
    && (bp.Failure? ==> fault == Some(ValueError(bp.error)))
    && (bp.Success? && dur.Failure? ==> fault == Some(RuntimeError(dur.error)))
    && (|calls| == 3 && fault.Some? ==> fault == Some(CalledProcessError(issued[|issued| - 1].tokens)))
    && (fault.None? ==> files == files0 + {BinauralFile(), output})
    && (fault.Some? ==> files == files0 + (if |issued| == 3 then {BinauralFile()} else {}))
  }

  lemma BinauralRejected(c: Conversions, fails: seq<string> -> bool,
                         bp: Result<BinauralParams, ParseError>, dur: Result<real, ProbeError>,
                         gain: real, audio: string, rate: int, output: string,
                         log0: seq<Call>, files0: set<string>)
    requires bp.Failure?
    ensures BinauralEnded(c, fails, bp, dur, gain, audio, rate, output, log0, files0,
                          Some(ValueError(bp.error)), log0, files0)
  {
    assert log0 + [] == log0;
  }

  lemma DurationRejected(c: Conversions, fails: seq<string> -> bool,
                         bp: Result<BinauralParams, ParseError>, dur: Result<real, ProbeError>,
                         gain: real, audio: string, rate: int, output: string,
                         log0: seq<Call>, files0: set<string>)
    requires bp.Success? && dur.Failure?
    ensures BinauralEnded(c, fails, bp, dur, gain, audio, rate, output, log0, files0,
                          Some(RuntimeError(dur.error)), log0 + [Call.Soxi(DurationTokens(audio))], files0)
  {
    IssuedAfterQuery(fails, Call.Soxi(DurationTokens(audio)), []);
    assert [Call.Soxi(DurationTokens(audio))] + [] == [Call.Soxi(DurationTokens(audio))];
  }

  /** The duration query, then the synth and the mix: issued up to the
      first of the two that fails. */
  lemma SynthAndMix(fails: seq<string> -> bool, q: Call, synth: Call, mix: Call)
    requires q.Soxi? && synth.Sox? && mix.Sox?
    ensures Fails(fails, synth) ==> Issued(fails, [q, synth, mix]) == [q, synth]
    ensures !Fails(fails, synth) ==> Issued(fails, [q, synth, mix]) == [q, synth, mix]
    ensures Succeeds(fails, [q, synth, mix]) <==> !Fails(fails, synth) && !Fails(fails, mix)
  {
    assert [q, synth, mix] == [q] + [synth, mix];
    IssuedAfterQuery(fails, q, [synth, mix]);
    assert [synth, mix][1..] == [mix];
    assert [mix][1..] == [];
  }

  lemma BinauralCommands(c: Conversions, fails: seq<string> -> bool,
                         bp: Result<BinauralParams, ParseError>, dur: Result<real, ProbeError>,
                         gain: real, audio: string, rate: int, output: string,
                         log0: seq<Call>, files0: set<string>, fault: Option<Fault>,
                         log: seq<Call>, files: set<string>)
    requires bp.Success? && dur.Success?
    requires var q := Call.Soxi(DurationTokens(audio));
             var synth := Binaurals.SynthTokens(c, BinauralFile(), dur.value, rate, bp.value, gain);
             var mix := Effects.MixTokens(audio, BinauralFile(), output);
             if fails(synth) then
               fault == Some(CalledProcessError(synth)) && log == log0 + [q, Call.Sox(synth, BinauralFile())]
               && files == files0
             else if fails(mix) then
               fault == Some(CalledProcessError(mix))
               && log == log0 + [q, Call.Sox(synth, BinauralFile()), Call.Sox(mix, output)]
               && files == files0 + {BinauralFile()}
             else
               fault == None
               && log == log0 + [q, Call.Sox(synth, BinauralFile()), Call.Sox(mix, output)]
               && files == files0 + {BinauralFile(), output}
    ensures BinauralEnded(c, fails, bp, dur, gain, audio, rate, output, log0, files0, fault, log, files)
  {
    var synth := Binaurals.SynthTokens(c, BinauralFile(), dur.value, rate, bp.value, gain);
    var mix := Effects.MixTokens(audio, BinauralFile(), output);
    SynthAndMix(fails, Call.Soxi(DurationTokens(audio)), Call.Sox(synth, BinauralFile()), Call.Sox(mix, output));
  }

  /** Lines 36-51: parse the binaural argument, probe the duration,
      synthesize the binaural file and mix the input with it. */
  method BinauralMix(c: Conversions, e: Engine, binaural: string, gain: real, audio: string,
                     rate: int, output: string)
    returns (fault: Option<Fault>)
    modifies e
    ensures BinauralEnded(c, e.fails, Binaurals.ParseBinaural(c, binaural),
                          DurationOf(c, e.answers(DurationTokens(audio)), audio),
                          gain, audio, rate, output, old(e.log), old(e.files), fault, e.log, e.files)
  {
    var bp := Binaurals.ParseBinaural(c, binaural);
    ghost var dur0 := DurationOf(c, e.answers(DurationTokens(audio)), audio);
    if bp.Failure? {
      BinauralRejected(c, e.fails, bp, dur0, gain, audio, rate, output, e.log, e.files);
      return Some(ValueError(bp.error));
    }
    ghost var log0, files0 := e.log, e.files;
    var dur := GetAudioDuration(c, e, audio);
    if dur.Failure? {
      DurationRejected(c, e.fails, bp, dur, gain, audio, rate, output, log0, files0);
      return Some(RuntimeError(dur.error));
    }
    var synth := Binaurals.SynthTokens(c, BinauralFile(), dur.value, rate, bp.value, gain);
    var mix := Effects.MixTokens(audio, BinauralFile(), output);
    var ok := Binaurals.GenerateBinauralSox(c, e, BinauralFile(), dur.value, rate, bp.value, gain);
    if !ok {
      fault := Some(CalledProcessError(synth));
    } else {
      ok := Binaurals.MixAudioBinaural(e, audio, BinauralFile(), output);
      fault := if ok then None else Some(CalledProcessError(mix));
    }
    BinauralCommands(c, e.fails, bp, dur, gain, audio, rate, output, log0, files0, fault, e.log, e.files);
  }

  /** The binaural file when the mix stage stopped after the synth wrote
      it: three binaural calls are issued only when the synth succeeded. */
  function SynthLeft(args: Args, issued: seq<Call>): set<string>
  {
    if HasBinaural(args) && |issued| == 3 then {BinauralFile()} else {}
  }

  /** How lines 35-55 end: the commands issued are the binaural calls or
      the copy, up to the first failing one; on success the output exists
      (with the binaural file when there is one); on failure the binaural
      file stays exactly when the synth wrote it, and nothing else is
      added. */
  ghost predicate MixEnded(c: Conversions, fails: seq<string> -> bool, args: Args,
                           bp: Result<BinauralParams, ParseError>, dur: Result<real, ProbeError>,
                           rate: int, output: string, log0: seq<Call>, files0: set<string>,
                           fault: Option<Fault>, log: seq<Call>, files: set<string>)
  {
    var calls := MixCalls(c, args, bp, dur, rate, output);
    var issued := Issued(fails, calls);
    && log == log0 + issued
    && (fault.None? <==> MixReady(args, bp, dur) && Succeeds(fails, calls))
    && (fault.None? ==> files == files0 + BinauralSet(args) + {output})
    && (fault.Some? ==> files == files0 + SynthLeft(args, issued))
    && (fault.Some? && MixReady(args, bp, dur) ==>
          fault == Some(CalledProcessError(issued[|issued| - 1].tokens)))
    && (HasBinaural(args) && bp.Failure? ==> fault == Some(ValueError(bp.error)))
    && (HasBinaural(args) && bp.Success? && dur.Failure? ==> fault == Some(RuntimeError(dur.error)))
  }

  lemma MixByBinaural(c: Conversions, fails: seq<string> -> bool, args: Args,
                      bp: Result<BinauralParams, ParseError>, dur: Result<real, ProbeError>,
                      rate: int, output: string, log0: seq<Call>, files0: set<string>,
                      fault: Option<Fault>, log: seq<Call>, files: set<string>)
    requires HasBinaural(args)
    requires BinauralEnded(c, fails, bp, dur, args.binauralGain, args.audio, rate, output,
                           log0, files0, fault, log, files)
    ensures MixEnded(c, fails, args, bp, dur, rate, output, log0, files0, fault, log, files)
  {
  }

  lemma MixByCopy(c: Conversions, fails: seq<string> -> bool, args: Args,
                  bp: Result<BinauralParams, ParseError>, dur: Result<real, ProbeError>,
                  rate: int, output: string, log0: seq<Call>, files0: set<string>,
                  fault: Option<Fault>, log: seq<Call>, files: set<string>)
    requires !HasBinaural(args)
    requires var copy := Call.Sox(CopyTokens(args.audio, output), output);
             && log == log0 + [copy]
             && fault == (if Fails(fails, copy) then Some(CalledProcessError(copy.tokens)) else None)
             && files == (if Fails(fails, copy) then files0 else files0 + {output})
    ensures MixEnded(c, fails, args, bp, dur, rate, output, log0, files0, fault, log, files)
  {
    var copy := Call.Sox(CopyTokens(args.audio, output), output);
    assert [copy][1..] == [];
  }

  /** What the binaural argument yields; only looked at when there is one. */
  function BinauralArg(c: Conversions, args: Args): Result<BinauralParams, ParseError>
  {
    Binaurals.ParseBinaural(c, if args.binaural.Some? then args.binaural.value else [])
  }

  /** Lines 35-55: the output is written by the binaural mix or by a copy
      of the input. */
  method BuildMix(c: Conversions, e: Engine, args: Args, rate: int, output: string)
    returns (fault: Option<Fault>)
    modifies e
    ensures MixEnded(c, e.fails, args, BinauralArg(c, args), DurationOf(c, e.answers(DurationTokens(args.audio)), args.audio),
                     rate, output, old(e.log), old(e.files), fault, e.log, e.files)
  {
    ghost var bp := BinauralArg(c, args);
    ghost var dur := DurationOf(c, e.answers(DurationTokens(args.audio)), args.audio);
    if HasBinaural(args) {
      fault := BinauralMix(c, e, args.binaural.value, args.binauralGain, args.audio, rate, output);
      MixByBinaural(c, e.fails, args, bp, dur, rate, output, old(e.log), old(e.files), fault, e.log, e.files);
    } else {
      var ok := e.Sox(["sox", args.audio, output], output);
      fault := if ok then None else Some(CalledProcessError(CopyTokens(args.audio, output)));
      MixByCopy(c, e.fails, args, bp, dur, rate, output, old(e.log), old(e.files), fault, e.log, e.files);
    }
  }

  // ---------------------------------------------------------------------
  // Laying the effects over the output

  /** Lines 57-73 when every command succeeds: the chain of overlays, then
      the copy of the last intermediate onto the output. Without effects
      nothing runs. */
  function EffectsPlan(c: Conversions, effects: seq<EffectParams>, fileMap: map<string, string>,
                       output: string, pads: seq<string>): seq<Call>
    requires |pads| <= |effects| && Covers(effects, fileMap)
  {
    if effects == [] then []
    else
      ChainPlan(c, effects, fileMap, output, pads)
        + if |pads| == |effects| then [Call.Sox(CopyTokens(TmpEffect(|effects| - 1), output), output)] else []
  }

  /** How lines 57-74 end: the commands issued are the plan up to the first
      failing one. On success the output has been rewritten and every
      intermediate but the last exists; on failure the exception names the
      failing command and the intermediates already written stay. */
  ghost predicate EffectsEnded(c: Conversions, fails: seq<string> -> bool, effects: seq<EffectParams>,
                               fileMap: map<string, string>, output: string, log0: seq<Call>,
                               files0: set<string>, fault: Option<Fault>, pads: seq<string>,
                               log: seq<Call>, files: set<string>)
  {
    && |pads| <= |effects| && Covers(effects, fileMap)
    && var plan := EffectsPlan(c, effects, fileMap, output, pads);
       var issued := Issued(fails, plan);
       && log == log0 + issued
       && (fault.None? <==> |pads| == |effects| && Succeeds(fails, plan))
       && (fault.None? ==>
             files == if effects == [] then files0
                      else (files0 + TmpSet(|effects|) + {output}) - {TmpEffect(|effects| - 1)})
       && (fault.Some? ==>
             && |pads| >= 1
             && fault == Some(CalledProcessError(issued[|issued| - 1].tokens))
             && Fails(fails, issued[|issued| - 1])
             && files == files0 + TmpSet(if Succeeds(fails, ChainPlan(c, effects, fileMap, output, pads))
                                         then |effects| else |pads| - 1))
  }

  lemma EffectsNone(c: Conversions, fails: seq<string> -> bool, effects: seq<EffectParams>,
                    fileMap: map<string, string>, output: string, log0: seq<Call>, files0: set<string>)
    requires effects == []
    ensures EffectsEnded(c, fails, effects, fileMap, output, log0, files0, None, [], log0, files0)
  {
    assert log0 + [] == log0;
  }

  lemma EffectsChainFailed(c: Conversions, fails: seq<string> -> bool, effects: seq<EffectParams>,
                           fileMap: map<string, string>, output: string, log0: seq<Call>,
                           files0: set<string>, r: Effects.Outcome, pads: seq<string>,
                           log: seq<Call>, files: set<string>)
    requires effects != [] && r != Effects.Done
    requires ChainEnded(c, fails, effects, fileMap, output, files0, log0, r, pads, log, files)
    ensures EffectsEnded(c, fails, effects, fileMap, output, log0, files0,
                         Some(CalledProcessError(r.tokens)), pads, log, files)
  {
    var chain := ChainPlan(c, effects, fileMap, output, pads);
    if |pads| == |effects| {
      IssuedBefore(fails, chain, [Call.Sox(CopyTokens(TmpEffect(|effects| - 1), output), output)]);
    } else {
      assert chain + [] == chain;
    }
  }

  lemma EffectsCopyFailed(c: Conversions, fails: seq<string> -> bool, effects: seq<EffectParams>,
                          fileMap: map<string, string>, output: string, log0: seq<Call>,
                          files0: set<string>, pads: seq<string>, log1: seq<Call>, files1: set<string>)
    requires effects != []
    requires ChainEnded(c, fails, effects, fileMap, output, files0, log0, Effects.Done, pads, log1, files1)
    requires fails(CopyTokens(TmpEffect(|effects| - 1), output))
    ensures EffectsEnded(c, fails, effects, fileMap, output, log0, files0,
                         Some(CalledProcessError(CopyTokens(TmpEffect(|effects| - 1), output))), pads,
                         log1 + [Call.Sox(CopyTokens(TmpEffect(|effects| - 1), output), output)], files1)
  {
    var copy := Call.Sox(CopyTokens(TmpEffect(|effects| - 1), output), output);
    assert Issued(fails, [copy]) == [copy];
    LogThenFail(fails, log0, ChainPlan(c, effects, fileMap, output, pads), [copy]);
  }

  lemma EffectsCopied(c: Conversions, fails: seq<string> -> bool, effects: seq<EffectParams>,
                      fileMap: map<string, string>, output: string, log0: seq<Call>,
                      files0: set<string>, pads: seq<string>, log1: seq<Call>, files1: set<string>)
    requires effects != []
    requires ChainEnded(c, fails, effects, fileMap, output, files0, log0, Effects.Done, pads, log1, files1)
    requires !fails(CopyTokens(TmpEffect(|effects| - 1), output))
    ensures EffectsEnded(c, fails, effects, fileMap, output, log0, files0, None, pads,
                         log1 + [Call.Sox(CopyTokens(TmpEffect(|effects| - 1), output), output)],
                         (files1 + {output}) - {TmpEffect(|effects| - 1)})
  {
    var copy := Call.Sox(CopyTokens(TmpEffect(|effects| - 1), output), output);
    assert Succeeds(fails, [copy]);
    LogThenSucceed(fails, log0, ChainPlan(c, effects, fileMap, output, pads), [copy]);
  }

  /** Lines 57-74: the overlay chain, the copy of the last intermediate onto
      the output, and the removal of that intermediate. */
  method ApplyEffects(c: Conversions, e: Engine, effects: seq<EffectParams>,
                      fileMap: map<string, string>, output: string)
    returns (fault: Option<Fault>, ghost pads: seq<string>)
    requires Covers(effects, fileMap)
    modifies e
    ensures EffectsEnded(c, e.fails, effects, fileMap, output, old(e.log), old(e.files),
                         fault, pads, e.log, e.files)
  {
    if effects == [] {
      EffectsNone(c, e.fails, effects, fileMap, output, e.log, e.files);
      return None, [];
    }
    var res;
    res, pads := OverlayChain(c, e, effects, fileMap, output);
    if res != Effects.Done {
      EffectsChainFailed(c, e.fails, effects, fileMap, output, old(e.log), old(e.files), res, pads,
                         e.log, e.files);
      return Some(CalledProcessError(res.tokens)), pads;
    }
    ghost var log1, files1 := e.log, e.files;
    var last := Join(BuildDir, "tmp_effect_" + NatDecimal(|effects| - 1) + ".wav");
    var ok := e.Sox(["sox", last, output], output);
    if !ok {
      EffectsCopyFailed(c, e.fails, effects, fileMap, output, old(e.log), old(e.files), pads, log1, files1);
      return Some(CalledProcessError(CopyTokens(last, output))), pads;
    }
    // The last intermediate exists here, so the removal at line 74 never raises.
    assert last == TmpEffect(|effects| - 1) && last in e.files;
    var removed := e.Remove(last);
    assert removed;
    EffectsCopied(c, e.fails, effects, fileMap, output, old(e.log), old(e.files), pads, log1, files1);
    fault := None;
  }

  // ---------------------------------------------------------------------
  // The whole run

  /** How `main` ends: nothing to do, normal completion (with the output
      path and whether the success message is printed), or an exception. */
  datatype RunOutcome = NothingToDo | Finished(output: string, reported: bool) | Raised(fault: Fault)

  /** A path inside the build directory. */
  predicate InBuild(p: string)
  {
    StartsWith(p, "build/")
  }

  /** Nothing of `files0` is gone and whatever is new lies in the build
      directory, so no temporary file under /tmp is left behind. */
  predicate AddsOnlyBuild(files0: set<string>, files: set<string>)
  {
    files0 <= files && forall p :: p in files && p !in files0 ==> InBuild(p)
  }

  lemma CacheInBuild(file: string, rate: int)
    ensures InBuild(Effects.CachePath(BuildDir, file, rate))
  {
    var base := Basename(file);
    var stem := SplitExt(base).0;
    var x := stem + "-" + Decimal(rate) + ".wav";
    if stem != [] {
      assert stem[0] == base[0] && base[0] in base;
    } else {
      assert x[0] == '-';
    }
    JoinBuild(x);
  }

  /** Every name `name` gives lies in the build directory. */
  ghost predicate NamesInBuild(name: string -> string)
  {
    forall f :: InBuild(name(f))
  }

  /** The resampled files are named in the build directory. */
  lemma NamingInBuild(rate: int)
    ensures NamesInBuild(Effects.CacheNaming(BuildDir, rate))
  {
    forall f ensures InBuild(Effects.CacheNaming(BuildDir, rate)(f)) {
      CacheInBuild(f, rate);
    }
  }

  /** So the resampled files lie in the build directory. */
  lemma CacheValuesInBuild(effects: seq<EffectParams>, name: string -> string)
    requires NamesInBuild(name)
    ensures forall v :: v in Effects.CacheMap(effects, name).Values ==> InBuild(v)
  {
    var m := Effects.CacheMap(effects, name);
    Effects.CacheMapSpec(effects, name);
    forall v | v in m.Values ensures InBuild(v) {
      var f :| f in m && m[f] == v;
    }
  }

  lemma TmpSetInBuild(n: nat)
    ensures forall p :: p in TmpSet(n) ==> InBuild(p)
  {
    forall p | p in TmpSet(n) ensures InBuild(p) {
      var i: nat :| i < n && p == TmpEffect(i);
      BuildPathsStartWithBuild("", i);
    }
  }

  lemma OutputNotTmp(audio: string, n: nat)
    ensures OutputMix(audio) !in TmpSet(n) && OutputMix(audio) != BinauralFile()
  {
    OutputIsNotIntermediate(audio, 0);
    if OutputMix(audio) in TmpSet(n) {
      var i: nat :| i < n && OutputMix(audio) == TmpEffect(i);
      OutputIsNotIntermediate(audio, i);
    }
  }

  lemma CoversAll(effects: seq<EffectParams>, name: string -> string)
    ensures Covers(effects, Effects.CacheMap(effects, name))
  {
    forall k | 0 <= k < |effects| ensures effects[k].file in Effects.CacheMap(effects, name) {
      Effects.CacheMapCovers(effects, name, k);
    }
  }

  /** The last entry of a log that ends with a non-empty `issued`. */
  lemma LastOfLog(log0: seq<Call>, issued: seq<Call>)
    requires issued != []
    ensures (log0 + issued)[|log0 + issued| - 1] == issued[|issued| - 1]
  {
  }

  /** How lines 30-87 end, from the state `log0`, `files0` after the build
      directory exists and the effects are parsed; `rateR`, `bp` and `dur`
      are the sample-rate probe, the parsed binaural argument and the
      duration probe.
      - The run never ends with nothing to do once it got here.
      - The first command is the sample-rate query.
      - An unreadable rate raises with nothing else run.
      - Any other exception is `RaisedFacts`; normal completion is
        `FinishedFacts`, for the resampled files named by
        `Effects.CacheNaming`. */
  ghost predicate ProcessEnded(c: Conversions, fails: seq<string> -> bool, args: Args, effects: seq<EffectParams>,
                               rateR: Result<int, ProbeError>, bp: Result<BinauralParams, ParseError>,
                               dur: Result<real, ProbeError>, log0: seq<Call>, files0: set<string>,
                               r: RunOutcome, pads: seq<string>, log: seq<Call>, files: set<string>)
  {
    match r
    case NothingToDo => false
    case Raised(fault) =>
      && QueriedFirst(args, log0, log)
      && RaisedFacts(fails, files0, fault, log, files)
      && (rateR.Failure? ==>
            fault == RuntimeError(rateR.error) && log == log0 + [Call.Soxi(RateTokens(args.audio))] && files == files0)
      && (rateR.Success? ==>
            && RejectedAfterResample(fails, args, effects, rateR.value, Effects.CacheNaming(BuildDir, rateR.value),
                                     bp, log0, files0, fault, log)
            && RaisedState(c, fails, args, effects, rateR.value, Effects.CacheNaming(BuildDir, rateR.value),
                           bp, dur, log0, files0, pads, log, files))
    case Finished(output, reported) =>
      && rateR.Success?
      && QueriedFirst(args, log0, log)
      && FinishedFacts(c, fails, args, effects, rateR.value, Effects.CacheNaming(BuildDir, rateR.value), bp, dur,
                       log0, files0, output, reported, pads, log, files)
  }

  /** How lines 31-87 end once the sample rate `rate` is known and the
      effect files are resampled under `name`. */
  ghost predicate StagesEnded(c: Conversions, fails: seq<string> -> bool, args: Args, effects: seq<EffectParams>,
                              rate: int, name: string -> string, bp: Result<BinauralParams, ParseError>,
                              dur: Result<real, ProbeError>, log0: seq<Call>, files0: set<string>,
                              r: RunOutcome, pads: seq<string>, log: seq<Call>, files: set<string>)
  {
    match r
    case NothingToDo => false
    case Raised(fault) =>
      && QueriedFirst(args, log0, log)
      && RaisedFacts(fails, files0, fault, log, files)
      && RejectedAfterResample(fails, args, effects, rate, name, bp, log0, files0, fault, log)
      && RaisedState(c, fails, args, effects, rate, name, bp, dur, log0, files0, pads, log, files)
    case Finished(output, reported) =>
      && QueriedFirst(args, log0, log)
      && FinishedFacts(c, fails, args, effects, rate, name, bp, dur, log0, files0, output, reported, pads, log, files)
  }

  /** The first command is the sample-rate query. */
  predicate QueriedFirst(args: Args, log0: seq<Call>, log: seq<Call>)
  {
    |log| > |log0| && log[|log0|] == Call.Soxi(RateTokens(args.audio))
  }

  /** An exception naming a command names the last command run, which
      failed; an exception keeps every file and adds only build paths. */
  predicate RaisedFacts(fails: seq<string> -> bool, files0: set<string>, fault: Fault, log: seq<Call>,
                        files: set<string>)
  {
    && (fault.CalledProcessError? ==>
          |log| > 0 && Fails(fails, log[|log| - 1]) && log[|log| - 1].tokens == fault.tokens)
    && AddsOnlyBuild(files0, files)
  }

  /** The binaural argument is parsed only after the rate query and the
      resampling, so a rejected one raises with exactly those issued. */
  ghost predicate RejectedAfterResample(fails: seq<string> -> bool, args: Args, effects: seq<EffectParams>,
                                        rate: int, name: string -> string, bp: Result<BinauralParams, ParseError>,
                                        log0: seq<Call>, files0: set<string>, fault: Fault, log: seq<Call>)
  {
    var resample := Effects.ResamplePlan(effects, rate, name, files0);
    HasBinaural(args) && bp.Failure? && Succeeds(fails, resample) ==>
      fault == ValueError(bp.error) && log == log0 + [Call.Soxi(RateTokens(args.audio))] + resample
  }

  /** An exception after the rate query leaves exactly these commands run
      and these files, by the stage that raised: the resampling stops at its
      failing command with what the commands before it wrote; the mix stage
      stops with the resampled files and the binaural file when the synth
      wrote it; the effects stage stops with the resampled files, the
      binaural file, the output and the intermediates written so far. */
  ghost predicate RaisedState(c: Conversions, fails: seq<string> -> bool, args: Args, effects: seq<EffectParams>,
                              rate: int, name: string -> string, bp: Result<BinauralParams, ParseError>,
                              dur: Result<real, ProbeError>, log0: seq<Call>, files0: set<string>,
                              pads: seq<string>, log: seq<Call>, files: set<string>)
  {
    if !Succeeds(fails, Effects.ResamplePlan(effects, rate, name, files0)) then
      ResampleStopped(fails, args, effects, rate, name, log0, files0, log, files)
    else if !MixDone(c, fails, args, bp, dur, rate) then
      MixStopped(c, fails, args, effects, rate, name, bp, dur, log0, files0, log, files)
    else
      EffectsStopped(c, fails, args, effects, rate, name, bp, dur, log0, files0, pads, log, files)
  }

  /** Every command of the mix stage ran and succeeded. */
  ghost predicate MixDone(c: Conversions, fails: seq<string> -> bool, args: Args,
                          bp: Result<BinauralParams, ParseError>, dur: Result<real, ProbeError>, rate: int)
  {
    MixReady(args, bp, dur) && Succeeds(fails, MixCalls(c, args, bp, dur, rate, OutputMix(args.audio)))
  }

  ghost predicate ResampleStopped(fails: seq<string> -> bool, args: Args, effects: seq<EffectParams>,
                                  rate: int, name: string -> string, log0: seq<Call>, files0: set<string>,
                                  log: seq<Call>, files: set<string>)
  {
    var issued := Issued(fails, Effects.ResamplePlan(effects, rate, name, files0));
    && log == log0 + [Call.Soxi(RateTokens(args.audio))] + issued
    && files == files0 + Written(fails, issued)
  }

  ghost predicate MixStopped(c: Conversions, fails: seq<string> -> bool, args: Args, effects: seq<EffectParams>,
                             rate: int, name: string -> string, bp: Result<BinauralParams, ParseError>,
                             dur: Result<real, ProbeError>, log0: seq<Call>, files0: set<string>,
                             log: seq<Call>, files: set<string>)
  {
    var issued := Issued(fails, MixCalls(c, args, bp, dur, rate, OutputMix(args.audio)));
    && log == log0 + [Call.Soxi(RateTokens(args.audio))] + Effects.ResamplePlan(effects, rate, name, files0) + issued
    && files == files0 + Effects.CacheMap(effects, name).Values + SynthLeft(args, issued)
  }

  ghost predicate EffectsStopped(c: Conversions, fails: seq<string> -> bool, args: Args, effects: seq<EffectParams>,
                                 rate: int, name: string -> string, bp: Result<BinauralParams, ParseError>,
                                 dur: Result<real, ProbeError>, log0: seq<Call>, files0: set<string>,
                                 pads: seq<string>, log: seq<Call>, files: set<string>)
  {
    var output := OutputMix(args.audio);
    var fileMap := Effects.CacheMap(effects, name);
    && 1 <= |pads| <= |effects| && Covers(effects, fileMap)
    && log == log0 + [Call.Soxi(RateTokens(args.audio))] + Effects.ResamplePlan(effects, rate, name, files0)
              + MixCalls(c, args, bp, dur, rate, output) + Issued(fails, EffectsPlan(c, effects, fileMap, output, pads))
    && files == files0 + fileMap.Values + BinauralSet(args) + {output}
                + TmpSet(if Succeeds(fails, ChainPlan(c, effects, fileMap, output, pads)) then |effects| else |pads| - 1)
  }

  /** Normal completion reports the output, leaves the resampled files and
      the output, and removes the binaural file and every intermediate; the
      commands run are the rate query, the resampling, the output commands
      and the effect commands, in that order. */
  ghost predicate FinishedFacts(c: Conversions, fails: seq<string> -> bool, args: Args, effects: seq<EffectParams>,
                                rate: int, name: string -> string, bp: Result<BinauralParams, ParseError>,
                                dur: Result<real, ProbeError>, log0: seq<Call>, files0: set<string>,
                                output: string, reported: bool, pads: seq<string>, log: seq<Call>,
                                files: set<string>)
  {
    var fileMap := Effects.CacheMap(effects, name);
    && output == OutputMix(args.audio) && reported
    && |pads| == |effects| && Covers(effects, fileMap)
    && files == (files0 + fileMap.Values + {output}) - TmpSet(|effects|) - BinauralSet(args)
    && log == log0 + [Call.Soxi(RateTokens(args.audio))] + Effects.ResamplePlan(effects, rate, name, files0)
                + MixCalls(c, args, bp, dur, rate, output) + EffectsPlan(c, effects, fileMap, output, pads)
  }

  lemma StagesToProcess(c: Conversions, fails: seq<string> -> bool, args: Args, effects: seq<EffectParams>,
                        rateR: Result<int, ProbeError>, bp: Result<BinauralParams, ParseError>,
                        dur: Result<real, ProbeError>, log0: seq<Call>, files0: set<string>,
                        r: RunOutcome, pads: seq<string>, log: seq<Call>, files: set<string>)
    requires rateR.Success?
    requires StagesEnded(c, fails, args, effects, rateR.value, Effects.CacheNaming(BuildDir, rateR.value), bp, dur,
                         log0, files0, r, pads, log, files)
    ensures ProcessEnded(c, fails, args, effects, rateR, bp, dur, log0, files0, r, pads, log, files)
  {
  }

  lemma RateRejected(c: Conversions, fails: seq<string> -> bool, args: Args, effects: seq<EffectParams>,
                     rateR: Result<int, ProbeError>, bp: Result<BinauralParams, ParseError>,
                     dur: Result<real, ProbeError>, log0: seq<Call>, files0: set<string>)
    requires rateR.Failure?
    ensures ProcessEnded(c, fails, args, effects, rateR, bp, dur, log0, files0,
                         Raised(RuntimeError(rateR.error)), [], log0 + [Call.Soxi(RateTokens(args.audio))], files0)
  {
  }

  lemma AddedInBuild(files0: set<string>, added: set<string>, files: set<string>)
    requires files0 <= files && files <= files0 + added
    requires forall p :: p in added ==> InBuild(p)
    ensures AddsOnlyBuild(files0, files)
  {
  }

  lemma ResampleRaised(c: Conversions, fails: seq<string> -> bool, args: Args, effects: seq<EffectParams>,
                       rate: int, name: string -> string, bp: Result<BinauralParams, ParseError>,
                  dur: Result<real, ProbeError>, log0: seq<Call>, files0: set<string>,
                       tokens: seq<string>, log: seq<Call>, files: set<string>)
    requires NamesInBuild(name)
    requires var plan := Effects.ResamplePlan(effects, rate, name, files0);
             && log == log0 + [Call.Soxi(RateTokens(args.audio))] + Issued(fails, plan)
             && !Succeeds(fails, plan)
             && files0 <= files && files <= files0 + Effects.CacheMap(effects, name).Values
             && files == files0 + Written(fails, Issued(fails, plan))
             && tokens == Issued(fails, plan)[|Issued(fails, plan)| - 1].tokens
    ensures StagesEnded(c, fails, args, effects, rate, name, bp, dur, log0, files0,
                        Raised(CalledProcessError(tokens)), [], log, files)
  {
    ResampleRaisedParts(fails, args, effects, rate, name, log0, files0, tokens, log, files);
    RaisedEarly(c, fails, args, effects, rate, name, bp, dur, log0, files0, CalledProcessError(tokens), log, files);
  }

  /** The parts of a failing resampling's Raised case: the query first, the
      failing conversion last, only build files added, and the state of
      `Pipeline.ResampleStopped`. */
  lemma ResampleRaisedParts(fails: seq<string> -> bool, args: Args, effects: seq<EffectParams>,
                            rate: int, name: string -> string, log0: seq<Call>, files0: set<string>,
                            tokens: seq<string>, log: seq<Call>, files: set<string>)
    requires NamesInBuild(name)
    requires var plan := Effects.ResamplePlan(effects, rate, name, files0);
             && log == log0 + [Call.Soxi(RateTokens(args.audio))] + Issued(fails, plan)
             && !Succeeds(fails, plan)
             && files0 <= files && files <= files0 + Effects.CacheMap(effects, name).Values
             && files == files0 + Written(fails, Issued(fails, plan))
             && tokens == Issued(fails, plan)[|Issued(fails, plan)| - 1].tokens
    ensures |log| > |log0| && log[|log0|] == Call.Soxi(RateTokens(args.audio))
    ensures RaisedFacts(fails, files0, CalledProcessError(tokens), log, files)
    ensures ResampleStopped(fails, args, effects, rate, name, log0, files0, log, files)
  {
    var issued := Issued(fails, Effects.ResamplePlan(effects, rate, name, files0));
    FailedAfterQuery(fails, log0, Call.Soxi(RateTokens(args.audio)), issued, tokens, log);
    assert AddsOnlyBuild(files0, files) by {
      CacheValuesInBuild(effects, name);
      AddedInBuild(files0, Effects.CacheMap(effects, name).Values, files);
    }
  }

  /** A log of the query and then commands up to a failing one: the query
      comes first and the failing command last. */
  lemma FailedAfterQuery(fails: seq<string> -> bool, log0: seq<Call>, q: Call, issued: seq<Call>,
                         tokens: seq<string>, log: seq<Call>)
    requires log == log0 + [q] + issued && issued != [] && Fails(fails, issued[|issued| - 1])
    requires tokens == issued[|issued| - 1].tokens
    ensures |log| > |log0| && log[|log0|] == q
    ensures |log| > 0 && Fails(fails, log[|log| - 1]) && log[|log| - 1].tokens == tokens
  {
    LastOfLog(log0 + [q], issued);
    assert log == log0 + ([q] + issued);
  }

  /** An exception in the resampling makes up `Pipeline.StagesEnded`'s
      Raised case from its parts. */
  lemma RaisedEarly(c: Conversions, fails: seq<string> -> bool, args: Args, effects: seq<EffectParams>,
                    rate: int, name: string -> string, bp: Result<BinauralParams, ParseError>,
                    dur: Result<real, ProbeError>, log0: seq<Call>, files0: set<string>,
                    fault: Fault, log: seq<Call>, files: set<string>)
    requires !Succeeds(fails, Effects.ResamplePlan(effects, rate, name, files0))
    requires |log| > |log0| && log[|log0|] == Call.Soxi(RateTokens(args.audio))
    requires RaisedFacts(fails, files0, fault, log, files)
    requires ResampleStopped(fails, args, effects, rate, name, log0, files0, log, files)
    ensures StagesEnded(c, fails, args, effects, rate, name, bp, dur, log0, files0, Raised(fault), [], log, files)
  {
  }

  /** An exception after the resampling, when the binaural argument (if
      any) was accepted. */
  lemma RaisedLate(c: Conversions, fails: seq<string> -> bool, args: Args, effects: seq<EffectParams>,
                   rate: int, name: string -> string, bp: Result<BinauralParams, ParseError>,
                  dur: Result<real, ProbeError>, log0: seq<Call>, files0: set<string>,
                   fault: Fault, pads: seq<string>, log: seq<Call>, files: set<string>)
    requires HasBinaural(args) ==> bp.Success?
    requires |log| > |log0| && log[|log0|] == Call.Soxi(RateTokens(args.audio))
    requires fault.CalledProcessError? ==> Fails(fails, log[|log| - 1]) && log[|log| - 1].tokens == fault.tokens
    requires AddsOnlyBuild(files0, files)
    requires RaisedState(c, fails, args, effects, rate, name, bp, dur, log0, files0, pads, log, files)
    ensures StagesEnded(c, fails, args, effects, rate, name, bp, dur, log0, files0, Raised(fault), pads, log, files)
  {
  }

  lemma MixRaised(c: Conversions, fails: seq<string> -> bool, args: Args, effects: seq<EffectParams>,
                  rate: int, name: string -> string, bp: Result<BinauralParams, ParseError>,
                  dur: Result<real, ProbeError>, log0: seq<Call>, files0: set<string>,
                  log1: seq<Call>, files1: set<string>, fault: Fault, log: seq<Call>, files: set<string>)
    requires NamesInBuild(name)
    requires var plan := Effects.ResamplePlan(effects, rate, name, files0);
             && log1 == log0 + [Call.Soxi(RateTokens(args.audio))] + plan
             && Succeeds(fails, plan)
             && files1 == files0 + Effects.CacheMap(effects, name).Values
    requires MixEnded(c, fails, args, bp, dur, rate, OutputMix(args.audio), log1, files1, Some(fault), log, files)
    ensures StagesEnded(c, fails, args, effects, rate, name, bp, dur, log0, files0, Raised(fault), [], log, files)
  {
    var q := Call.Soxi(RateTokens(args.audio));
    var plan := Effects.ResamplePlan(effects, rate, name, files0);
    var calls := MixCalls(c, args, bp, dur, rate, OutputMix(args.audio));
    var issued := Issued(fails, calls);
    assert log == log1 + issued;
    assert files1 <= files <= files1 + BinauralSet(args);
    MixRaisedFiles(args, effects, name, files0, files1, files);
    MixRaisedState(c, fails, args, effects, rate, name, bp, dur, log0, files0, log1, files1, fault, log, files);
    if HasBinaural(args) && bp.Failure? {
      assert calls == [];
      assert fault == ValueError(bp.error);
      BinauralRaised(c, fails, args, effects, rate, name, bp, dur, log0, files0, fault, log, files);
    } else {
      if fault.CalledProcessError? {
        assert MixReady(args, bp, dur) && !Succeeds(fails, calls);
        FailedLast(fails, log1, issued, log, fault);
      }
      QueryBefore(log0, q, plan, log1, issued, log);
      RaisedLate(c, fails, args, effects, rate, name, bp, dur, log0, files0, fault, [], log, files);
    }
  }

  /** An exception in the mix stage leaves the state `Pipeline.MixStopped`
      describes. */
  lemma MixRaisedState(c: Conversions, fails: seq<string> -> bool, args: Args, effects: seq<EffectParams>,
                       rate: int, name: string -> string, bp: Result<BinauralParams, ParseError>,
                       dur: Result<real, ProbeError>, log0: seq<Call>, files0: set<string>,
                       log1: seq<Call>, files1: set<string>, fault: Fault, log: seq<Call>, files: set<string>)
    requires var plan := Effects.ResamplePlan(effects, rate, name, files0);
             && log1 == log0 + [Call.Soxi(RateTokens(args.audio))] + plan
             && Succeeds(fails, plan)
             && files1 == files0 + Effects.CacheMap(effects, name).Values
    requires MixEnded(c, fails, args, bp, dur, rate, OutputMix(args.audio), log1, files1, Some(fault), log, files)
    ensures RaisedState(c, fails, args, effects, rate, name, bp, dur, log0, files0, [], log, files)
  {
    assert !MixDone(c, fails, args, bp, dur, rate);
    assert MixStopped(c, fails, args, effects, rate, name, bp, dur, log0, files0, log, files);
  }

  /** When the issued part of the log ends in the failing command and the
      fault names it, the log's last entry is that failing command. */
  lemma FailedLast(fails: seq<string> -> bool, log1: seq<Call>, issued: seq<Call>, log: seq<Call>, fault: Fault)
    requires log == log1 + issued && issued != [] && Fails(fails, issued[|issued| - 1])
    requires fault == CalledProcessError(issued[|issued| - 1].tokens)
    ensures Fails(fails, log[|log| - 1]) && log[|log| - 1].tokens == fault.tokens
  {
    LastOfLog(log1, issued);
  }

  /** A rejected binaural argument, after the query and the resampling,
      ends the stages with that `ValueError`. */
  lemma BinauralRaised(c: Conversions, fails: seq<string> -> bool, args: Args, effects: seq<EffectParams>,
                       rate: int, name: string -> string, bp: Result<BinauralParams, ParseError>,
                       dur: Result<real, ProbeError>, log0: seq<Call>, files0: set<string>,
                       fault: Fault, log: seq<Call>, files: set<string>)
    requires HasBinaural(args) && bp.Failure? && fault == ValueError(bp.error)
    requires var plan := Effects.ResamplePlan(effects, rate, name, files0);
             log == log0 + [Call.Soxi(RateTokens(args.audio))] + plan && Succeeds(fails, plan)
    requires AddsOnlyBuild(files0, files)
    requires RaisedState(c, fails, args, effects, rate, name, bp, dur, log0, files0, [], log, files)
    ensures StagesEnded(c, fails, args, effects, rate, name, bp, dur, log0, files0, Raised(fault), [], log, files)
  {
  }

  /** What an exception in the mix stage can have added: build files. */
  lemma MixRaisedFiles(args: Args, effects: seq<EffectParams>, name: string -> string,
                       files0: set<string>, files1: set<string>, files: set<string>)
    requires NamesInBuild(name)
    requires files1 == files0 + Effects.CacheMap(effects, name).Values
    requires files1 <= files <= files1 + BinauralSet(args)
    ensures AddsOnlyBuild(files0, files)
  {
    CacheValuesInBuild(effects, name);
    BuildPathsStartWithBuild(args.audio, 0);
    AddedInBuild(files0, Effects.CacheMap(effects, name).Values + BinauralSet(args), files);
  }

  /** Files added in three stages, each in the build directory. */
  lemma GrowthInBuild(files0: set<string>, cached: set<string>, bset: set<string>, output: string,
                      tmps: set<string>, files1: set<string>, files2: set<string>, files: set<string>)
    requires files1 == files0 + cached && files2 == files1 + bset + {output} && files == files2 + tmps
    requires forall p :: p in cached ==> InBuild(p)
    requires forall p :: p in bset ==> InBuild(p)
    requires forall p :: p in tmps ==> InBuild(p)
    requires InBuild(output)
    ensures AddsOnlyBuild(files0, files)
  {
  }

  /** The rate query stays where it was when more calls are issued. */
  lemma QueryBefore(log0: seq<Call>, q: Call, plan: seq<Call>, log1: seq<Call>, issued: seq<Call>, log: seq<Call>)
    requires log1 == log0 + [q] + plan && log == log1 + issued
    ensures |log| > |log0| && log[|log0|] == q
  {
    assert log == log0 + ([q] + plan + issued);
  }

  /** The log after the rate query starts with it. */
  lemma QueryFirst(log0: seq<Call>, q: Call, plan: seq<Call>, mix: seq<Call>, issued: seq<Call>,
                   log1: seq<Call>, log2: seq<Call>, log: seq<Call>)
    requires log1 == log0 + [q] + plan && log2 == log1 + mix && log == log2 + issued
    ensures |log| > |log0| && log[|log0|] == q
  {
    assert log == log0 + ([q] + plan + mix + issued);
  }

  lemma EffectsRaisedLog(c: Conversions, fails: seq<string> -> bool, args: Args, effects: seq<EffectParams>,
                      rate: int, name: string -> string, bp: Result<BinauralParams, ParseError>,
                  dur: Result<real, ProbeError>, log0: seq<Call>, files0: set<string>,
                      log1: seq<Call>, files1: set<string>, log2: seq<Call>, files2: set<string>,
                      fault: Fault, pads: seq<string>, log: seq<Call>, files: set<string>)
    requires NamesInBuild(name)
    requires var plan := Effects.ResamplePlan(effects, rate, name, files0);
             && log1 == log0 + [Call.Soxi(RateTokens(args.audio))] + plan
             && Succeeds(fails, plan)
             && files1 == files0 + Effects.CacheMap(effects, name).Values
    requires MixEnded(c, fails, args, bp, dur, rate, OutputMix(args.audio), log1, files1, None, log2, files2)
    requires EffectsEnded(c, fails, effects, Effects.CacheMap(effects, name), OutputMix(args.audio), log2, files2,
                          Some(fault), pads, log, files)
    ensures |log| > |log0| && log[|log0|] == Call.Soxi(RateTokens(args.audio))
    ensures fault.CalledProcessError? ==> Fails(fails, log[|log| - 1]) && log[|log| - 1].tokens == fault.tokens
    ensures HasBinaural(args) ==> bp.Success?
  {
    var fileMap := Effects.CacheMap(effects, name);
    var output := OutputMix(args.audio);
    var plan := Effects.ResamplePlan(effects, rate, name, files0);
    var mix := Issued(fails, MixCalls(c, args, bp, dur, rate, output));
    var issued := Issued(fails, EffectsPlan(c, effects, fileMap, output, pads));
    QueryFirst(log0, Call.Soxi(RateTokens(args.audio)), plan, mix, issued, log1, log2, log);
    LastOfLog(log2, issued);
  }

  lemma EffectsRaisedFiles(args: Args, effects: seq<EffectParams>, name: string -> string, files0: set<string>,
                           files1: set<string>, files2: set<string>, k: nat, files: set<string>)
    requires NamesInBuild(name)
    requires files1 == files0 + Effects.CacheMap(effects, name).Values
    requires files2 == files1 + BinauralSet(args) + {OutputMix(args.audio)}
    requires files == files2 + TmpSet(k)
    ensures AddsOnlyBuild(files0, files)
  {
    CacheValuesInBuild(effects, name);
    BuildPathsStartWithBuild(args.audio, 0);
    TmpSetInBuild(k);
    GrowthInBuild(files0, Effects.CacheMap(effects, name).Values, BinauralSet(args), OutputMix(args.audio),
                  TmpSet(k), files1, files2, files);
  }

  lemma EffectsRaised(c: Conversions, fails: seq<string> -> bool, args: Args, effects: seq<EffectParams>,
                      rate: int, name: string -> string, bp: Result<BinauralParams, ParseError>,
                  dur: Result<real, ProbeError>, log0: seq<Call>, files0: set<string>,
                      log1: seq<Call>, files1: set<string>, log2: seq<Call>, files2: set<string>,
                      fault: Fault, pads: seq<string>, log: seq<Call>, files: set<string>)
    requires NamesInBuild(name)
    requires var plan := Effects.ResamplePlan(effects, rate, name, files0);
             && log1 == log0 + [Call.Soxi(RateTokens(args.audio))] + plan
             && Succeeds(fails, plan)
             && files1 == files0 + Effects.CacheMap(effects, name).Values
    requires MixEnded(c, fails, args, bp, dur, rate, OutputMix(args.audio), log1, files1, None, log2, files2)
    requires EffectsEnded(c, fails, effects, Effects.CacheMap(effects, name), OutputMix(args.audio), log2, files2,
                          Some(fault), pads, log, files)
    ensures StagesEnded(c, fails, args, effects, rate, name, bp, dur, log0, files0, Raised(fault), pads, log, files)
  {
    EffectsRaisedLog(c, fails, args, effects, rate, name, bp, dur, log0, files0, log1, files1, log2, files2, fault, pads, log, files);
    var fileMap := Effects.CacheMap(effects, name);
    var k := if Succeeds(fails, ChainPlan(c, effects, fileMap, OutputMix(args.audio), pads)) then |effects|
             else |pads| - 1;
    EffectsRaisedFiles(args, effects, name, files0, files1, files2, k, files);
    EffectsRaisedState(c, fails, args, effects, rate, name, bp, dur, log0, files0, log1, files1, log2, files2,
                       fault, pads, log, files);
    RaisedLate(c, fails, args, effects, rate, name, bp, dur, log0, files0, fault, pads, log, files);
  }

  /** An exception in the effects stage leaves the state
      `Pipeline.EffectsStopped` describes. */
  lemma EffectsRaisedState(c: Conversions, fails: seq<string> -> bool, args: Args, effects: seq<EffectParams>,
                           rate: int, name: string -> string, bp: Result<BinauralParams, ParseError>,
                           dur: Result<real, ProbeError>, log0: seq<Call>, files0: set<string>,
                           log1: seq<Call>, files1: set<string>, log2: seq<Call>, files2: set<string>,
                           fault: Fault, pads: seq<string>, log: seq<Call>, files: set<string>)
    requires var plan := Effects.ResamplePlan(effects, rate, name, files0);
             && log1 == log0 + [Call.Soxi(RateTokens(args.audio))] + plan
             && Succeeds(fails, plan)
             && files1 == files0 + Effects.CacheMap(effects, name).Values
    requires MixEnded(c, fails, args, bp, dur, rate, OutputMix(args.audio), log1, files1, None, log2, files2)
    requires EffectsEnded(c, fails, effects, Effects.CacheMap(effects, name), OutputMix(args.audio), log2, files2,
                          Some(fault), pads, log, files)
    ensures RaisedState(c, fails, args, effects, rate, name, bp, dur, log0, files0, pads, log, files)
  {
    assert MixDone(c, fails, args, bp, dur, rate);
    assert EffectsStopped(c, fails, args, effects, rate, name, bp, dur, log0, files0, pads, log, files);
  }

  /** The files after the cleanup, in one formula. */
  lemma FinalFiles(files0: set<string>, cached: set<string>, output: string, bset: set<string>,
                   n: nat, files2: set<string>, files3: set<string>, files: set<string>)
    requires output !in TmpSet(n) && output !in bset
    requires files2 == files0 + cached + bset + {output}
    requires files3 == if n == 0 then files2 else (files2 + TmpSet(n) + {output}) - {TmpEffect(n - 1)}
    requires files == files3 - bset - TmpSet(if n == 0 then 0 else n - 1)
    ensures files == (files0 + cached + {output}) - TmpSet(n) - bset
    ensures output in files3
  {
    if n > 0 {
      TmpSetSnoc(n - 1);
    } else {
      assert TmpSet(0) == {};
    }
  }

  lemma ProcessFinished(c: Conversions, fails: seq<string> -> bool, args: Args, effects: seq<EffectParams>,
                        rate: int, name: string -> string, bp: Result<BinauralParams, ParseError>,
                  dur: Result<real, ProbeError>, log0: seq<Call>, files0: set<string>,
                        log1: seq<Call>, files1: set<string>, log2: seq<Call>, files2: set<string>,
                        pads: seq<string>, log3: seq<Call>, files3: set<string>, files: set<string>)
    requires NamesInBuild(name)
    requires var plan := Effects.ResamplePlan(effects, rate, name, files0);
             && log1 == log0 + [Call.Soxi(RateTokens(args.audio))] + plan
             && Succeeds(fails, plan)
             && files1 == files0 + Effects.CacheMap(effects, name).Values
    requires MixEnded(c, fails, args, bp, dur, rate, OutputMix(args.audio), log1, files1, None, log2, files2)
    requires EffectsEnded(c, fails, effects, Effects.CacheMap(effects, name), OutputMix(args.audio), log2, files2,
                          None, pads, log3, files3)
    requires files == files3 - BinauralSet(args) - TmpSet(if |effects| == 0 then 0 else |effects| - 1)
    ensures StagesEnded(c, fails, args, effects, rate, name, bp, dur, log0, files0,
                        Finished(OutputMix(args.audio), OutputMix(args.audio) in files3), pads, log3, files)
    ensures OutputMix(args.audio) in files3
  {
    var output := OutputMix(args.audio);
    var fileMap := Effects.CacheMap(effects, name);
    var mix := MixCalls(c, args, bp, dur, rate, output);
    var eff := EffectsPlan(c, effects, fileMap, output, pads);
    assert Succeeds(fails, mix) && log2 == log1 + Issued(fails, mix);
    assert Succeeds(fails, eff) && log3 == log2 + Issued(fails, eff) && |pads| == |effects|;
    FinishedLog(fails, log0, Call.Soxi(RateTokens(args.audio)), Effects.ResamplePlan(effects, rate, name, files0),
                mix, eff, log1, log2, log3);
    assert files2 == files1 + BinauralSet(args) + {output};
    assert files3 == if effects == [] then files2
                     else (files2 + TmpSet(|effects|) + {output}) - {TmpEffect(|effects| - 1)};
    OutputNotTmp(args.audio, |effects|);
    FinalFiles(files0, fileMap.Values, output, BinauralSet(args), |effects|, files2, files3, files);
    FinishedFromFacts(c, fails, args, effects, rate, name, bp, dur, log0, files0, pads, log3, files);
  }

  /** The facts of a normal run make up `Pipeline.StagesEnded`. */
  lemma FinishedFromFacts(c: Conversions, fails: seq<string> -> bool, args: Args, effects: seq<EffectParams>,
                          rate: int, name: string -> string, bp: Result<BinauralParams, ParseError>,
                          dur: Result<real, ProbeError>, log0: seq<Call>, files0: set<string>,
                          pads: seq<string>, log: seq<Call>, files: set<string>)
    requires |pads| == |effects|
    requires var output := OutputMix(args.audio);
             var fileMap := Effects.CacheMap(effects, name);
             && Covers(effects, fileMap)
             && log == log0 + [Call.Soxi(RateTokens(args.audio))] + Effects.ResamplePlan(effects, rate, name, files0)
                         + MixCalls(c, args, bp, dur, rate, output) + EffectsPlan(c, effects, fileMap, output, pads)
             && files == (files0 + fileMap.Values + {output}) - TmpSet(|effects|) - BinauralSet(args)
    requires |log| > |log0| && log[|log0|] == Call.Soxi(RateTokens(args.audio))
    ensures StagesEnded(c, fails, args, effects, rate, name, bp, dur, log0, files0,
                        Finished(OutputMix(args.audio), true), pads, log, files)
  {
  }

  /** The log of a normal run: the query, the resampling, the mix and the
      effects, each run in full. */
  lemma FinishedLog(fails: seq<string> -> bool, log0: seq<Call>, q: Call, plan: seq<Call>, mix: seq<Call>,
                    eff: seq<Call>, log1: seq<Call>, log2: seq<Call>, log3: seq<Call>)
    requires log1 == log0 + [q] + plan
    requires Succeeds(fails, mix) && log2 == log1 + Issued(fails, mix)
    requires Succeeds(fails, eff) && log3 == log2 + Issued(fails, eff)
    ensures log3 == log0 + [q] + plan + mix + eff
    ensures |log3| > |log0| && log3[|log0|] == q
  {
  }

  /** Lines 76-87: report whether the output exists, then remove the
      binaural file when one was asked for and every intermediate. */
  method Cleanup(e: Engine, args: Args, n: nat, output: string) returns (reported: bool)
    modifies e
    ensures reported == (output in old(e.files))
    ensures e.log == old(e.log)
    ensures e.files == old(e.files) - BinauralSet(args) - TmpSet(if n == 0 then 0 else n - 1)
  {
    reported := e.Exists(output);
    if HasBinaural(args) && e.Exists(BinauralFile()) {
      var _ := e.Remove(BinauralFile());
    }
    RemoveIntermediates(e, n);
  }

  /** On normal completion the output exists, and neither an intermediate
      nor the binaural file remains. */
  lemma FinishedCleansUp(c: Conversions, fails: seq<string> -> bool, args: Args, effects: seq<EffectParams>,
                         rateR: Result<int, ProbeError>, bp: Result<BinauralParams, ParseError>,
                         dur: Result<real, ProbeError>, log0: seq<Call>, files0: set<string>,
                         r: RunOutcome, pads: seq<string>, log: seq<Call>, files: set<string>)
    requires ProcessEnded(c, fails, args, effects, rateR, bp, dur, log0, files0, r, pads, log, files)
    requires r.Finished?
    ensures r.output == OutputMix(args.audio) && r.output in files
    ensures forall i: nat :: i < |effects| ==> TmpEffect(i) !in files
    ensures HasBinaural(args) ==> BinauralFile() !in files
  {
    OutputNotTmp(args.audio, |effects|);
    assert forall i: nat :: i < |effects| ==> TmpEffect(i) in TmpSet(|effects|);
  }

  /** An exception in the effects stage skips the cleanup of lines 76-87:
      the output, the binaural file and every intermediate written before
      the failing overlay stay, beside every file that existed before. */
  lemma EffectsRaisedLeaves(c: Conversions, fails: seq<string> -> bool, args: Args, effects: seq<EffectParams>,
                            rateR: Result<int, ProbeError>, bp: Result<BinauralParams, ParseError>,
                            dur: Result<real, ProbeError>, log0: seq<Call>, files0: set<string>,
                            fault: Fault, pads: seq<string>, log: seq<Call>, files: set<string>)
    requires ProcessEnded(c, fails, args, effects, rateR, bp, dur, log0, files0, Raised(fault), pads, log, files)
    requires rateR.Success?
    requires Succeeds(fails, Effects.ResamplePlan(effects, rateR.value, Effects.CacheNaming(BuildDir, rateR.value), files0))
    requires MixDone(c, fails, args, bp, dur, rateR.value)
    ensures files0 <= files && OutputMix(args.audio) in files
    ensures HasBinaural(args) ==> BinauralFile() in files
    ensures forall i: nat :: i + 1 < |pads| ==> TmpEffect(i) in files
  {
    var name := Effects.CacheNaming(BuildDir, rateR.value);
    var fileMap := Effects.CacheMap(effects, name);
    StoppedInEffects(c, fails, args, effects, rateR.value, name, bp, dur, log0, files0, pads, log, files);
    var k := if Succeeds(fails, ChainPlan(c, effects, fileMap, OutputMix(args.audio), pads)) then |effects|
             else |pads| - 1;
    IntermediatesStay(files0, fileMap.Values, BinauralSet(args), OutputMix(args.audio), k, |pads|, files);
  }

  /** With the resampling and the mix done, the raised state is the one of
      the effects stage. */
  lemma StoppedInEffects(c: Conversions, fails: seq<string> -> bool, args: Args, effects: seq<EffectParams>,
                         rate: int, name: string -> string, bp: Result<BinauralParams, ParseError>,
                         dur: Result<real, ProbeError>, log0: seq<Call>, files0: set<string>,
                         pads: seq<string>, log: seq<Call>, files: set<string>)
    requires RaisedState(c, fails, args, effects, rate, name, bp, dur, log0, files0, pads, log, files)
    requires Succeeds(fails, Effects.ResamplePlan(effects, rate, name, files0))
    requires MixDone(c, fails, args, bp, dur, rate)
    ensures EffectsStopped(c, fails, args, effects, rate, name, bp, dur, log0, files0, pads, log, files)
  {
  }

  /** Files made of the earlier ones, the build products and the first
      `k` intermediates keep every intermediate below `n - 1` when `k` is
      at least `n - 1`. */
  lemma IntermediatesStay(files0: set<string>, cached: set<string>, bset: set<string>, output: string,
                          k: nat, n: nat, files: set<string>)
    requires files == files0 + cached + bset + {output} + TmpSet(k) && k + 1 >= n
    ensures files0 <= files && output in files && bset <= files
    ensures forall i: nat :: i + 1 < n ==> TmpEffect(i) in files
  {
    forall i: nat | i + 1 < n ensures TmpEffect(i) in files {
      assert TmpEffect(i) in TmpSet(k);
    }
  }
}
