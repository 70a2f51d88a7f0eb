/** Sound effects: parsing `--effect` with its repeat clause, resampling
    each distinct effect file into the build directory once, and overlaying
    one effect onto a base track through temporary files. */
module Effects {
  import opened Wrappers
  import opened Text
  import opened Numbers
  import opened Params
  import opened Paths
  import opened Engine

  const RepeatPrefix: string := "repeat="
  const EffectErrorPrefix: string := "Invalid --effect format: "

  /** The value of one `repeat=` field: `Nx` is a count, `Ts` a duration,
      exactly `inf` is endless; the 'x' suffix is checked before 's'. */
  function DecodeRepeat(c: Conversions, val: string): (r: Result<Repeat, Cause>)
    ensures r.Success? ==> WellFormedRepeat(r.value)
    ensures r.Success? ==> (r.value.mode == Times <==> EndsWith(val, "x"))
    ensures r.Success? ==> (r.value.mode == Endless <==> val == "inf")
    ensures !EndsWith(val, "x") && !EndsWith(val, "s") && val != "inf" ==>
              r == Failure(BadRepeatValue(val))
  {
    if EndsWith(val, "x") then
      match c.parseInt(val[..|val| - 1])
      case None => Failure(BadRepeatTimes(val))
      case Some(n) =>
        if n <= 0 then Failure(RepeatTimesNotPositive)
        else Success(Repeat(Times, Some(IntValue(n))))
    else if EndsWith(val, "s") then
      match c.parseFloat(val[..|val| - 1])
      case None => Failure(BadRepeatDuration(val))
      case Some(x) =>
        if x <= 0.0 then Failure(RepeatDurationNotPositive)
        else Success(Repeat(Duration, Some(FloatValue(x))))
    else if val == "inf" then Success(Repeat(Endless, None))
    else Failure(BadRepeatValue(val))
  }

  /** The repeat value a field carries: the text after `repeat=`, if the
      field starts with it. */
  function RepeatClause(field: string): seq<string>
  {
    if StartsWith(field, RepeatPrefix) then [field[|RepeatPrefix|..]] else []
  }

  /** The repeat values of the extra fields, in order. */
  function RepeatValues(fields: seq<string>): seq<string>
    decreases |fields|
  {
    if fields == [] then []
    else RepeatValues(fields[..|fields| - 1]) + RepeatClause(fields[|fields| - 1])
  }

  /** The cause of the first repeat value that is rejected, if any. */
  function FirstFailure(c: Conversions, vals: seq<string>): (r: Option<Cause>)
    ensures r.None? <==> forall k :: 0 <= k < |vals| ==> DecodeRepeat(c, vals[k]).Success?
    decreases |vals|
  {
    if vals == [] then None
    else if DecodeRepeat(c, vals[0]).Failure? then Some(DecodeRepeat(c, vals[0]).error)
    else
      var rest := FirstFailure(c, vals[1..]);
      assert forall k :: 0 < k < |vals| ==> vals[k] == vals[1..][k - 1];
      rest
  }

  /** The reference meaning of the extra fields: the first rejected repeat
      value fails the whole argument; otherwise the last repeat value wins,
      and without one there is no repeat. */
  function RepeatOf(c: Conversions, fields: seq<string>): Result<Option<Repeat>, Cause>
  {
    var vals := RepeatValues(fields);
    match FirstFailure(c, vals)
    case Some(cause) => Failure(cause)
    case None =>
      if vals == [] then Success(None)
      else Success(Some(DecodeRepeat(c, vals[|vals| - 1]).value))
  }

  /** The fields of `parse_effect_arg`: a file, a gain (the default when
      empty), a required offset, then optional extra fields. */
  function EffectFields(c: Conversions, s: string, defaultGain: real): Result<EffectParams, Cause>
  {
    var parts := Split(s, ':');
    if |parts| < 2 then Failure(FieldCount(|parts|))
    else
      var gain :- if parts[1] == [] then Success(defaultGain) else ParseFloat(c, parts[1]);
      if |parts| < 3 || parts[2] == [] then Failure(MissingOffset)
      else
        var offset :- ParseFloat(c, parts[2]);
        var repeat :- RepeatOf(c, parts[3..]);
        Success(EffectParams(parts[0], gain, offset, repeat))
  }

  /** What `parse_effect_arg` returns or raises: every failure becomes one
      error that names the whole input and keeps the cause. */
  function ParseEffect(c: Conversions, s: string, defaultGain: real): (r: Result<EffectParams, ParseError>)
    ensures r.Failure? ==> r.error.message == EffectErrorPrefix + s
    ensures r.Failure? <==> EffectFields(c, s, defaultGain).Failure?
  {
    match EffectFields(c, s, defaultGain)
    case Success(p) => Success(p)
    case Failure(cause) => Failure(ParseError(EffectErrorPrefix + s, cause))
  }

  /** Fails the first repeat value once; later values cannot undo it. */
  lemma {:induction false} FirstFailureSnoc(c: Conversions, vals: seq<string>, v: string)
    ensures FirstFailure(c, vals + [v]) ==
              if FirstFailure(c, vals).Some? then FirstFailure(c, vals)
              else if DecodeRepeat(c, v).Failure? then Some(DecodeRepeat(c, v).error)
              else None
    decreases |vals|
  {
    if vals != [] {
      assert (vals + [v])[0] == vals[0];
      assert (vals + [v])[1..] == vals[1..] + [v];
      FirstFailureSnoc(c, vals[1..], v);
    } else {
      assert [] + [v] == [v];
    }
  }

  /** One more extra field: a field without `repeat=` changes nothing, a
      rejected repeat value fails, an accepted one replaces the repeat. */
  lemma RepeatOfSnoc(c: Conversions, fields: seq<string>, f: string)
    ensures RepeatOf(c, fields + [f]) ==
              if RepeatOf(c, fields).Failure? then RepeatOf(c, fields)
              else if !StartsWith(f, RepeatPrefix) then RepeatOf(c, fields)
              else match DecodeRepeat(c, f[|RepeatPrefix|..])
                   case Failure(cause) => Failure(cause)
                   case Success(rp) => Success(Some(rp))
  {
    var all := fields + [f];
    assert all[..|all| - 1] == fields;
    var vals := RepeatValues(fields);
    assert RepeatValues(all) == vals + RepeatClause(f);
    if StartsWith(f, RepeatPrefix) {
      FirstFailureSnoc(c, vals, f[|RepeatPrefix|..]);
    } else {
      assert vals + [] == vals;
    }
  }

  /** Once a prefix of the extra fields fails, the whole list fails the same way. */
  lemma {:induction false} RepeatOfFailureSticks(c: Conversions, fields: seq<string>, i: nat)
    requires i <= |fields|
    requires RepeatOf(c, fields[..i]).Failure?
    ensures RepeatOf(c, fields) == RepeatOf(c, fields[..i])
    decreases |fields| - i
  {
    if i < |fields| {
      assert fields[..i + 1] == fields[..i] + [fields[i]];
      RepeatOfSnoc(c, fields[..i], fields[i]);
      RepeatOfFailureSticks(c, fields, i + 1);
    } else {
      assert fields[..i] == fields;
    }
  }

  /** Every repeat the parser accepts satisfies the repeat invariant. */
  lemma RepeatOfWellFormed(c: Conversions, fields: seq<string>)
    requires RepeatOf(c, fields).Success?
    ensures RepeatOf(c, fields).value.Some? ==> WellFormedRepeat(RepeatOf(c, fields).value.value)
  {
  }

  /** `parse_effect_arg`: splits at ':', reads the gain and the offset, then
      folds the extra fields into the repeat, left to right. */
  method ParseEffectArg(c: Conversions, s: string, defaultGain: real)
    returns (r: Result<EffectParams, ParseError>)
    ensures r == ParseEffect(c, s, defaultGain)
  {
    var parts := Split(s, ':');
    if |parts| < 2 {
      return Failure(ParseError(EffectErrorPrefix + s, FieldCount(|parts|)));
    }
    var file := parts[0];
    var gainText := parts[1];
    var gain := defaultGain;
    if gainText != [] {
      match c.parseFloat(gainText) {
        case None =>
          return Failure(ParseError(EffectErrorPrefix + s, NotANumber(gainText)));
        case Some(x) =>
          gain := x;
      }
    }
    var offsetText := if |parts| > 2 then parts[2] else [];
    if offsetText == [] {
      return Failure(ParseError(EffectErrorPrefix + s, MissingOffset));
    }
    var offset: real;
    match c.parseFloat(offsetText) {
      case None =>
        return Failure(ParseError(EffectErrorPrefix + s, NotANumber(offsetText)));
      case Some(x) =>
        offset := x;
    }
    var repeat :- FoldRepeat(c, parts[3..], s);
    if repeat.Some? && (repeat.value.mode == Times || repeat.value.mode == Duration)
       && repeat.value.value.None?
    {
      // A count or a duration always carries its value: the check cannot fire.
      assert false;
    }
    r := Success(EffectParams(file, gain, offset, repeat));
  }

  /** The loop of `parse_effect_arg` over the extra fields: the first
      rejected repeat value raises, an accepted one replaces the repeat so
      far, and every other field is ignored. Any repeat it yields is
      well-formed. */
  method FoldRepeat(c: Conversions, extra: seq<string>, s: string)
    returns (r: Result<Option<Repeat>, ParseError>)
    ensures r.Success? <==> RepeatOf(c, extra).Success?
    ensures r.Success? ==> r.value == RepeatOf(c, extra).value
    ensures r.Success? && r.value.Some? ==> WellFormedRepeat(r.value.value)
    ensures r.Failure? ==> r.error == ParseError(EffectErrorPrefix + s, RepeatOf(c, extra).error)
  {
    var repeat: Option<Repeat> := None;
    var i := 0;
    assert extra[..0] == [];
    while i < |extra|
      invariant 0 <= i <= |extra|
      invariant RepeatOf(c, extra[..i]) == Success(repeat)
    {
      var param := extra[i];
      assert extra[..i + 1] == extra[..i] + [param];
      RepeatOfSnoc(c, extra[..i], param);
      if StartsWith(param, RepeatPrefix) {
        match DecodeRepeat(c, param[|RepeatPrefix|..]) {
          case Failure(cause) =>
            RepeatOfFailureSticks(c, extra, i + 1);
            return Failure(ParseError(EffectErrorPrefix + s, cause));
          case Success(rp) =>
            repeat := Some(rp);
        }
      }
      i := i + 1;
    }
    assert extra[..i] == extra;
    RepeatOfWellFormed(c, extra);
    r := Success(repeat);
  }

  /** Text made of `pieces` joined by ':' splits back into them. */
  lemma SplitFields(pieces: seq<string>)
    requires |pieces| >= 1
    requires forall k :: 0 <= k < |pieces| ==> ':' !in pieces[k]
    ensures Split(JoinWith(pieces, ':'), ':') == pieces
  {
    SplitJoin(pieces, ':');
  }

  /** How a well-formed argument without extra fields reads. */
  lemma ThreeFields(c: Conversions, file: string, g: string, o: string, defaultGain: real)
    requires ':' !in file && ':' !in g && ':' !in o
    requires g == [] || c.parseFloat(g).Some?
    requires o != [] && c.parseFloat(o).Some?
    ensures ParseEffect(c, file + ":" + g + ":" + o, defaultGain) == Success(EffectParams(
              file, if g == [] then defaultGain else c.parseFloat(g).value, c.parseFloat(o).value))
  {
    var pieces := [file, g, o];
    assert JoinWith(pieces, ':') == file + ":" + g + ":" + o by {
      assert pieces[1..] == [g, o] && pieces[1..][1..] == [o];
      assert JoinWith([o], ':') == o;
      assert JoinWith([g, o], ':') == g + [':'] + o;
      assert JoinWith(pieces, ':') == file + [':'] + (g + [':'] + o);
    }
    SplitFields(pieces);
    assert RepeatValues([]) == [];
  }

  /** The first worked example of the argument's help text. */
  lemma GongExample(c: Conversions)
    requires c.parseFloat("1.2") == Some(1.2) && c.parseFloat("5.5") == Some(5.5)
    ensures ParseEffect(c, "gong.mp3:1.2:5.5", 0.5) == Success(EffectParams("gong.mp3", 1.2, 5.5))
  {
    ThreeFields(c, "gong.mp3", "1.2", "5.5", 0.5);
    assert "gong.mp3" + ":" + "1.2" + ":" + "5.5" == "gong.mp3:1.2:5.5";
  }

  /** The second worked example: an empty gain takes the default. */
  lemma BellExample(c: Conversions)
    requires c.parseFloat("10") == Some(10.0)
    ensures ParseEffect(c, "bell.wav::10", 0.5) == Success(EffectParams("bell.wav", 0.5, 10.0))
  {
    ThreeFields(c, "bell.wav", "", "10", 0.5);
    assert "bell.wav" + ":" + "" + ":" + "10" == "bell.wav::10";
  }

  /** Text without a ':' or with a single one fails before any number is
      read: one field is too few, and two leave no offset (unless the gain
      is rejected first). */
  lemma TooFewFields(c: Conversions, s: string, defaultGain: real)
    requires multiset(s)[':'] <= 1
    ensures ParseEffect(c, s, defaultGain).Failure?
    ensures multiset(s)[':'] == 0 ==> ParseEffect(c, s, defaultGain).error.cause == FieldCount(1)
    ensures multiset(s)[':'] == 1 ==>
              && |Split(s, ':')| == 2
              && ParseEffect(c, s, defaultGain).error.cause ==
                 var g := Split(s, ':')[1];
                 if g != [] && c.parseFloat(g).None? then NotANumber(g) else MissingOffset
  {
    SplitCount(s, ':');
  }

  /** A successful parse has no repeat or a well-formed one. */
  lemma ParsedRepeatWellFormed(c: Conversions, s: string, defaultGain: real)
    requires ParseEffect(c, s, defaultGain).Success?
    ensures var p := ParseEffect(c, s, defaultGain).value;
            p.repeat.None? || WellFormedRepeat(p.repeat.value)
  {
    var parts := Split(s, ':');
    RepeatOfWellFormed(c, parts[3..]);
  }

  /** An extra field that does not start with `repeat=` is ignored. */
  lemma OtherFieldIgnored(c: Conversions, fields: seq<string>, f: string)
    requires !StartsWith(f, RepeatPrefix)
    ensures RepeatOf(c, fields + [f]) == RepeatOf(c, fields)
  {
    RepeatOfSnoc(c, fields, f);
  }

  /** With several accepted `repeat=` fields the last one wins. */
  lemma LastRepeatWins(c: Conversions, fields: seq<string>, val: string)
    requires RepeatOf(c, fields).Success?
    requires DecodeRepeat(c, val).Success?
    ensures RepeatOf(c, fields + [RepeatPrefix + val]) == Success(Some(DecodeRepeat(c, val).value))
  {
    var f := RepeatPrefix + val;
    assert f[..|RepeatPrefix|] == RepeatPrefix && f[|RepeatPrefix|..] == val;
    RepeatOfSnoc(c, fields, f);
  }

  /** The count example `3x`: three plays. */
  lemma CountExample(c: Conversions)
    requires c.parseInt("3") == Some(3)
    ensures DecodeRepeat(c, "3x") == Success(Repeat(Times, Some(IntValue(3))))
  {
    assert "3x"[..1] == "3";
  }

  /** The duration example `2.5s`: two and a half seconds. */
  lemma DurationExample(c: Conversions)
    requires c.parseFloat("2.5") == Some(2.5)
    ensures DecodeRepeat(c, "2.5s") == Success(Repeat(Duration, Some(FloatValue(2.5))))
  {
    assert "2.5s"[..3] == "2.5";
    assert !EndsWith("2.5s", "x");
  }

  /** The endless example `inf`. */
  lemma EndlessExample(c: Conversions)
    ensures DecodeRepeat(c, "inf") == Success(Repeat(Endless))
  {
    assert !EndsWith("inf", "x") && !EndsWith("inf", "s");
  }

  /** Rejected repeat clauses: a count of 0, and a unit that is neither
      'x' nor 's'. */
  lemma RepeatRejections(c: Conversions)
    requires c.parseInt("0") == Some(0)
    ensures DecodeRepeat(c, "0x") == Failure(RepeatTimesNotPositive)
    ensures DecodeRepeat(c, "5m") == Failure(BadRepeatValue("5m"))
  {
    assert "0x"[..1] == "0";
    assert !EndsWith("5m", "x") && !EndsWith("5m", "s");
  }

  // ---------------------------------------------------------------------
  // Resampling

  /** `<dir>/<stem>-<rate>.wav`, where the stem is the effect file's base
      name without its extension. */
  function CachePath(dir: string, file: string, rate: int): string
  {
    Join(dir, SplitExt(Basename(file)).0 + "-" + Decimal(rate) + ".wav")
  }

  /** The resampled path of each effect file, as one naming function. The
      facts about the cache below hold for any naming. */
  function CacheNaming(dir: string, rate: int): string -> string
  {
    f => CachePath(dir, f, rate)
  }

  function ResampleTokens(file: string, rate: int, target: string): seq<string>
  {
    ["sox", file, "-r", Decimal(rate), target]
  }

  /** The distinct effect files. */
  function EffectFiles(effects: seq<EffectParams>): set<string>
  {
    set k | 0 <= k < |effects| :: effects[k].file
  }

  /** The map `resample_effects` returns, built effect by effect: every
      distinct effect file to its resampled path. */
  function CacheMap(effects: seq<EffectParams>, name: string -> string): map<string, string>
    decreases |effects|
  {
    if effects == [] then map[]
    else
      var n := |effects| - 1;
      CacheMap(effects[..n], name)[effects[n].file := name(effects[n].file)]
  }

  /** The resample commands, in order, when every one succeeds: one per
      effect whose file was not seen before and whose target exists neither
      beforehand nor from an earlier command. */
  function ResamplePlan(effects: seq<EffectParams>, rate: int, name: string -> string,
                        files: set<string>): seq<Call>
    decreases |effects|
  {
    if effects == [] then []
    else
      var pre := effects[..|effects| - 1];
      var f := effects[|effects| - 1].file;
      var calls := ResamplePlan(pre, rate, name, files);
      if f in CacheMap(pre, name) || name(f) in files + CacheMap(pre, name).Values then calls
      else calls + [Call.Sox(ResampleTokens(f, rate, name(f)), name(f))]
  }

  lemma EffectFilesSnoc(effects: seq<EffectParams>, x: EffectParams)
    ensures EffectFiles(effects + [x]) == EffectFiles(effects) + {x.file}
  {
    var all := effects + [x];
    assert all[|effects|] == x;
    forall f | f in EffectFiles(effects) ensures f in EffectFiles(all) {
      var k :| 0 <= k < |effects| && effects[k].file == f;
      assert all[k] == effects[k];
    }
  }

  /** The keys of the map are exactly the distinct effect files, and each
      maps to its own resampled path. */
  lemma {:induction false} CacheMapSpec(effects: seq<EffectParams>, name: string -> string)
    ensures CacheMap(effects, name).Keys == EffectFiles(effects)
    ensures forall f :: f in CacheMap(effects, name) ==> CacheMap(effects, name)[f] == name(f)
    decreases |effects|
  {
    if effects != [] {
      var n := |effects| - 1;
      CacheMapSpec(effects[..n], name);
      EffectFilesSnoc(effects[..n], effects[n]);
      assert effects[..n] + [effects[n]] == effects;
    } else {
      assert EffectFiles(effects) == {};
    }
  }

  /** The files of a prefix are files of the whole list. */
  lemma EffectFilesPrefix(effects: seq<EffectParams>, i: nat)
    requires i <= |effects|
    ensures EffectFiles(effects[..i]) <= EffectFiles(effects)
  {
    forall f | f in EffectFiles(effects[..i]) ensures f in EffectFiles(effects) {
      var k :| 0 <= k < i && effects[..i][k].file == f;
      assert effects[k] == effects[..i][k];
    }
  }

  lemma CacheMapPrefixValues(effects: seq<EffectParams>, i: nat, name: string -> string)
    requires i <= |effects|
    ensures CacheMap(effects[..i], name).Values <= CacheMap(effects, name).Values
  {
    EffectFilesPrefix(effects, i);
    CacheMapSpec(effects[..i], name);
    CacheMapSpec(effects, name);
    var small := CacheMap(effects[..i], name);
    var big := CacheMap(effects, name);
    forall v | v in small.Values ensures v in big.Values {
      var f :| f in small && small[f] == v;
      assert f in big && big[f] == v;
    }
  }

  /** The plan for a prefix of the effects is a prefix of the whole plan. */
  lemma {:induction false} ResamplePlanPrefix(effects: seq<EffectParams>, i: nat, rate: int,
                                               name: string -> string, files: set<string>)
    requires i <= |effects|
    ensures ResamplePlan(effects[..i], rate, name, files) <= ResamplePlan(effects, rate, name, files)
    decreases |effects| - i
  {
    if i < |effects| {
      ResamplePlanPrefix(effects, i + 1, rate, name, files);
      assert effects[..i + 1][..i] == effects[..i];
    } else {
      assert effects[..i] == effects;
    }
  }

  /** One more effect whose file was seen, or whose target exists
      beforehand or from an earlier command: no command is added. */
  lemma ResamplePlanSkip(effects: seq<EffectParams>, i: nat, rate: int, name: string -> string,
                         files: set<string>)
    requires i < |effects|
    requires effects[i].file in CacheMap(effects[..i], name) ||
             name(effects[i].file) in files + CacheMap(effects[..i], name).Values
    ensures ResamplePlan(effects[..i + 1], rate, name, files) == ResamplePlan(effects[..i], rate, name, files)
  {
    assert effects[..i + 1][..i] == effects[..i];
  }

  /** One more effect whose file was not seen and whose target does not
      exist: its resample command is added. */
  lemma ResamplePlanAdd(effects: seq<EffectParams>, i: nat, rate: int, name: string -> string,
                        files: set<string>)
    requires i < |effects|
    requires effects[i].file !in CacheMap(effects[..i], name)
    requires name(effects[i].file) !in files + CacheMap(effects[..i], name).Values
    ensures ResamplePlan(effects[..i + 1], rate, name, files) ==
              ResamplePlan(effects[..i], rate, name, files) +
              [Call.Sox(ResampleTokens(effects[i].file, rate, name(effects[i].file)), name(effects[i].file))]
  {
    assert effects[..i + 1][..i] == effects[..i];
  }

  /** One more effect extends the map by its file. */
  lemma CacheMapStep(effects: seq<EffectParams>, i: nat, name: string -> string)
    requires i < |effects|
    ensures CacheMap(effects[..i + 1], name) == CacheMap(effects[..i], name)[effects[i].file := name(effects[i].file)]
    ensures effects[i].file in CacheMap(effects[..i], name) ==>
              CacheMap(effects[..i + 1], name) == CacheMap(effects[..i], name)
  {
    assert effects[..i + 1][..i] == effects[..i];
    CacheMapSpec(effects[..i], name);
  }

  /** A resample command: it reads one of the effect files and writes that
      file's resampled path, which did not exist beforehand. */
  predicate IsResampleCall(c: Call, effects: seq<EffectParams>, rate: int, name: string -> string,
                           files: set<string>)
  {
    && c.Sox?
    && |c.tokens| == 5
    && c.tokens[1] in EffectFiles(effects)
    && c.output == name(c.tokens[1])
    && c.tokens == ResampleTokens(c.tokens[1], rate, c.output)
    && c.output !in files
  }

  /** Which commands the plan holds: resample commands only. */
  lemma {:induction false} ResamplePlanCalls(effects: seq<EffectParams>, rate: int,
                                              name: string -> string, files: set<string>)
    ensures forall k :: 0 <= k < |ResamplePlan(effects, rate, name, files)| ==>
              IsResampleCall(ResamplePlan(effects, rate, name, files)[k], effects, rate, name, files)
    decreases |effects|
  {
    if effects != [] {
      var n := |effects| - 1;
      var x := effects[n];
      var pre := effects[..n];
      assert effects == pre + [x];
      ResamplePlanCalls(pre, rate, name, files);
      EffectFilesSnoc(pre, x);
      var calls := ResamplePlan(pre, rate, name, files);
      var plan := ResamplePlan(effects, rate, name, files);
      forall k | 0 <= k < |plan| ensures IsResampleCall(plan[k], effects, rate, name, files) {
        if k < |calls| {
          assert plan[k] == calls[k];
          assert IsResampleCall(calls[k], pre, rate, name, files);
        } else {
          assert plan[k] == Call.Sox(ResampleTokens(x.file, rate, name(x.file)), name(x.file));
        }
      }
    }
  }

  /** Each resampled path is written at most once. */
  lemma {:induction false} ResamplePlanDistinct(effects: seq<EffectParams>, rate: int,
                                                 name: string -> string, files: set<string>)
    ensures forall j, k :: 0 <= j < k < |ResamplePlan(effects, rate, name, files)| ==>
              ResamplePlan(effects, rate, name, files)[j].Sox? &&
              ResamplePlan(effects, rate, name, files)[k].Sox? &&
              ResamplePlan(effects, rate, name, files)[j].output != ResamplePlan(effects, rate, name, files)[k].output
    decreases |effects|
  {
    ResamplePlanCalls(effects, rate, name, files);
    if effects != [] {
      var n := |effects| - 1;
      var pre := effects[..n];
      ResamplePlanDistinct(pre, rate, name, files);
      ResamplePlanCalls(pre, rate, name, files);
      CacheMapSpec(pre, name);
      var calls := ResamplePlan(pre, rate, name, files);
      var plan := ResamplePlan(effects, rate, name, files);
      var m := CacheMap(pre, name);
      forall j | 0 <= j < |calls| ensures calls[j].Sox? && calls[j].output in m.Values {
        assert IsResampleCall(calls[j], pre, rate, name, files);
        assert m[calls[j].tokens[1]] == calls[j].output;
      }
      forall j, k | 0 <= j < k < |plan| ensures plan[j].output != plan[k].output {
        assert plan[j] == calls[j];
        if k < |calls| {
          assert plan[k] == calls[k];
        }
      }
    }
  }

  /** Every command of the plan writes a value of the map. */
  lemma ResamplePlanWritesMap(effects: seq<EffectParams>, rate: int, name: string -> string,
                              files: set<string>)
    ensures forall k :: 0 <= k < |ResamplePlan(effects, rate, name, files)| ==>
              ResamplePlan(effects, rate, name, files)[k].Sox? &&
              ResamplePlan(effects, rate, name, files)[k].output in CacheMap(effects, name).Values
  {
    ResamplePlanCalls(effects, rate, name, files);
    CacheMapSpec(effects, name);
    var plan := ResamplePlan(effects, rate, name, files);
    var m := CacheMap(effects, name);
    forall k | 0 <= k < |plan| ensures plan[k].Sox? && plan[k].output in m.Values {
      assert IsResampleCall(plan[k], effects, rate, name, files);
      assert m[plan[k].tokens[1]] == plan[k].output;
    }
  }

  /** When every resampled path already exists, no command is issued. */
  lemma {:induction false} ResampleNothingWhenCached(effects: seq<EffectParams>, rate: int,
                                                      name: string -> string, files: set<string>)
    requires CacheMap(effects, name).Values <= files
    ensures ResamplePlan(effects, rate, name, files) == []
    decreases |effects|
  {
    if effects != [] {
      var n := |effects| - 1;
      var x := effects[n];
      CacheMapPrefixValues(effects, n, name);
      ResampleNothingWhenCached(effects[..n], rate, name, files);
      CacheMapSpec(effects, name);
      CacheMapCovers(effects, name, n);
      assert name(x.file) in CacheMap(effects, name).Values;
    }
  }

  /** A second call with the same effects and rate, after a first that
      succeeded, issues no command. */
  lemma ResampleIdempotent(effects: seq<EffectParams>, rate: int, name: string -> string, files: set<string>)
    ensures ResamplePlan(effects, rate, name, files + CacheMap(effects, name).Values) == []
  {
    ResampleNothingWhenCached(effects, rate, name, files + CacheMap(effects, name).Values);
  }

  /** Distinct files with the same stem share one resampled path. */
  lemma SameStemSamePath(dir: string, f: string, g: string, rate: int)
    requires SplitExt(Basename(f)).0 == SplitExt(Basename(g)).0
    ensures CachePath(dir, f, rate) == CachePath(dir, g, rate)
  {
  }

  /** Every effect's file is a key of the map, so a lookup never misses. */
  lemma CacheMapCovers(effects: seq<EffectParams>, name: string -> string, k: nat)
    requires k < |effects|
    ensures effects[k].file in CacheMap(effects, name)
  {
    CacheMapSpec(effects, name);
  }

  lemma ValuesUpdate(m: map<string, string>, k: string, v: string)
    requires k !in m
    ensures m[k := v].Values == m.Values + {v}
  {
    var u := m[k := v];
    forall w | w in m.Values ensures w in u.Values {
      var j :| j in m && m[j] == w;
      assert u[j] == w;
    }
    assert u[k] == v;
  }

  /** The resample command of effect `i` fails after the earlier commands
      succeeded: the commands issued end with it, and what exists lies
      between the old files and the resampled paths. */
  lemma ResampleStopsAt(fails: seq<string> -> bool, effects: seq<EffectParams>, i: nat, rate: int,
                        name: string -> string, files: set<string>, call: Call)
    requires i < |effects|
    requires Succeeds(fails, ResamplePlan(effects[..i], rate, name, files)) && Fails(fails, call)
    requires ResamplePlan(effects[..i + 1], rate, name, files) == ResamplePlan(effects[..i], rate, name, files) + [call]
    ensures Issued(fails, ResamplePlan(effects, rate, name, files)) == ResamplePlan(effects[..i], rate, name, files) + [call]
    ensures !Succeeds(fails, ResamplePlan(effects, rate, name, files))
    ensures CacheMap(effects[..i], name).Values <= CacheMap(effects, name).Values
  {
    ResamplePlanPrefix(effects, i + 1, rate, name, files);
    IssuedStopsAt(fails, ResamplePlan(effects, rate, name, files), ResamplePlan(effects[..i], rate, name, files), call);
    CacheMapPrefixValues(effects, i, name);
  }

  /** One resample step: the command that writes `target` runs only when
      `target` does not exist yet; a failing command raises. */
  method EnsureResampled(e: Engine, file: string, rate: int, target: string) returns (ok: bool)
    modifies e
    ensures var call := Call.Sox(ResampleTokens(file, rate, target), target);
            if target in old(e.files) then
              ok && e.log == old(e.log) && e.files == old(e.files)
            else
              && ok == !Fails(e.fails, call)
              && e.log == old(e.log) + [call]
              && e.files == if ok then old(e.files) + {target} else old(e.files)
  {
    ok := true;
    if !e.Exists(target) {
      ok := e.Sox(["sox", file, "-r", Decimal(rate), target], target);
    }
  }

  /** The state of the resample loop after the first `i` effects: the map
      so far, the commands of the plan so far all issued and all
      succeeded, and their targets added to the files, which are also
      exactly what those commands wrote. */
  ghost predicate Reached(fails: seq<string> -> bool, effects: seq<EffectParams>, rate: int,
                          name: string -> string, files0: set<string>, log0: seq<Call>,
                          i: nat, fileMap: map<string, string>, log: seq<Call>, files: set<string>)
  {
    && i <= |effects|
    && fileMap == CacheMap(effects[..i], name)
    && log == log0 + ResamplePlan(effects[..i], rate, name, files0)
    && Succeeds(fails, ResamplePlan(effects[..i], rate, name, files0))
    && files == files0 + fileMap.Values
    && files == files0 + Written(fails, ResamplePlan(effects[..i], rate, name, files0))
  }

  lemma ReachedStart(fails: seq<string> -> bool, effects: seq<EffectParams>, rate: int,
                     name: string -> string, files0: set<string>, log0: seq<Call>)
    ensures Reached(fails, effects, rate, name, files0, log0, 0, map[], log0, files0)
  {
    assert effects[..0] == [];
    assert log0 + [] == log0;
  }

  /** An effect whose file is already mapped changes nothing. */
  lemma ReachedSeen(fails: seq<string> -> bool, effects: seq<EffectParams>, rate: int,
                    name: string -> string, files0: set<string>, log0: seq<Call>,
                    i: nat, fileMap: map<string, string>, log: seq<Call>, files: set<string>)
    requires i < |effects| && Reached(fails, effects, rate, name, files0, log0, i, fileMap, log, files)
    requires effects[i].file in fileMap
    ensures Reached(fails, effects, rate, name, files0, log0, i + 1, fileMap, log, files)
  {
    CacheMapStep(effects, i, name);
    ResamplePlanSkip(effects, i, rate, name, files0);
  }

  /** A new file whose target exists already: mapped without a command. */
  lemma ReachedExisting(fails: seq<string> -> bool, effects: seq<EffectParams>, rate: int,
                        name: string -> string, files0: set<string>, log0: seq<Call>,
                        i: nat, fileMap: map<string, string>, log: seq<Call>, files: set<string>)
    requires i < |effects| && Reached(fails, effects, rate, name, files0, log0, i, fileMap, log, files)
    requires effects[i].file !in fileMap && name(effects[i].file) in files
    ensures Reached(fails, effects, rate, name, files0, log0, i + 1,
                    fileMap[effects[i].file := name(effects[i].file)], log, files)
  {
    CacheMapStep(effects, i, name);
    ResamplePlanSkip(effects, i, rate, name, files0);
    ValuesUpdate(fileMap, effects[i].file, name(effects[i].file));
  }

  /** A new file whose target is absent and whose command succeeds. */
  lemma ReachedResampled(fails: seq<string> -> bool, effects: seq<EffectParams>, rate: int,
                         name: string -> string, files0: set<string>, log0: seq<Call>,
                         i: nat, fileMap: map<string, string>, log: seq<Call>, files: set<string>)
    requires i < |effects| && Reached(fails, effects, rate, name, files0, log0, i, fileMap, log, files)
    requires effects[i].file !in fileMap && name(effects[i].file) !in files
    requires !Fails(fails, Call.Sox(ResampleTokens(effects[i].file, rate, name(effects[i].file)), name(effects[i].file)))
    ensures Reached(fails, effects, rate, name, files0, log0, i + 1,
                    fileMap[effects[i].file := name(effects[i].file)],
                    log + [Call.Sox(ResampleTokens(effects[i].file, rate, name(effects[i].file)), name(effects[i].file))],
                    files + {name(effects[i].file)})
  {
    var f := effects[i].file;
    var call := Call.Sox(ResampleTokens(f, rate, name(f)), name(f));
    var before := ResamplePlan(effects[..i], rate, name, files0);
    CacheMapStep(effects, i, name);
    ResamplePlanAdd(effects, i, rate, name, files0);
    ValuesUpdate(fileMap, f, name(f));
    SucceedsSnoc(fails, before, call);
    WrittenSnoc(fails, before, call);
    assert log + [call] == log0 + (before + [call]);
  }

  /** A new file whose target is absent and whose command fails: the loop
      raises, having issued the plan up to that command. */
  lemma ReachedFails(fails: seq<string> -> bool, effects: seq<EffectParams>, rate: int,
                     name: string -> string, files0: set<string>, log0: seq<Call>,
                     i: nat, fileMap: map<string, string>, log: seq<Call>, files: set<string>)
    requires i < |effects| && Reached(fails, effects, rate, name, files0, log0, i, fileMap, log, files)
    requires effects[i].file !in fileMap && name(effects[i].file) !in files
    requires Fails(fails, Call.Sox(ResampleTokens(effects[i].file, rate, name(effects[i].file)), name(effects[i].file)))
    ensures log + [Call.Sox(ResampleTokens(effects[i].file, rate, name(effects[i].file)), name(effects[i].file))]
              == log0 + Issued(fails, ResamplePlan(effects, rate, name, files0))
    ensures !Succeeds(fails, ResamplePlan(effects, rate, name, files0))
    ensures files0 <= files <= files0 + CacheMap(effects, name).Values
    ensures files == files0 + Written(fails, Issued(fails, ResamplePlan(effects, rate, name, files0)))
    ensures var issued := Issued(fails, ResamplePlan(effects, rate, name, files0));
            issued[|issued| - 1].tokens == ResampleTokens(effects[i].file, rate, name(effects[i].file))
  {
    var f := effects[i].file;
    var call := Call.Sox(ResampleTokens(f, rate, name(f)), name(f));
    var before := ResamplePlan(effects[..i], rate, name, files0);
    ResamplePlanAdd(effects, i, rate, name, files0);
    ResampleStopsAt(fails, effects, i, rate, name, files0, call);
    WrittenSnoc(fails, before, call);
    assert log + [call] == log0 + (before + [call]);
  }

  /** After the last effect the map is complete and the whole plan ran. */
  lemma ReachedEnd(fails: seq<string> -> bool, effects: seq<EffectParams>, rate: int,
                   name: string -> string, files0: set<string>, log0: seq<Call>,
                   fileMap: map<string, string>, log: seq<Call>, files: set<string>)
    requires Reached(fails, effects, rate, name, files0, log0, |effects|, fileMap, log, files)
    ensures fileMap == CacheMap(effects, name)
    ensures Succeeds(fails, ResamplePlan(effects, rate, name, files0))
    ensures log == log0 + Issued(fails, ResamplePlan(effects, rate, name, files0))
    ensures files == files0 + fileMap.Values
  {
    assert effects[..|effects|] == effects;
  }

  /** `resample_effects`: walks the effects in order, skipping files already
      mapped, runs the resample command only for a target that does not
      exist, and maps each file to its target. The commands issued are the
      plan up to its first failure, and a failure leaves exactly the files
      the commands before it wrote. */
  method ResampleEffects(e: Engine, effects: seq<EffectParams>, rate: int, dir: string)
    returns (r: Result<map<string, string>, seq<string>>)
    modifies e
    ensures var name := CacheNaming(dir, rate);
            var plan := ResamplePlan(effects, rate, name, old(e.files));
            && e.log == old(e.log) + Issued(e.fails, plan)
            && (r.Success? <==> Succeeds(e.fails, plan))
            && (r.Success? ==> r.value == CacheMap(effects, name)
                                && e.files == old(e.files) + r.value.Values)
            && (r.Failure? ==> old(e.files) <= e.files <= old(e.files) + CacheMap(effects, name).Values)
            && (r.Failure? ==> e.files == old(e.files) + Written(e.fails, Issued(e.fails, plan)))
            && (r.Failure? ==> r.error == Issued(e.fails, plan)[|Issued(e.fails, plan)| - 1].tokens)
  {
    r := ResampleWith(e, effects, rate, CacheNaming(dir, rate));
  }

  /** The loop of `resample_effects` for a given way of naming the
      resampled file of an effect file. */
  method ResampleWith(e: Engine, effects: seq<EffectParams>, rate: int, name: string -> string)
    returns (r: Result<map<string, string>, seq<string>>)
    modifies e
    ensures var plan := ResamplePlan(effects, rate, name, old(e.files));
            && e.log == old(e.log) + Issued(e.fails, plan)
            && (r.Success? <==> Succeeds(e.fails, plan))
            && (r.Success? ==> r.value == CacheMap(effects, name)
                                && e.files == old(e.files) + r.value.Values)
            && (r.Failure? ==> old(e.files) <= e.files <= old(e.files) + CacheMap(effects, name).Values)
            && (r.Failure? ==> e.files == old(e.files) + Written(e.fails, Issued(e.fails, plan)))
            && (r.Failure? ==> r.error == Issued(e.fails, plan)[|Issued(e.fails, plan)| - 1].tokens)
  {
    ghost var files0 := e.files;
    ghost var log0 := e.log;
    var fileMap: map<string, string> := map[];
    var i := 0;
    ReachedStart(e.fails, effects, rate, name, files0, log0);
    while i < |effects|
      invariant Reached(e.fails, effects, rate, name, files0, log0, i, fileMap, e.log, e.files)
    {
      var file := effects[i].file;
      if file in fileMap {
        ReachedSeen(e.fails, effects, rate, name, files0, log0, i, fileMap, e.log, e.files);
      } else {
        var target := name(file);
        ghost var log1, files1 := e.log, e.files;
        var ok := EnsureResampled(e, file, rate, target);
        if !ok {
          ReachedFails(e.fails, effects, rate, name, files0, log0, i, fileMap, log1, files1);
          return Failure(ResampleTokens(file, rate, target));
        }
        if target in files1 {
          ReachedExisting(e.fails, effects, rate, name, files0, log0, i, fileMap, log1, files1);
        } else {
          ReachedResampled(e.fails, effects, rate, name, files0, log0, i, fileMap, log1, files1);
        }
        fileMap := fileMap[file := target];
      }
      i := i + 1;
    }
    ReachedEnd(e.fails, effects, rate, name, files0, log0, fileMap, e.log, e.files);
    r := Success(fileMap);
  }

  // ---------------------------------------------------------------------
  // Overlaying one effect

  /** `int(effect_repeat.value)`: an int is kept, a float truncated toward
      zero, and an absent value raises. */
  function RepeatCount(v: Option<Number>): Option<int>
  {
    match v
    case None => None
    case Some(IntValue(i)) => Some(i)
    case Some(FloatValue(x)) => Some(Trunc(x))
  }

  /** Only a count repeat is rendered before the overlay. */
  predicate PreRenders(repeat: Option<Repeat>)
  {
    repeat.Some? && repeat.value.mode == Times
  }

  /** `sox IN TMP repeat N-1`: N plays in all. */
  function RepeatTokens(src: string, dst: string, count: int): seq<string>
  {
    ["sox", src, dst, "repeat", Decimal(count - 1)]
  }

  /** `sox IN TMP pad OFFSET gain G`, the gain always signed. */
  function PadTokens(c: Conversions, src: string, dst: string, offset: real, gain: real): seq<string>
  {
    ["sox", src, dst, "pad", c.show(offset), "gain", c.showSignedG(gain)]
  }

  /** `sox -m BASE EFFECT OUT`, base track first. */
  function MixTokens(base: string, effect: string, output: string): seq<string>
  {
    ["sox", "-m", base, effect, output]
  }

  /** The pad-and-mix commands of the `try` block: pad and gain `src` into
      `padTemp`, then mix the base track with it into `output`. */
  function PadMixPlan(c: Conversions, base: string, src: string, gain: real, offset: real,
                      padTemp: string, output: string): seq<Call>
  {
    [Call.Sox(PadTokens(c, src, padTemp, offset, gain), padTemp),
     Call.Sox(MixTokens(base, padTemp, output), output)]
  }

  /** The overlay commands when every one succeeds: an optional repeat
      render into `repeatTemp`, then the pad and mix, the pad reading the
      render when there is one. */
  function OverlayPlan(c: Conversions, base: string, effectAudio: string, gain: real, offset: real,
                       count: Option<int>, repeatTemp: string, padTemp: string, output: string): seq<Call>
  {
    (if count.Some? then [Call.Sox(RepeatTokens(effectAudio, repeatTemp, count.value), repeatTemp)] else [])
    + PadMixPlan(c, base, if count.Some? then repeatTemp else effectAudio, gain, offset, padTemp, output)
  }

  /** The command sequence: three commands exactly for a count repeat,
      whose first renders `count` plays; otherwise the pad reads the effect
      itself; the mix always comes last and reads the padded temp. */
  lemma OverlayPlanShape(c: Conversions, base: string, effectAudio: string, gain: real, offset: real,
                         count: Option<int>, repeatTemp: string, padTemp: string, output: string)
    ensures var plan := OverlayPlan(c, base, effectAudio, gain, offset, count, repeatTemp, padTemp, output);
            && (|plan| == 3 <==> count.Some?) && (|plan| == 2 <==> count.None?)
            && (count.Some? ==> plan[0].tokens[4] == Decimal(count.value - 1) && plan[1].tokens[1] == repeatTemp)
            && (count.None? ==> plan[0].tokens[1] == effectAudio)
            && plan[|plan| - 1] == Call.Sox(["sox", "-m", base, padTemp, output], output)
            && plan[|plan| - 2].output == padTemp
  {
  }

  /** How an overlay ends: both mixes done, a command that exited non-zero,
      or a count repeat without a value (`int(None)` raises). */
  datatype Outcome = Done | CommandFailed(tokens: seq<string>) | NoRepeatCount

  /** The temporary pad file and the `try`/`finally` around the pad and the
      mix: the padded temp is removed on every path, so on success only the
      output is new and on failure nothing is. This is the whole of the
      repeat-less `overlay_effect` of the entry script. */
  method PadAndMix(c: Conversions, e: Engine, base: string, src: string, gain: real,
                   offset: real, output: string)
    returns (r: Outcome, padTemp: string)
    modifies e
    ensures IsTempPath(padTemp) && padTemp !in old(e.files)
    ensures var plan := PadMixPlan(c, base, src, gain, offset, padTemp, output);
            && e.log == old(e.log) + Issued(e.fails, plan)
            && (r == Done <==> Succeeds(e.fails, plan))
            && (r != Done ==> r == CommandFailed(Issued(e.fails, plan)[|Issued(e.fails, plan)| - 1].tokens))
            && (r == Done ==> e.files == (old(e.files) + {output}) - {padTemp})
            && (r != Done ==> e.files == old(e.files))
  {
    padTemp := e.NamedTemp();
    var padCmd := ["sox", src, padTemp, "pad", c.show(offset), "gain", c.showSignedG(gain)];
    r := Done;
    var ok := e.Sox(padCmd, padTemp);
    if !ok {
      r := CommandFailed(padCmd);
    } else {
      var mixCmd := ["sox", "-m", base, padTemp, output];
      ok := e.Sox(mixCmd, output);
      if !ok {
        r := CommandFailed(mixCmd);
      }
    }
    // finally
    if e.Exists(padTemp) {
      var _ := e.Remove(padTemp);
    }
  }

  /** The repeat render before the `try`: a fresh temporary file, then the
      `sox … repeat N-1` command writing it. The temporary file exists
      afterwards whether the command succeeds or not. */
  method RenderRepeat(e: Engine, effectAudio: string, count: int) returns (ok: bool, repeatTemp: string)
    modifies e
    ensures IsTempPath(repeatTemp) && repeatTemp !in old(e.files)
    ensures var rc := Call.Sox(RepeatTokens(effectAudio, repeatTemp, count), repeatTemp);
            && ok == !Fails(e.fails, rc)
            && e.log == old(e.log) + [rc]
    ensures e.files == old(e.files) + {repeatTemp}
  {
    repeatTemp := e.NamedTemp();
    ok := e.Sox(["sox", effectAudio, repeatTemp, "repeat", Decimal(count - 1)], repeatTemp);
  }

  /** The number of plays `overlay_effect` renders up front: only for a
      count repeat, and absent when there is none (or it has no value). */
  function RenderCount(repeat: Option<Repeat>): Option<int>
  {
    if PreRenders(repeat) then RepeatCount(repeat.value.value) else None
  }

  /** `overlay_effect` with a repeat. The repeat render happens before the
      `try`, so when it fails its temporary file is left behind. */
  method OverlayEffect(c: Conversions, e: Engine, base: string, effectAudio: string, gain: real,
                       offset: real, repeat: Option<Repeat>, output: string)
    returns (r: Outcome, repeatTemp: string, padTemp: string)
    modifies e
    ensures r == NoRepeatCount <==> PreRenders(repeat) && RenderCount(repeat).None?
    ensures r == NoRepeatCount ==> e.log == old(e.log) && e.files == old(e.files)
    ensures r != NoRepeatCount ==>
              var count := RenderCount(repeat);
              var plan := OverlayPlan(c, base, effectAudio, gain, offset, count, repeatTemp, padTemp, output);
              var issued := Issued(e.fails, plan);
              && e.log == old(e.log) + issued
              && (r == Done <==> Succeeds(e.fails, plan))
              && (r != Done ==> r == CommandFailed(issued[|issued| - 1].tokens))
              && (count.Some? ==> IsTempPath(repeatTemp) && repeatTemp !in old(e.files))
              && (r == Done ==> e.files == (old(e.files) + {output}) - ({padTemp} + if count.Some? then {repeatTemp} else {}))
              && (r.CommandFailed? && count.Some? && |issued| == 1 ==> e.files == old(e.files) + {repeatTemp})
              && (r.CommandFailed? && (count.None? || |issued| > 1) ==> e.files == old(e.files))
  {
    var count := RenderCount(repeat);
    if PreRenders(repeat) && count.None? {
      return NoRepeatCount, "", "";
    }
    var effectPath := effectAudio;
    repeatTemp := "";
    if count.Some? {
      var ok;
      ok, repeatTemp := RenderRepeat(e, effectAudio, count.value);
      if !ok {
        return CommandFailed(RepeatTokens(effectAudio, repeatTemp, count.value)), repeatTemp, "";
      }
      effectPath := repeatTemp;
    }
    ghost var files1 := e.files;
    r, padTemp := PadAndMix(c, e, base, effectPath, gain, offset, output);
    ghost var pm := PadMixPlan(c, base, effectPath, gain, offset, padTemp, output);
    ghost var plan := OverlayPlan(c, base, effectAudio, gain, offset, count, repeatTemp, padTemp, output);
    if count.Some? {
      ghost var rc := Call.Sox(RepeatTokens(effectAudio, repeatTemp, count.value), repeatTemp);
      assert plan == [rc] + pm;
      IssuedAppend(e.fails, [rc], pm);
      SucceedsAppend(e.fails, [rc], pm);
      // finally, second half
      if e.Exists(repeatTemp) {
        var _ := e.Remove(repeatTemp);
      }
    } else {
      assert plan == pm;
    }
  }

  /** A concrete run of `OverlayEffect` in which every sox command fails: the
      count repeat's render fails, the overlay raises, and its temporary file
      remains among the files afterwards. The same run of
      `OverlayEffectReleasing` leaves no file behind. */
  method RepeatTempLeaks(c: Conversions) returns (r: Outcome, leaked: string, files: set<string>,
                                                  releasedFiles: set<string>)
    ensures r.CommandFailed?
    ensures IsTempPath(leaked) && leaked in files
    ensures releasedFiles == {}
  {
    var repeat := Some(Repeat(Times, Some(IntValue(3))));
    assert RenderCount(repeat) == Some(3);
    var e := new Engine({}, (tokens: seq<string>) => true, (tokens: seq<string>) => "");
    var repeatTemp, padTemp;
    r, repeatTemp, padTemp := OverlayEffect(c, e, "base.wav", "bell.wav", 0.0, 0.0, repeat, "out.wav");
    assert !Succeeds(e.fails, OverlayPlan(c, "base.wav", "bell.wav", 0.0, 0.0, Some(3), repeatTemp, padTemp, "out.wav"));
    leaked, files := repeatTemp, e.files;
    var e2 := new Engine({}, (tokens: seq<string>) => true, (tokens: seq<string>) => "");
    var r2, repeatTemp2, padTemp2 := OverlayEffectReleasing(c, e2, "base.wav", "bell.wav", 0.0, 0.0, repeat, "out.wav");
    assert !Succeeds(e2.fails, OverlayPlan(c, "base.wav", "bell.wav", 0.0, 0.0, Some(3), repeatTemp2, padTemp2, "out.wav"));
    releasedFiles := e2.files;
  }

  /** `overlay_effect` with the repeat render inside the `try`, so that the
      `finally` releases the render's temporary file on every path: a
      failing overlay leaves exactly the files that existed before. */
  method OverlayEffectReleasing(c: Conversions, e: Engine, base: string, effectAudio: string, gain: real,
                                offset: real, repeat: Option<Repeat>, output: string)
    returns (r: Outcome, repeatTemp: string, padTemp: string)
    modifies e
    ensures r == NoRepeatCount <==> PreRenders(repeat) && RenderCount(repeat).None?
    ensures r == NoRepeatCount ==> e.log == old(e.log) && e.files == old(e.files)
    ensures r != NoRepeatCount ==>
              var count := RenderCount(repeat);
              var plan := OverlayPlan(c, base, effectAudio, gain, offset, count, repeatTemp, padTemp, output);
              var issued := Issued(e.fails, plan);
              && e.log == old(e.log) + issued
              && (r == Done <==> Succeeds(e.fails, plan))
              && (r != Done ==> r == CommandFailed(issued[|issued| - 1].tokens))
              && (r == Done ==> e.files == (old(e.files) + {output}) - ({padTemp} + if count.Some? then {repeatTemp} else {}))
              && (r.CommandFailed? ==> e.files == old(e.files))
  {
    var count := RenderCount(repeat);
    if PreRenders(repeat) && count.None? {
      return NoRepeatCount, "", "";
    }
    var effectPath := effectAudio;
    repeatTemp := "";
    if count.Some? {
      var ok;
      ok, repeatTemp := RenderRepeat(e, effectAudio, count.value);
      if !ok {
        // finally: the render's temporary file exists and is released
        var _ := e.Remove(repeatTemp);
        return CommandFailed(RepeatTokens(effectAudio, repeatTemp, count.value)), repeatTemp, "";
      }
      effectPath := repeatTemp;
    }
    r, padTemp := PadAndMix(c, e, base, effectPath, gain, offset, output);
    ghost var pm := PadMixPlan(c, base, effectPath, gain, offset, padTemp, output);
    ghost var plan := OverlayPlan(c, base, effectAudio, gain, offset, count, repeatTemp, padTemp, output);
    if count.Some? {
      ghost var rc := Call.Sox(RepeatTokens(effectAudio, repeatTemp, count.value), repeatTemp);
      assert plan == [rc] + pm;
      IssuedAppend(e.fails, [rc], pm);
      SucceedsAppend(e.fails, [rc], pm);
      if e.Exists(repeatTemp) {
        var _ := e.Remove(repeatTemp);
      }
    } else {
      assert plan == pm;
    }
  }
}
