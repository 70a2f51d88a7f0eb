/** The text plots: the table of effects ordered by offset, and the sweep of
    a binaural beat as sampled frequencies with one bar per sample. Floats
    are modelled as reals; what is printed is modelled as the rows and bars
    the plots are made of, not as formatted text. */
module Plot {
  import opened Wrappers
  import opened Text
  import opened Numbers
  import opened Params
  import Effects

  // ---------------------------------------------------------------------
  // The effects table

  /** `f"{value}"` of a repeat value: an int prints in decimal, a float as
      `str()` prints it, a missing value as "None". */
  function ShowValue(c: Conversions, v: Option<Number>): string
  {
    match v
    case None => "None"
    case Some(IntValue(n)) => Decimal(n)
    case Some(FloatValue(x)) => c.show(x)
  }

  /** `format_repeat`: no repeat plays once, "1x"; a count ends in 'x', a
      duration in 's', and endless repetition reads "infinite". The
      fallback "-" is never produced: every mode has its own case. */
  function FormatRepeat(c: Conversions, repeat: Option<Repeat>): (r: string)
    ensures repeat.None? ==> r == "1x"
    ensures EndsWith(r, "x") <==> repeat.None? || repeat.value.mode == Times
    ensures EndsWith(r, "s") <==> repeat.Some? && repeat.value.mode == Duration
    ensures r == "infinite" <==> repeat.Some? && repeat.value.mode == Endless
    ensures r != "-"
  {
    match repeat
    case None => "1x"
    case Some(rep) =>
      match rep.mode
      case Times => ShowValue(c, rep.value) + "x"
      case Duration => ShowValue(c, rep.value) + "s"
      case Endless => "infinite"
  }

  /** Not repeating prints the same as repeating once. */
  lemma NoRepeatShowsAsOnce(c: Conversions)
    ensures FormatRepeat(c, None) == FormatRepeat(c, Some(Repeat(Times, Some(IntValue(1)))))
  {
    assert Decimal(1) == "1";
  }

  /** A count the parser accepted prints as text the parser reads back as
      the same count, given that `int()` reads `str()` of the count. */
  lemma CountRoundTrip(c: Conversions, n: int)
    requires n > 0 && c.parseInt(Decimal(n)) == Some(n)
    ensures Effects.DecodeRepeat(c, FormatRepeat(c, Some(Repeat(Times, Some(IntValue(n)))))) ==
            Success(Repeat(Times, Some(IntValue(n))))
  {
    var text := Decimal(n) + "x";
    assert text[..|text| - 1] == Decimal(n);
    assert text[|text| - 1..] == "x";
  }

  /** A duration the parser accepted prints as text the parser reads back
      as the same duration, given that `float()` reads `str()` of it. */
  lemma DurationRoundTrip(c: Conversions, x: real)
    requires x > 0.0 && c.parseFloat(c.show(x)) == Some(x)
    ensures Effects.DecodeRepeat(c, FormatRepeat(c, Some(Repeat(Duration, Some(FloatValue(x)))))) ==
            Success(Repeat(Duration, Some(FloatValue(x))))
  {
    var text := c.show(x) + "s";
    assert text[..|text| - 1] == c.show(x);
    assert text[|text| - 1..] == "s";
    assert text[|text| - 1] != 'x';
  }

  /** Endless repetition is entered as "inf" but shown as "infinite", which
      the parser rejects. */
  lemma EndlessIsNotReparsed(c: Conversions)
    ensures Effects.DecodeRepeat(c, "inf") == Success(Repeat(Endless, None))
    ensures Effects.DecodeRepeat(c, FormatRepeat(c, Some(Repeat(Endless, None)))) ==
            Failure(BadRepeatValue("infinite"))
  {
    assert "inf"[2] == 'f';
    assert "infinite"[7] == 'e';
  }

  predicate OffsetSorted(s: seq<EffectParams>)
  {
    forall i, j :: 0 <= i < j < |s| ==> s[i].offset <= s[j].offset
  }

  /** Places `x` after every element of `s` whose offset is not larger. */
  function InsertByOffset(s: seq<EffectParams>, x: EffectParams): (r: seq<EffectParams>)
    ensures |r| == |s| + 1
    ensures multiset(r) == multiset(s) + multiset{x}
    decreases |s|
  {
    if s == [] || s[|s| - 1].offset <= x.offset then s + [x]
    else
      assert s == s[..|s| - 1] + [s[|s| - 1]];
      InsertByOffset(s[..|s| - 1], x) + [s[|s| - 1]]
  }

  /** `sorted(effects, key=offset)`: a new list, by insertion. */
  function SortByOffset(s: seq<EffectParams>): (r: seq<EffectParams>)
    ensures |r| == |s|
    ensures multiset(r) == multiset(s)
    decreases |s|
  {
    if s == [] then []
    else
      assert s == s[..|s| - 1] + [s[|s| - 1]];
      InsertByOffset(SortByOffset(s[..|s| - 1]), s[|s| - 1])
  }

  /** The effects with offset `v`, in their order. */
  function WithOffset(s: seq<EffectParams>, v: real): seq<EffectParams>
    decreases |s|
  {
    if s == [] then []
    else WithOffset(s[..|s| - 1], v) + (if s[|s| - 1].offset == v then [s[|s| - 1]] else [])
  }

  lemma {:induction false} WithOffsetAppend(a: seq<EffectParams>, b: seq<EffectParams>, v: real)
    ensures WithOffset(a + b, v) == WithOffset(a, v) + WithOffset(b, v)
    decreases |b|
  {
    if b == [] {
      assert a + b == a;
    } else {
      var n := |b| - 1;
      assert (a + b)[..|a + b| - 1] == a + b[..n];
      WithOffsetAppend(a, b[..n], v);
    }
  }

  lemma {:induction false} InsertKeepsSorted(s: seq<EffectParams>, x: EffectParams)
    requires OffsetSorted(s)
    ensures OffsetSorted(InsertByOffset(s, x))
    decreases |s|
  {
    if s == [] || s[|s| - 1].offset <= x.offset {
    } else {
      var init := s[..|s| - 1];
      var last := s[|s| - 1];
      var front := InsertByOffset(init, x);
      InsertKeepsSorted(init, x);
      forall k | 0 <= k < |front|
        ensures front[k].offset <= last.offset
      {
        assert front[k] in multiset(front);
        assert front[k] in multiset(init) || front[k] == x;
        if front[k] != x {
          var m :| 0 <= m < |init| && init[m] == front[k];
          assert s[m] == init[m];
        }
      }
    }
  }

  lemma {:induction false} SortIsSorted(s: seq<EffectParams>)
    ensures OffsetSorted(SortByOffset(s))
    decreases |s|
  {
    if s != [] {
      SortIsSorted(s[..|s| - 1]);
      InsertKeepsSorted(SortByOffset(s[..|s| - 1]), s[|s| - 1]);
    }
  }

  lemma {:induction false} InsertStable(s: seq<EffectParams>, x: EffectParams, v: real)
    ensures WithOffset(InsertByOffset(s, x), v) == WithOffset(s, v) + (if x.offset == v then [x] else [])
    decreases |s|
  {
    if s == [] || s[|s| - 1].offset <= x.offset {
      WithOffsetAppend(s, [x], v);
      assert WithOffset([x], v) == WithOffset([], v) + (if x.offset == v then [x] else []);
    } else {
      InsertStable(s[..|s| - 1], x, v);
      InsertStableStep(s, x, v);
    }
  }

  /** The step of `InsertStable` where `x` goes before the last element. */
  lemma InsertStableStep(s: seq<EffectParams>, x: EffectParams, v: real)
    requires s != [] && s[|s| - 1].offset > x.offset
    requires WithOffset(InsertByOffset(s[..|s| - 1], x), v) ==
               WithOffset(s[..|s| - 1], v) + (if x.offset == v then [x] else [])
    ensures WithOffset(InsertByOffset(s, x), v) == WithOffset(s, v) + (if x.offset == v then [x] else [])
  {
    var init := s[..|s| - 1];
    var last := s[|s| - 1];
    var xs := if x.offset == v then [x] else [];
    var ls := if last.offset == v then [last] else [];
    assert InsertByOffset(s, x) == InsertByOffset(init, x) + [last];
    WithOffsetAppend(InsertByOffset(init, x), [last], v);
    assert WithOffset([last], v) == WithOffset([], v) + ls;
    assert WithOffset(s, v) == WithOffset(init, v) + ls;
    // `last` sorts after `x`, so at most one of them has offset `v`
    var a := WithOffset(init, v);
    if xs == [] {
      assert a + xs == a && (a + ls) + xs == a + ls;
    } else {
      assert ls == [];
      assert (a + xs) + ls == a + xs && a + ls == a;
    }
  }

  /** The sort is stable: the effects sharing an offset keep their order. */
  lemma {:induction false} SortIsStable(s: seq<EffectParams>, v: real)
    ensures WithOffset(SortByOffset(s), v) == WithOffset(s, v)
    decreases |s|
  {
    if s != [] {
      var init := s[..|s| - 1];
      SortIsStable(init, v);
      InsertStable(SortByOffset(init), s[|s| - 1], v);
    }
  }

  /** One printed row of the effects table. */
  datatype EffectRow = EffectRow(file: string, gain: real, offset: real, repeat: string)

  /** `plot_effects`: one row per effect, in ascending offset, effects with
      the same offset in input order. */
  function EffectsTable(c: Conversions, effects: seq<EffectParams>): (rows: seq<EffectRow>)
    ensures |rows| == |effects|
    ensures forall i, j :: 0 <= i < j < |rows| ==> rows[i].offset <= rows[j].offset
  {
    var sorted := SortByOffset(effects);
    SortIsSorted(effects);
    seq(|sorted|, k requires 0 <= k < |sorted| =>
      EffectRow(sorted[k].file, sorted[k].gain, sorted[k].offset, FormatRepeat(c, sorted[k].repeat)))
  }

  /** Each row shows an effect of the input, and each effect is shown as
      often as it occurs. */
  lemma TableShowsEveryEffect(c: Conversions, effects: seq<EffectParams>)
    ensures var sorted := SortByOffset(effects);
            && multiset(sorted) == multiset(effects)
            && forall k :: 0 <= k < |sorted| ==>
                 EffectsTable(c, effects)[k] ==
                 EffectRow(sorted[k].file, sorted[k].gain, sorted[k].offset, FormatRepeat(c, sorted[k].repeat))
  {
  }

  // ---------------------------------------------------------------------
  // The binaural sweep

  const BarLen: nat := 32

  function Min(a: real, b: real): real
  {
    if a <= b then a else b
  }

  function Max(a: real, b: real): real
  {
    if a <= b then b else a
  }

  /** `x * i / (steps - 1)`: the share of `x` reached after `i` of the
      `steps - 1` gaps between samples. */
  function Scaled(x: real, steps: int, i: int): real
    requires steps >= 2
  {
    x * (i as real) / ((steps - 1) as real)
  }

  /** No gap gives nothing, all gaps give the whole. */
  lemma ScaledEnds(x: real, steps: int)
    requires steps >= 2
    ensures Scaled(x, steps, 0) == 0.0
    ensures Scaled(x, steps, steps - 1) == x
  {
    var d := (steps - 1) as real;
    assert x * d / d == x;
  }

  /** More gaps give more of a non-negative whole, less of a non-positive
      one. */
  lemma ScaledMonotone(x: real, steps: int, i: int, j: int)
    requires steps >= 2 && i <= j
    ensures x >= 0.0 ==> Scaled(x, steps, i) <= Scaled(x, steps, j)
    ensures x <= 0.0 ==> Scaled(x, steps, i) >= Scaled(x, steps, j)
  {
    var d := (steps - 1) as real;
    MulMonotone(x, i, j);
    if x >= 0.0 {
      DivMonotone(x * (i as real), x * (j as real), d);
    }
    if x <= 0.0 {
      DivMonotone(x * (j as real), x * (i as real), d);
    }
  }

  /** Point `i` of `sweep_points`, for `steps` of at least two. */
  function SweepAt(start: real, end: real, steps: int, i: int): real
    requires steps >= 2
  {
    start + Scaled(end - start, steps, i)
  }

  /** `sweep_points`: `steps` values from `start` to `end`. With one step
      the division by `steps - 1` raises (None); with none the list is
      empty. */
  function SweepPoints(start: real, end: real, steps: int): (r: Option<seq<real>>)
    ensures r.None? <==> steps == 1
    ensures r.Some? ==> |r.value| == if steps < 0 then 0 else steps
  {
    if steps == 1 then None
    else if steps <= 0 then Some([])
    else Some(seq(steps, i requires 0 <= i < steps => SweepAt(start, end, steps, i)))
  }

  /** The sweep starts at `start` and ends exactly at `end`. */
  lemma SweepEndpoints(start: real, end: real, steps: int)
    requires steps >= 2
    ensures SweepPoints(start, end, steps).value[0] == start
    ensures SweepPoints(start, end, steps).value[steps - 1] == end
  {
    ScaledEnds(end - start, steps);
  }

  /** The sweep moves in one direction: up when `start <= end`, down
      otherwise. */
  lemma SweepMonotone(start: real, end: real, steps: int, i: int, j: int)
    requires steps >= 2 && 0 <= i <= j < steps
    ensures var p := SweepPoints(start, end, steps).value;
            && (start <= end ==> p[i] <= p[j])
            && (start >= end ==> p[i] >= p[j])
  {
    ScaledMonotone(end - start, steps, i, j);
  }

  /** Every sampled frequency lies between the two ends. */
  lemma SweepWithin(start: real, end: real, steps: int)
    requires steps >= 2
    ensures forall i :: 0 <= i < steps ==>
              Min(start, end) <= SweepPoints(start, end, steps).value[i] <= Max(start, end)
  {
    forall i | 0 <= i < steps
      ensures Min(start, end) <= SweepPoints(start, end, steps).value[i] <= Max(start, end)
    {
      SweepEndpoints(start, end, steps);
      SweepMonotone(start, end, steps, 0, i);
      SweepMonotone(start, end, steps, i, steps - 1);
    }
  }

  /** Time `i` of `time_points`, for `steps` of at least two. */
  function TimeAt(duration: real, steps: int, i: int): int
    requires steps >= 2
  {
    Trunc(Scaled(duration, steps, i))
  }

  /** `time_points`: the whole seconds at which the sweep is sampled. */
  function TimePoints(duration: real, steps: int): (r: Option<seq<int>>)
    ensures r.None? <==> steps == 1
    ensures r.Some? ==> |r.value| == if steps < 0 then 0 else steps
  {
    if steps == 1 then None
    else if steps <= 0 then Some([])
    else Some(seq(steps, i requires 0 <= i < steps => TimeAt(duration, steps, i)))
  }

  /** The sample times start at 0 and end at the duration truncated to
      whole seconds. */
  lemma TimePointsEnds(duration: real, steps: int)
    requires steps >= 2
    ensures TimePoints(duration, steps).value[0] == 0
    ensures TimePoints(duration, steps).value[steps - 1] == Trunc(duration)
  {
    ScaledEnds(duration, steps);
  }

  /** For a non-negative duration the sample times are non-negative and
      never go back. */
  lemma TimePointsMonotone(duration: real, steps: int, i: int, j: int)
    requires steps >= 2 && 0 <= i <= j < steps && duration >= 0.0
    ensures var t := TimePoints(duration, steps).value;
            0 <= t[i] <= t[j]
  {
    ScaledEnds(duration, steps);
    ScaledMonotone(duration, steps, 0, i);
    ScaledMonotone(duration, steps, i, j);
    TruncMonotone(Scaled(duration, steps, i), Scaled(duration, steps, j));
  }

  /** The index of the '*' in a bar: the frequency's place between `lo`
      and `hi` scaled to the 31 gaps of the bar, truncated. */
  function BarPos(lo: real, hi: real, f: real): int
  {
    if hi > lo then Trunc((f - lo) / (hi - lo) * ((BarLen - 1) as real)) else 0
  }

  /** A frequency between the ends lands inside the bar: the lower end at
      its first place, the upper end at its last. */
  lemma BarPosInRange(lo: real, hi: real, f: real)
    requires lo <= f <= hi
    ensures 0 <= BarPos(lo, hi, f) < BarLen
    ensures f == lo ==> BarPos(lo, hi, f) == 0
    ensures f == hi && hi > lo ==> BarPos(lo, hi, f) == BarLen - 1
  {
    if hi > lo {
      var w := hi - lo;
      var q := (f - lo) / w;
      DivSign(f - lo, w);
      DivMonotone(f - lo, w, w);
      DivSelf(w);
      assert 0.0 <= q <= 1.0;
      assert 0.0 <= q * 31.0 <= 31.0;
      if f == hi {
        assert q == 1.0;
      }
    }
  }

  /** A higher frequency never moves the '*' to the left. */
  lemma BarPosMonotone(lo: real, hi: real, f: real, g: real)
    requires f <= g
    ensures BarPos(lo, hi, f) <= BarPos(lo, hi, g)
  {
    if hi > lo {
      var w := hi - lo;
      DivMonotone(f - lo, g - lo, w);
      TruncMonotone((f - lo) / w * 31.0, (g - lo) / w * 31.0);
    }
  }

  /** `['-'] * bar_len` with `bar[pos] = '*'`. */
  function Bar(pos: int): string
  {
    seq(BarLen, j requires 0 <= j < BarLen => if j == pos then '*' else '-')
  }

  function CountStars(s: string): nat
    decreases |s|
  {
    if s == [] then 0 else CountStars(s[..|s| - 1]) + (if s[|s| - 1] == '*' then 1 else 0)
  }

  lemma {:induction false} StarsCounted(s: string, pos: int)
    requires forall j :: 0 <= j < |s| ==> (s[j] == '*' <==> j == pos)
    ensures CountStars(s) == if 0 <= pos < |s| then 1 else 0
    decreases |s|
  {
    if s != [] {
      var init := s[..|s| - 1];
      forall j | 0 <= j < |init|
        ensures init[j] == '*' <==> j == pos
      {
        assert init[j] == s[j];
      }
      StarsCounted(init, pos);
    }
  }

  /** A bar is `BarLen` long and holds exactly one '*', at `pos`. */
  lemma BarHasOneStar(pos: int)
    requires 0 <= pos < BarLen
    ensures |Bar(pos)| == BarLen && Bar(pos)[pos] == '*'
    ensures CountStars(Bar(pos)) == 1
  {
    StarsCounted(Bar(pos), pos);
  }

  /** One printed line of `freq_bar`. */
  datatype BarLine = BarLine(time: int, low: real, high: real, bar: string)

  /** The lines `freq_bar` prints for frequencies `freqs` sampled at
      `times`, paired as `zip` pairs them. */
  function BarLines(start: real, end: real, freqs: seq<real>, times: seq<int>): seq<BarLine>
  {
    var n := if |freqs| < |times| then |freqs| else |times|;
    seq(n, k requires 0 <= k < n =>
      BarLine(times[k], Min(start, end), Max(start, end), Bar(BarPos(Min(start, end), Max(start, end), freqs[k]))))
  }

  /** `freq_bar`: each bar is a fresh buffer of '-' with one '*' written
      in. The sweep points it is given lie between the ends, so the write
      is always inside the buffer. */
  method FreqBar(start: real, end: real, freqs: seq<real>, times: seq<int>) returns (lines: seq<BarLine>)
    requires forall k :: 0 <= k < |freqs| ==> Min(start, end) <= freqs[k] <= Max(start, end)
    ensures lines == BarLines(start, end, freqs, times)
  {
    var lo, hi := Min(start, end), Max(start, end);
    var n := if |freqs| < |times| then |freqs| else |times|;
    lines := [];
    var k := 0;
    while k < n
      invariant 0 <= k <= n && |lines| == k
      invariant forall m :: 0 <= m < k ==> lines[m] == BarLine(times[m], lo, hi, Bar(BarPos(lo, hi, freqs[m])))
    {
      var pos := if hi > lo then Trunc((freqs[k] - lo) / (hi - lo) * ((BarLen - 1) as real)) else 0;
      BarPosInRange(lo, hi, freqs[k]);
      var bar := new char[BarLen](_ => '-');
      bar[pos] := '*';
      assert bar[..] == Bar(pos);
      lines := lines + [BarLine(times[k], lo, hi, bar[..])];
      k := k + 1;
    }
  }

  /** The sweep data and bars `plot_binaural_sweep` prints. */
  datatype SweepPlot = SweepPlot(times: seq<int>, left: seq<real>, right: seq<real>,
                                 leftBars: seq<BarLine>, rightBars: seq<BarLine>)

  /** `plot_binaural_sweep`: samples both channels' sweeps and the times,
      then draws a bar per sample for each channel. One step raises (None). */
  method PlotBinauralSweep(leftStart: real, leftEnd: real, rightStart: real, rightEnd: real,
                           duration: real, steps: int) returns (r: Option<SweepPlot>)
    ensures r.None? <==> steps == 1
    ensures r.Some? ==>
              var left := SweepPoints(leftStart, leftEnd, steps).value;
              var right := SweepPoints(rightStart, rightEnd, steps).value;
              var times := TimePoints(duration, steps).value;
              r.value == SweepPlot(times, left, right, BarLines(leftStart, leftEnd, left, times),
                                   BarLines(rightStart, rightEnd, right, times))
  {
    var leftR := SweepPoints(leftStart, leftEnd, steps);
    if leftR.None? {
      return None;
    }
    var left := leftR.value;
    var right := SweepPoints(rightStart, rightEnd, steps).value;
    var times := TimePoints(duration, steps).value;
    if steps >= 2 {
      SweepWithin(leftStart, leftEnd, steps);
      SweepWithin(rightStart, rightEnd, steps);
    }
    var leftBars := FreqBar(leftStart, leftEnd, left, times);
    var rightBars := FreqBar(rightStart, rightEnd, right, times);
    r := Some(SweepPlot(times, left, right, leftBars, rightBars));
  }

  /** Each sample's bar has exactly one '*'; the '*' of the first sample
      is at the end of the bar the sweep starts from and that of the last
      sample at the end it goes to, and in between it moves only towards
      the end. With equal ends every '*' is in the first place. */
  lemma SweepBarsTravel(start: real, end: real, duration: real, steps: int, i: int, j: int)
    requires steps >= 2 && 0 <= i <= j < steps
    ensures var p := SweepPoints(start, end, steps).value;
            var lines := BarLines(start, end, p, TimePoints(duration, steps).value);
            && |lines| == steps
            && CountStars(lines[i].bar) == 1
            && lines[0].bar == Bar(if start <= end then 0 else BarLen - 1)
            && lines[steps - 1].bar == Bar(if start < end then BarLen - 1 else 0)
            && (start <= end ==> BarPos(start, end, p[i]) <= BarPos(start, end, p[j]))
            && (start >= end ==> BarPos(end, start, p[i]) >= BarPos(end, start, p[j]))
  {
    var p := SweepPoints(start, end, steps).value;
    var lo, hi := Min(start, end), Max(start, end);
    SweepEndpoints(start, end, steps);
    SweepWithin(start, end, steps);
    SweepMonotone(start, end, steps, i, j);
    BarPosInRange(lo, hi, p[i]);
    BarHasOneStar(BarPos(lo, hi, p[i]));
    BarPosInRange(lo, hi, p[0]);
    BarPosInRange(lo, hi, p[steps - 1]);
    if start <= end {
      BarPosMonotone(lo, hi, p[i], p[j]);
    }
    if start >= end {
      BarPosMonotone(lo, hi, p[j], p[i]);
    }
  }
}
