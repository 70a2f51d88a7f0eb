/** The binaural tone: parsing `--binaural` and the two sox commands that
    synthesise the tone and mix it under the base track. */
module Binaurals {
  import opened Wrappers
  import opened Text
  import opened Numbers
  import opened Params
  import opened Engine

  /** The optional end of one side: the second '-'-piece, if there is one. */
  function EndOf(c: Conversions, pieces: seq<string>): Result<Option<real>, Cause>
  {
    if |pieces| > 1 then
      var x :- ParseFloat(c, pieces[1]);
      Success(Some(x))
    else Success(None)
  }

  /** The body of `parse_binaural_arg`: exactly two ':'-fields; on each side
      the first '-'-piece is the start and the second, if any, the end. */
  function BinauralFields(c: Conversions, s: string): Result<BinauralParams, Cause>
  {
    var sides := Split(s, ':');
    if |sides| != 2 then Failure(FieldCount(|sides|))
    else
      var left := Split(sides[0], '-');
      var right := Split(sides[1], '-');
      var leftFreq :- ParseFloat(c, left[0]);
      var leftEnd :- EndOf(c, left);
      var rightFreq :- ParseFloat(c, right[0]);
      var rightEnd :- EndOf(c, right);
      Success(BinauralParams(leftFreq, leftEnd, rightFreq, rightEnd))
  }

  const BinauralErrorPrefix: string := "Invalid --binaural format: "

  /** `parse_binaural_arg`: every failure becomes one error that names the
      whole input and keeps the cause. */
  function ParseBinaural(c: Conversions, s: string): (r: Result<BinauralParams, ParseError>)
    ensures r.Failure? ==> r.error.message == BinauralErrorPrefix + s
    ensures r.Failure? <==> BinauralFields(c, s).Failure?
  {
    match BinauralFields(c, s)
    case Success(p) => Success(p)
    case Failure(cause) => Failure(ParseError(BinauralErrorPrefix + s, cause))
  }

  /** One channel as text: `start` or `start-end`. This is both the synth
      tone token and one side of the documented argument form. */
  function Tone(c: Conversions, start: real, end: Option<real>): string
  {
    if end.Some? then c.show(start) + "-" + c.show(end.value) else c.show(start)
  }

  /** A binaural specification in the documented `start[-end]:start[-end]`
      form, written with the tone tokens of the synth command. */
  function FormatBinaural(c: Conversions, p: BinauralParams): string
  {
    Tone(c, p.leftFreq, p.leftEnd) + ":" + Tone(c, p.rightFreq, p.rightEnd)
  }

  /** The values a channel needs to print back. */
  predicate ChannelPrintable(c: Conversions, start: real, end: Option<real>)
  {
    Printable(c, start) && (end.Some? ==> Printable(c, end.value))
  }

  /** A channel's text splits at '-' into its start and, if present, end. */
  lemma ToneSplits(c: Conversions, start: real, end: Option<real>)
    requires ChannelPrintable(c, start, end)
    ensures ':' !in Tone(c, start, end)
    ensures Split(Tone(c, start, end), '-') ==
            if end.Some? then [c.show(start), c.show(end.value)] else [c.show(start)]
  {
    if end.Some? {
      SplitConcat(c.show(start), c.show(end.value), '-');
      SplitNoSeparator(c.show(start), '-');
      SplitNoSeparator(c.show(end.value), '-');
    } else {
      SplitNoSeparator(c.show(start), '-');
    }
  }

  /** Round trip: printing parameters in the documented form, with numbers
      that print back, and parsing the text gives the same four fields. */
  lemma {:induction false} BinauralRoundTrip(c: Conversions, p: BinauralParams)
    requires ChannelPrintable(c, p.leftFreq, p.leftEnd)
    requires ChannelPrintable(c, p.rightFreq, p.rightEnd)
    ensures ParseBinaural(c, FormatBinaural(c, p)) == Success(p)
  {
    var l := Tone(c, p.leftFreq, p.leftEnd);
    var r := Tone(c, p.rightFreq, p.rightEnd);
    ToneSplits(c, p.leftFreq, p.leftEnd);
    ToneSplits(c, p.rightFreq, p.rightEnd);
    SplitConcat(l, r, ':');
    SplitNoSeparator(l, ':');
    SplitNoSeparator(r, ':');
    assert FormatBinaural(c, p) == l + [':'] + r;
    assert Split(FormatBinaural(c, p), ':') == [l, r];
  }

  /** Text without exactly one ':' is rejected by the tuple unpacking. */
  lemma NeedsExactlyOneColon(c: Conversions, s: string)
    requires multiset(s)[':'] != 1
    ensures ParseBinaural(c, s) == Failure(ParseError(BinauralErrorPrefix + s, FieldCount(multiset(s)[':'] + 1)))
  {
    SplitCount(s, ':');
  }

  /** Every number is read from a '-'-free piece, so no frequency comes out
      negative. */
  lemma {:induction false} NoNegativeFrequency(c: Conversions, s: string)
    requires NegativeNeedsMinus(c)
    requires ParseBinaural(c, s).Success?
    ensures var p := ParseBinaural(c, s).value;
            && p.leftFreq >= 0.0 && p.rightFreq >= 0.0
            && (p.leftEnd.Some? ==> p.leftEnd.value >= 0.0)
            && (p.rightEnd.Some? ==> p.rightEnd.value >= 0.0)
  {
    var sides := Split(s, ':');
    var left := Split(sides[0], '-');
    var right := Split(sides[1], '-');
    assert '-' !in left[0] && '-' !in right[0];
    assert |left| > 1 ==> '-' !in left[1];
    assert |right| > 1 ==> '-' !in right[1];
  }

  /** A side that is empty or starts with '-' (such as "-5:3" or "100:")
      has an empty first piece, which `float("")` rejects. */
  lemma {:induction false} EmptyPieceFails(c: Conversions, left: string, right: string)
    requires RejectsEmpty(c)
    requires ':' !in left && ':' !in right
    requires left == [] || left[0] == '-' || right == [] || right[0] == '-'
    ensures ParseBinaural(c, left + ":" + right).Failure?
  {
    TwoSides(left, right);
    SplitFirstEmpty(left, '-');
    SplitFirstEmpty(right, '-');
  }

  /** Two ':'-free sides joined by ':' split back into the two sides. */
  lemma TwoSides(left: string, right: string)
    requires ':' !in left && ':' !in right
    ensures Split(left + ":" + right, ':') == [left, right]
  {
    assert left + ":" + right == left + [':'] + right;
    SplitConcat(left, right, ':');
    SplitNoSeparator(left, ':');
    SplitNoSeparator(right, ':');
  }

  /** Appending "-x" to a side that has a '-' keeps its first two pieces. */
  lemma ExtraPieceKeepsTwo(left: string, x: string)
    requires '-' in left
    ensures var a := Split(left + "-" + x, '-');
            var b := Split(left, '-');
            |b| >= 2 && |a| >= 2 && a[0] == b[0] && a[1] == b[1]
  {
    assert left + "-" + x == left + ['-'] + x;
    SplitConcat(left, x, '-');
    SplitCount(left, '-');
  }

  /** Pieces after the second one on a side are ignored: appending
      "-x" to a side that already has an end changes nothing. */
  lemma ExtraPiecesIgnored(c: Conversions, left: string, x: string, right: string)
    requires ':' !in left && ':' !in x && ':' !in right
    requires '-' in left
    ensures BinauralFields(c, left + "-" + x + ":" + right) == BinauralFields(c, left + ":" + right)
  {
    var longer := left + "-" + x;
    assert ':' !in longer;
    TwoSides(longer, right);
    TwoSides(left, right);
    ExtraPieceKeepsTwo(left, x);
  }

  /** How a well-formed argument reads: two sides, each a start and an
      optional end, each number read by `float()`. */
  lemma {:induction false} SidesParse(c: Conversions, l: string, le: Option<string>,
                                      r: string, re: Option<string>)
    requires ':' !in l && '-' !in l && ':' !in r && '-' !in r
    requires le.Some? ==> ':' !in le.value && '-' !in le.value
    requires re.Some? ==> ':' !in re.value && '-' !in re.value
    requires c.parseFloat(l).Some? && c.parseFloat(r).Some?
    requires le.Some? ==> c.parseFloat(le.value).Some?
    requires re.Some? ==> c.parseFloat(re.value).Some?
    ensures var left := if le.Some? then l + "-" + le.value else l;
            var right := if re.Some? then r + "-" + re.value else r;
            ParseBinaural(c, left + ":" + right) == Success(BinauralParams(
              c.parseFloat(l).value, if le.Some? then Some(c.parseFloat(le.value).value) else None,
              c.parseFloat(r).value, if re.Some? then Some(c.parseFloat(re.value).value) else None))
  {
    var left := if le.Some? then l + "-" + le.value else l;
    var right := if re.Some? then r + "-" + re.value else r;
    SideSplits(l, le);
    SideSplits(r, re);
    TwoSides(left, right);
  }

  /** One side of the argument splits at '-' into its start and end. */
  lemma SideSplits(start: string, end: Option<string>)
    requires ':' !in start && '-' !in start
    requires end.Some? ==> ':' !in end.value && '-' !in end.value
    ensures var side := if end.Some? then start + "-" + end.value else start;
            && ':' !in side
            && Split(side, '-') == if end.Some? then [start, end.value] else [start]
  {
    SplitNoSeparator(start, '-');
    if end.Some? {
      assert start + "-" + end.value == start + ['-'] + end.value;
      SplitConcat(start, end.value, '-');
      SplitNoSeparator(end.value, '-');
    }
  }

  /** The first worked example of the argument's help text: two sweeps. */
  lemma SweepExample(c: Conversions)
    requires c.parseFloat("46") == Some(46.0) && c.parseFloat("70") == Some(70.0)
    requires c.parseFloat("48") == Some(48.0) && c.parseFloat("74") == Some(74.0)
    ensures ParseBinaural(c, "46-70:48-74") == Success(BinauralParams(46.0, Some(70.0), 48.0, Some(74.0)))
  {
    SidesParse(c, "46", Some("70"), "48", Some("74"));
    assert "46" + "-" + "70" + ":" + ("48" + "-" + "74") == "46-70:48-74";
  }

  /** The second worked example: two constant tones. */
  lemma ConstantExample(c: Conversions)
    requires c.parseFloat("100") == Some(100.0) && c.parseFloat("104") == Some(104.0)
    ensures ParseBinaural(c, "100:104") == Success(BinauralParams(100.0, None, 104.0, None))
  {
    SidesParse(c, "100", None, "104", None);
    assert "100" + ":" + "104" == "100:104";
  }

  /** The synth tones of `generate_binaural_sox`: left before right. */
  function SineArgs(c: Conversions, p: BinauralParams): seq<string>
  {
    ["sine", Tone(c, p.leftFreq, p.leftEnd), "sine", Tone(c, p.rightFreq, p.rightEnd)]
  }

  /** The gain argument: `+G` for a positive gain, `G` otherwise. */
  function GainArg(c: Conversions, gain: real): string
  {
    (if gain > 0.0 then "+" else "") + c.show(gain)
  }

  /** The full synth command. */
  function SynthTokens(c: Conversions, output: string, duration: real, rate: int,
                       p: BinauralParams, gain: real): seq<string>
  {
    ["sox", "-b", "16", "-n", "-r", Decimal(rate), "-c", "2", output, "synth", c.show(duration)]
      + SineArgs(c, p)
      + (if gain != 0.0 then ["gain", GainArg(c, gain)] else [])
  }

  /** What the synth command holds: a fixed 16-bit, 2-channel prefix at the
      probed rate and duration, the left tone then the right tone, and a gain
      argument exactly when the gain is not zero, signed '+' exactly when it
      is positive. */
  lemma SynthCommandShape(c: Conversions, output: string, duration: real, rate: int,
                          p: BinauralParams, gain: real)
    requires ShowsNoPlus(c)
    ensures var t := SynthTokens(c, output, duration, rate, p, gain);
            && t[..11] == ["sox", "-b", "16", "-n", "-r", Decimal(rate), "-c", "2", output, "synth", c.show(duration)]
            && t[11] == "sine" && t[12] == Tone(c, p.leftFreq, p.leftEnd)
            && t[13] == "sine" && t[14] == Tone(c, p.rightFreq, p.rightEnd)
            && (|t| == 17 <==> gain != 0.0) && (|t| == 15 <==> gain == 0.0)
            && (|t| == 17 ==> t[15] == "gain" && (t[16][0] == '+' <==> gain > 0.0))
  {
    var g := GainArg(c, gain);
    assert c.show(gain) != [] && c.show(gain)[0] != '+';
    assert gain > 0.0 ==> g[0] == '+';
  }

  /** A tone is `start-end` when the end is present and plain `start`
      otherwise; with printable numbers the two shapes are told apart by the
      '-' and the tokens joined by ':' are an argument that parses back to
      the same parameters. */
  lemma SineArgsParseBack(c: Conversions, p: BinauralParams)
    requires ChannelPrintable(c, p.leftFreq, p.leftEnd)
    requires ChannelPrintable(c, p.rightFreq, p.rightEnd)
    ensures ('-' in SineArgs(c, p)[1]) <==> p.leftEnd.Some?
    ensures ('-' in SineArgs(c, p)[3]) <==> p.rightEnd.Some?
    ensures ParseBinaural(c, SineArgs(c, p)[1] + ":" + SineArgs(c, p)[3]) == Success(p)
  {
    BinauralRoundTrip(c, p);
    var l := c.show(p.leftFreq);
    var r := c.show(p.rightFreq);
    if p.leftEnd.Some? {
      assert Tone(c, p.leftFreq, p.leftEnd)[|l|] == '-';
    }
    if p.rightEnd.Some? {
      assert Tone(c, p.rightFreq, p.rightEnd)[|r|] == '-';
    }
  }

  /** `generate_binaural_sox`: collects the tone arguments, appends the gain
      argument when the gain is not zero, and runs the command. */
  method GenerateBinauralSox(c: Conversions, e: Engine, output: string, duration: real,
                             rate: int, p: BinauralParams, gain: real) returns (ok: bool)
    modifies e
    ensures ok == !e.fails(SynthTokens(c, output, duration, rate, p, gain))
    ensures e.log == old(e.log) + [Call.Sox(SynthTokens(c, output, duration, rate, p, gain), output)]
    ensures e.files == if ok then old(e.files) + {output} else old(e.files)
  {
    var synthArgs: seq<string> := [];
    if p.leftEnd.Some? {
      synthArgs := synthArgs + ["sine", c.show(p.leftFreq) + "-" + c.show(p.leftEnd.value)];
    } else {
      synthArgs := synthArgs + ["sine", c.show(p.leftFreq)];
    }
    if p.rightEnd.Some? {
      synthArgs := synthArgs + ["sine", c.show(p.rightFreq) + "-" + c.show(p.rightEnd.value)];
    } else {
      synthArgs := synthArgs + ["sine", c.show(p.rightFreq)];
    }
    assert synthArgs == SineArgs(c, p);
    var cmd := ["sox", "-b", "16", "-n", "-r", Decimal(rate), "-c", "2", output,
                "synth", c.show(duration)] + synthArgs;
    if gain != 0.0 {
      cmd := cmd + ["gain", (if gain > 0.0 then "+" else "") + c.show(gain)];
    }
    assert cmd == SynthTokens(c, output, duration, rate, p, gain);
    ok := e.Sox(cmd, output);
  }

  /** `mix_audio_binaural`: `sox -m INPUT BINAURAL OUTPUT`, base track first. */
  method MixAudioBinaural(e: Engine, input: string, binaural: string, output: string)
    returns (ok: bool)
    modifies e
    ensures ok == !e.fails(["sox", "-m", input, binaural, output])
    ensures e.log == old(e.log) + [Call.Sox(["sox", "-m", input, binaural, output], output)]
    ensures e.files == if ok then old(e.files) + {output} else old(e.files)
  {
    var cmd := ["sox", "-m", input, binaural, output];
    ok := e.Sox(cmd, output);
  }
}
