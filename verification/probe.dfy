/** Probing an audio file with `soxi`: its duration in seconds and its sample
    rate. The exit status of `soxi` is not looked at; only what it prints on
    standard output, stripped of surrounding whitespace, decides. */
module Probe {
  import opened Wrappers
  import opened Text
  import opened Numbers
  import opened Engine

  /** The `RuntimeError` a failed probe raises. */
  datatype ProbeError = ProbeError(message: string)

  function DurationTokens(path: string): seq<string>
  {
    ["soxi", "-D", path]
  }

  function RateTokens(path: string): seq<string>
  {
    ["soxi", "-r", path]
  }

  /** `float(stdout.strip())`, or the error that names the file. */
  function DurationOf(c: Conversions, stdout: string, path: string): (r: Result<real, ProbeError>)
    ensures r.Failure? ==> r.error.message == "Could not determine duration of " + path + " using soxi"
  {
    match c.parseFloat(Strip(stdout))
    case Some(x) => Success(x)
    case None => Failure(ProbeError("Could not determine duration of " + path + " using soxi"))
  }

  /** `int(stdout.strip())`, or the error that names the file. */
  function SampleRateOf(c: Conversions, stdout: string, path: string): (r: Result<int, ProbeError>)
    ensures r.Failure? ==> r.error.message == "Could not determine sample rate of " + path + " using soxi"
  {
    match c.parseInt(Strip(stdout))
    case Some(n) => Success(n)
    case None => Failure(ProbeError("Could not determine sample rate of " + path + " using soxi"))
  }

  /** Both probes read the value between any surrounding whitespace. */
  lemma ProbeIgnoresPadding(c: Conversions, pre: string, t: string, post: string, path: string)
    requires AllSpace(pre) && AllSpace(post)
    requires t == [] || (!IsSpace(t[0]) && !IsSpace(t[|t| - 1]))
    ensures DurationOf(c, pre + t + post, path) ==
              if c.parseFloat(t).Some? then Success(c.parseFloat(t).value)
              else Failure(ProbeError("Could not determine duration of " + path + " using soxi"))
    ensures SampleRateOf(c, pre + t + post, path) ==
              if c.parseInt(t).Some? then Success(c.parseInt(t).value)
              else Failure(ProbeError("Could not determine sample rate of " + path + " using soxi"))
  {
    StripPadded(pre, t, post);
  }

  /** Output that is empty or only whitespace, as when `soxi` fails and
      prints nothing on standard output, makes both probes raise. */
  lemma BlankOutputFails(c: Conversions, stdout: string, path: string)
    requires RejectsEmpty(c)
    requires AllSpace(stdout)
    ensures DurationOf(c, stdout, path).Failure?
    ensures SampleRateOf(c, stdout, path).Failure?
  {
  }

  /** A fractional rate such as "44100.0" is not an `int()` and raises. */
  lemma FractionalRateFails(c: Conversions, stdout: string, path: string)
    requires IntRejectsDot(c)
    requires '.' in Strip(stdout)
    ensures SampleRateOf(c, stdout, path).Failure?
  {
  }

  /** `get_audio_duration`: one `soxi -D` query, then the parse. */
  method GetAudioDuration(c: Conversions, e: Engine, path: string) returns (r: Result<real, ProbeError>)
    modifies e
    ensures e.log == old(e.log) + [Call.Soxi(DurationTokens(path))]
    ensures e.files == old(e.files)
    ensures r == DurationOf(c, e.answers(DurationTokens(path)), path)
  {
    var stdout := e.Soxi(["soxi", "-D", path]);
    r := DurationOf(c, stdout, path);
  }

  /** `get_audio_sample_rate`: one `soxi -r` query, then the parse. */
  method GetAudioSampleRate(c: Conversions, e: Engine, path: string) returns (r: Result<int, ProbeError>)
    modifies e
    ensures e.log == old(e.log) + [Call.Soxi(RateTokens(path))]
    ensures e.files == old(e.files)
    ensures r == SampleRateOf(c, e.answers(RateTokens(path)), path)
  {
    var stdout := e.Soxi(["soxi", "-r", path]);
    r := SampleRateOf(c, stdout, path);
  }
}
