/** `get_sample_rate`: the sample rate the media probe reports for the first
    audio stream, or the fixed default 16000 Hz whenever probing or parsing
    fails. The probe itself (an external `ffprobe` process) is an input: it
    either failed (missing program, non-zero exit, undecodable output) or
    produced text on standard output. */
module SampleRate {
  import opened Wrappers
  import opened Text

  /** The rate used whenever detection fails. */
  const DefaultSampleRate := 16000

  datatype ProbeOutput =
    | ProbeFailed(error: string)
    | ProbeSucceeded(stdout: string)

  predicate IsDigit(c: char)
  {
    '0' <= c <= '9'
  }

  /** The digit part Python's `int()` accepts: ASCII digits, where a single
      underscore may separate two digits. */
  predicate WellFormedDigits(s: string)
  {
    && |s| > 0
    && IsDigit(s[0])
    && IsDigit(s[|s| - 1])
    && (forall k :: 0 <= k < |s| ==> IsDigit(s[k]) || s[k] == '_')
    && (forall k :: 0 <= k < |s| - 1 && s[k] == '_' ==> IsDigit(s[k + 1]))
  }

  /** The number the digits of `s` spell in base 10; underscores are skipped. */
  function DigitsValue(s: string): nat
  {
    if s == [] then 0
    else
      var last := s[|s| - 1];
      if IsDigit(last) then DigitsValue(s[..|s| - 1]) * 10 + (last as int - '0' as int)
      else DigitsValue(s[..|s| - 1])
  }

  /** Python's `int(t)` on an already stripped string: an optional sign
      followed by well-formed digits; anything else raises ValueError
      (here: None). */
  function IntValue(t: string): (r: Option<int>)
    ensures r.Some? ==> |t| > 0
    ensures r.Some? && r.value < 0 ==> t[0] == '-'
  {
    if |t| > 0 && (t[0] == '+' || t[0] == '-') then
      var magnitude: int := DigitsValue(t[1..]);
      if WellFormedDigits(t[1..]) then Some(if t[0] == '-' then -magnitude else magnitude)
      else None
    else if WellFormedDigits(t) then Some(DigitsValue(t))
    else None
  }

  /** `get_sample_rate`: `int(output.strip())` when that succeeds, otherwise
      the default: exactly the parsed value whenever the output parses, and
      exactly the default whenever the probe fails or its output does not
      parse. */
  function SampleRateOf(probe: ProbeOutput): (hz: int)
    ensures probe.ProbeFailed? ==> hz == DefaultSampleRate
    ensures probe.ProbeSucceeded? && IntValue(Strip(probe.stdout)).None? ==> hz == DefaultSampleRate
    ensures probe.ProbeSucceeded? && IntValue(Strip(probe.stdout)).Some? ==> hz == IntValue(Strip(probe.stdout)).value
  {
    match probe
    case ProbeFailed(_) => DefaultSampleRate
    case ProbeSucceeded(stdout) =>
      match IntValue(Strip(stdout))
      case Some(n) => n
      case None => DefaultSampleRate
  }

  /** The decimal text of `n`, as a probe prints a sample rate. */
  function Decimal(n: nat): (r: string)
    ensures |r| > 0
    ensures forall k :: 0 <= k < |r| ==> IsDigit(r[k])
  {
    if n < 10 then [('0' as int + n) as char]
    else Decimal(n / 10) + [('0' as int + n % 10) as char]
  }

  /** Reading back a printed number gives the number. */
  lemma {:induction false} DigitsValueOfDecimal(n: nat)
    ensures DigitsValue(Decimal(n)) == n
  {
    var r := Decimal(n);
    if n >= 10 {
      DigitsValueOfDecimal(n / 10);
      assert r[..|r| - 1] == Decimal(n / 10);
    } else {
      assert r[..|r| - 1] == [];
    }
  }

  /** `int()` inverts printing: the parse of a printed number is that number. */
  lemma IntValueOfDecimal(n: nat)
    ensures IntValue(Decimal(n)) == Some(n)
  {
    DigitsValueOfDecimal(n);
  }

  /** A probe that prints a sample rate, with any surrounding whitespace (the
      trailing newline `ffprobe` writes), yields exactly that rate. */
  lemma ProbedRateIsUsed(n: nat, before: string, after: string)
    requires AllSpace(before) && AllSpace(after)
    ensures SampleRateOf(ProbeSucceeded(before + Decimal(n) + after)) == n
  {
    var d := Decimal(n);
    assert !IsSpace(d[0]) && !IsSpace(d[|d| - 1]);
    StripOfPadded(before, d, after);
    IntValueOfDecimal(n);
  }

  /** A failed probe never aborts transcription: it yields 16000. */
  lemma FailedProbeFallsBack(error: string)
    ensures SampleRateOf(ProbeFailed(error)) == DefaultSampleRate
  {
  }

  /** Output that is not an integer, e.g. a probe that found no audio stream
      and printed nothing, yields 16000. */
  lemma EmptyOutputFallsBack(output: string)
    requires AllSpace(output)
    ensures SampleRateOf(ProbeSucceeded(output)) == DefaultSampleRate
  {
    assert output == output + [] + [];
    StripOfPadded(output, [], []);
  }

  /** Two numbers on two lines are not one integer. */
  lemma TwoLinesAreNotAnInteger(a: string, b: string)
    requires |a| > 0 && IsDigit(a[0])
    requires |b| > 0 && IsDigit(b[0])
    ensures IntValue(a + "\n" + b) == None
  {
    var s := a + "\n" + b;
    assert s[0] == a[0];
    assert !WellFormedDigits(s) by { assert s[|a|] == '\n'; }
  }

  /** The probe selects every audio stream (`-select_streams a`), so a file
      with two audio streams prints two lines; `int()` rejects the pair and
      the default 16000 is used, not the first stream's rate. */
  lemma TwoAudioStreamsFallBack(first: nat, second: nat)
    ensures SampleRateOf(ProbeSucceeded(Decimal(first) + "\n" + Decimal(second) + "\n"))
            == DefaultSampleRate
  {
    var a, b := Decimal(first), Decimal(second);
    var s := a + "\n" + b;
    assert !IsSpace(s[0]) by { assert s[0] == a[0]; }
    assert !IsSpace(s[|s| - 1]) by { assert s[|s| - 1] == b[|b| - 1]; }
    assert AllSpace("\n");
    StripOfPadded([], s, "\n");
    assert [] + s + "\n" == a + "\n" + b + "\n";
    TwoLinesAreNotAnInteger(a, b);
  }
}
