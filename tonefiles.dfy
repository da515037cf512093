/**
 * The name of the sound file for each sweep tone (loadNextTone in script.js):
 * `{freq}Hz_{vol}dB`, then `_left` or `_right` unless the ear is both, under
 * `audio/` with the `.wav` extension. ParseStem reads a name back.
 */
module ToneFiles {
  import opened Wrappers
  import opened Tones

  predicate IsDigit(c: char) { '0' <= c <= '9' }

  predicate AllDigits(s: string) { forall i :: 0 <= i < |s| ==> IsDigit(s[i]) }

  function DigitChar(d: nat): (c: char)
    requires d < 10
    ensures IsDigit(c)
  {
    ('0' as int + d) as char
  }

  /** A natural number in decimal, as a template literal prints it. */
  function Decimal(n: nat): (s: string)
    ensures |s| > 0 && AllDigits(s)
  {
    if n < 10 then [DigitChar(n)] else Decimal(n / 10) + [DigitChar(n % 10)]
  }

  /** The number a string of decimal digits denotes. */
  function DecimalValue(s: string): nat
    requires AllDigits(s)
  {
    if s == [] then 0 else DecimalValue(s[..|s| - 1]) * 10 + (s[|s| - 1] as int - '0' as int)
  }

  lemma {:induction false} DecimalRoundTrip(n: nat)
    ensures DecimalValue(Decimal(n)) == n
  {
    if n >= 10 {
      var s := Decimal(n);
      assert s[..|s| - 1] == Decimal(n / 10);
      DecimalRoundTrip(n / 10);
    }
  }

  function EarSuffix(e: Ear): string
  {
    match e
    case BothEars => ""
    case Left => "_left"
    case Right => "_right"
  }

  /** The file name of a tone without directory and extension. */
  function FileStem(t: Tone): string
  {
    Decimal(t.freq) + "Hz_" + Decimal(t.vol) + "dB" + EarSuffix(t.ear)
  }

  /** The source the audio element is pointed at. */
  function AudioSource(t: Tone): string
  {
    "audio/" + FileStem(t) + ".wav"
  }

  /** The longest prefix of decimal digits, and what follows it. */
  function SpanDigits(s: string): (r: (string, string))
    ensures AllDigits(r.0) && r.0 + r.1 == s
    ensures r.1 == [] || !IsDigit(r.1[0])
  {
    if s != [] && IsDigit(s[0]) then
      var (d, rest) := SpanDigits(s[1..]);
      assert [s[0]] + d + rest == s;
      ([s[0]] + d, rest)
    else ([], s)
  }

  lemma {:induction false} SpanDigitsOf(d: string, rest: string)
    requires AllDigits(d)
    requires rest == [] || !IsDigit(rest[0])
    ensures SpanDigits(d + rest) == (d, rest)
  {
    if d != [] {
      var s := d + rest;
      assert s[0] == d[0] && IsDigit(s[0]);
      assert s[1..] == d[1..] + rest;
      SpanDigitsOf(d[1..], rest);
      assert [d[0]] + d[1..] == d;
    } else {
      assert d + rest == rest;
    }
  }

  /** A leading decimal number and what follows it. */
  function ParseNumber(s: string): Option<(nat, string)>
  {
    var (d, rest) := SpanDigits(s);
    if d == [] then None else Some((DecimalValue(d), rest))
  }

  lemma ParseNumberOf(n: nat, rest: string)
    requires rest == [] || !IsDigit(rest[0])
    ensures ParseNumber(Decimal(n) + rest) == Some((n, rest))
  {
    SpanDigitsOf(Decimal(n), rest);
    DecimalRoundTrip(n);
  }

  /** What follows `prefix` at the start of `s`, if `s` starts with it. */
  function StripPrefix(prefix: string, s: string): Option<string>
  {
    if |prefix| <= |s| && s[..|prefix|] == prefix then Some(s[|prefix|..]) else None
  }

  lemma StripPrefixOf(prefix: string, rest: string)
    ensures StripPrefix(prefix, prefix + rest) == Some(rest)
  {
    assert (prefix + rest)[..|prefix|] == prefix;
    assert (prefix + rest)[|prefix|..] == rest;
  }

  function EarOfSuffix(s: string): Option<Ear>
  {
    if s == "" then Some(BothEars)
    else if s == "_left" then Some(Left)
    else if s == "_right" then Some(Right)
    else None
  }

  /** Read the part after `Hz_`, `{vol}dB[_{ear}]`, into the volume and the ear. */
  function ParseLevel(s: string): Option<(nat, Ear)>
  {
    match ParseNumber(s)
    case None => None
    case Some((vol, r)) =>
      match StripPrefix("dB", r)
      case None => None
      case Some(suffix) =>
        match EarOfSuffix(suffix)
        case None => None
        case Some(ear) => Some((vol, ear))
  }

  /** Read a file stem back into the tone it names, or None if it is not one. */
  function ParseStem(s: string): Option<Tone>
  {
    match ParseNumber(s)
    case None => None
    case Some((freq, r1)) =>
      match StripPrefix("Hz_", r1)
      case None => None
      case Some(r2) =>
        match ParseLevel(r2)
        case None => None
        case Some((vol, ear)) => Some(Tone(freq, vol, ear))
  }

  lemma LevelRoundTrip(vol: nat, ear: Ear)
    ensures ParseLevel(Decimal(vol) + "dB" + EarSuffix(ear)) == Some((vol, ear))
  {
    var suffix := EarSuffix(ear);
    var r := "dB" + suffix;
    assert Decimal(vol) + "dB" + suffix == Decimal(vol) + r;
    ParseNumberOf(vol, r);
    StripPrefixOf("dB", suffix);
  }

  /** Every tone's file name reads back as that tone. */
  lemma StemRoundTrip(t: Tone)
    ensures ParseStem(FileStem(t)) == Some(t)
  {
    var r2 := Decimal(t.vol) + "dB" + EarSuffix(t.ear);
    var r1 := "Hz_" + r2;
    assert FileStem(t) == Decimal(t.freq) + r1;
    ParseNumberOf(t.freq, r1);
    StripPrefixOf("Hz_", r2);
    LevelRoundTrip(t.vol, t.ear);
  }

  /** Different tones get different file names. */
  lemma StemInjective(t: Tone, u: Tone)
    ensures FileStem(t) == FileStem(u) ==> t == u
    ensures AudioSource(t) == AudioSource(u) ==> t == u
  {
    StemRoundTrip(t);
    StemRoundTrip(u);
    var a, b := AudioSource(t), AudioSource(u);
    if a == b {
      assert FileStem(t) == a[6..|a| - 4];
      assert FileStem(u) == b[6..|b| - 4];
    }
  }

  /** Each of the grid's tones is played from a file of its own. */
  lemma GridFilesDistinct(mode: string, i: nat, j: nat)
    requires i < j < GridSize(mode)
    ensures AudioSource(GridTone(mode, i)) != AudioSource(GridTone(mode, j))
  {
    GridOrdered(mode, i, j);
    StemInjective(GridTone(mode, i), GridTone(mode, j));
  }

  lemma DecimalExamples()
    ensures Decimal(20) == "20" && Decimal(40) == "40"
    ensures Decimal(250) == "250" && Decimal(8000) == "8000"
  {
    assert Decimal(2) == "2";
    assert Decimal(25) == "25";
    assert Decimal(8) == "8";
    assert Decimal(80) == "80";
    assert Decimal(800) == "800";
  }

  /** Two names as loadNextTone builds them: no ear suffix when both ears are tested. */
  lemma NameExamples()
    ensures FileStem(Tone(250, 20, BothEars)) == "250Hz_20dB"
    ensures AudioSource(Tone(8000, 40, Right)) == "audio/8000Hz_40dB_right.wav"
  {
    DecimalExamples();
  }
}
