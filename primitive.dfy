/** The small decoders of src/musicxml.rs (StartStop, yes-no, step letters, clef
    signs) and the text-to-number conversions the parsers call through `FromStr`. */
module Primitive {
  import opened Xml

  /** A step of the diatonic scale, in the source's declaration order. */
  datatype Step = A | B | C | D | E | F | G

  datatype ClefSign = SignG | SignF | SignC | Percussion | Tab | Jianpu | NoSign

  /** The `FromStr` outcome for clef signs: the sign, or the error message. */
  datatype SignResult = SignOk(sign: ClefSign) | SignErr(message: string)

  datatype StartStop = Start | Stop

  /** An unsigned byte (Octave and StaffLinePosition are u8). */
  type U8 = n: nat | n < 256

  // ---------------------------------------------------------------- start-stop

  /** The attribute value of each kind. */
  function StartStopName(k: StartStop): string {
    match k
    case Start => "start"
    case Stop => "stop"
  }

  /** StartStop::parse: "start" and "stop", and nothing else. */
  function ParseStartStop(s: string): (r: Option<StartStop>)
    ensures r.Some? <==> s == "start" || s == "stop"
  {
    if s == "start" then Some(StartStop.Start)
    else if s == "stop" then Some(StartStop.Stop)
    else None
  }

  lemma StartStopDecodesExactlyNames(s: string)
    ensures ParseStartStop(s).Some? <==> (s == "start" || s == "stop")
    ensures forall k :: ParseStartStop(s) == Some(k) <==> s == StartStopName(k)
  {
  }

  // ---------------------------------------------------------------- yes-no

  /** parse_yes_no: only "yes" is true; "no" and every unexpected value are false. */
  function ParseYesNo(s: string): (b: bool)
    ensures b <==> s == "yes"
  {
    if s == "yes" then true
    else if s == "no" then false
    else false
  }

  // ---------------------------------------------------------------- step

  function StepName(step: Step): (s: string)
    ensures |s| == 1
  {
    match step
    case A => "A"
    case B => "B"
    case C => "C"
    case D => "D"
    case E => "E"
    case F => "F"
    case G => "G"
  }

  /** The letter match of Step::parse. */
  function StepFromText(s: string): (r: Option<Step>)
    ensures r.Some? ==> StepName(r.value) == s
    ensures r.None? <==> s !in {"A", "B", "C", "D", "E", "F", "G"}
  {
    match s
    case "A" => Some(A)
    case "B" => Some(B)
    case "C" => Some(C)
    case "D" => Some(D)
    case "E" => Some(E)
    case "F" => Some(F)
    case "G" => Some(G)
    case _ => None
  }

  lemma StepRoundTrip(step: Step)
    ensures StepFromText(StepName(step)) == Some(step)
  {
  }

  // ---------------------------------------------------------------- clef sign

  function ClefSignName(sign: ClefSign): string {
    match sign
    case SignG => "G"
    case SignF => "F"
    case SignC => "C"
    case Percussion => "percussion"
    case Tab => "TAB"
    case Jianpu => "jianpu"
    case NoSign => "none"
  }

  /** ClefSign::from_str. */
  function ClefSignFromStr(s: string): (r: SignResult)
    ensures r.SignOk? ==> ClefSignName(r.sign) == s
    ensures r.SignErr? ==> r.message == "unknown clef sign: " + s
  {
    match s
    case "G" => SignOk(SignG)
    case "F" => SignOk(SignF)
    case "C" => SignOk(SignC)
    case "percussion" => SignOk(Percussion)
    case "TAB" => SignOk(Tab)
    case "jianpu" => SignOk(Jianpu)
    case "none" => SignOk(NoSign)
    case _ => SignErr("unknown clef sign: " + s)
  }

  lemma ClefSignRoundTrip(sign: ClefSign)
    ensures ClefSignFromStr(ClefSignName(sign)) == SignOk(sign)
  {
  }

  /** read_text_as::<ClefSign>: a failed conversion is logged and reads as absent. */
  function SignFromText(s: string): Option<ClefSign> {
    match ClefSignFromStr(s)
    case SignOk(sign) => Some(sign)
    case SignErr(_) => None
  }

  // ---------------------------------------------------------------- numbers

  predicate IsDigit(c: char) {
    '0' <= c <= '9'
  }

  predicate AllDigits(s: string) {
    forall i :: 0 <= i < |s| ==> IsDigit(s[i])
  }

  function Pow10(k: nat): (p: nat)
    ensures p >= 1
  {
    if k == 0 then 1 else 10 * Pow10(k - 1)
  }

  /** The value of a string of decimal digits, most significant first. */
  function DigitsValue(s: string): (v: nat)
    requires AllDigits(s)
    ensures v < Pow10(|s|)
  {
    if s == [] then 0
    else DigitsValue(s[..|s| - 1]) * 10 + (s[|s| - 1] - '0') as nat
  }

  function IndexOf(s: string, c: char): (r: Option<nat>)
    ensures r.Some? ==> r.value < |s| && s[r.value] == c && c !in s[..r.value]
    ensures r.None? ==> c !in s
  {
    if s == [] then None
    else if s[0] == c then Some(0)
    else match IndexOf(s[1..], c)
      case None => None
      case Some(i) => Some(i + 1)
  }

  /** The value of the digits after a decimal point: each digit weighs a tenth
      of the one before it, so "25" is 0.25. */
  function Fraction(fs: string): (v: real)
    requires AllDigits(fs)
    ensures 0.0 <= v < 1.0
  {
    if fs == [] then 0.0
    else ((fs[0] - '0') as real + Fraction(fs[1..])) / 10.0
  }

  /** An unsigned decimal number: digits, optionally a point and more digits,
      with at least one digit in all. */
  function ParseMagnitude(s: string): (r: Option<real>)
    ensures r.Some? ==> r.value >= 0.0 && |s| > 0
  {
    match IndexOf(s, '.')
    case None =>
      if |s| > 0 && AllDigits(s) then Some(DigitsValue(s) as real) else None
    case Some(i) =>
      var whole, frac := s[..i], s[i + 1..];
      if AllDigits(whole) && AllDigits(frac) && |whole| + |frac| > 0 then
        Some(DigitsValue(whole) as real + Fraction(frac))
      else None
  }

  /** `str::parse::<f64>` on plain decimal notation, with an optional sign. */
  function ParseDecimal(s: string): (r: Option<real>)
    ensures r.Some? ==> |s| > 0
    ensures r.Some? && s[0] == '-' ==> r.value <= 0.0
    ensures r.Some? && s[0] != '-' ==> r.value >= 0.0
  {
    if |s| > 0 && s[0] == '-' then
      match ParseMagnitude(s[1..])
      case Some(v) => Some(-v)
      case None => None
    else if |s| > 0 && s[0] == '+' then ParseMagnitude(s[1..])
    else ParseMagnitude(s)
  }

  /** `str::parse::<u8>`: an optional plus sign, one or more digits, at most 255. */
  function ParseU8(s: string): (r: Option<U8>)
    ensures r.Some? ==> |s| > 0 && (s[0] == '+' || IsDigit(s[0]))
  {
    var digits := if |s| > 0 && s[0] == '+' then s[1..] else s;
    if |digits| > 0 && AllDigits(digits) && DigitsValue(digits) < 256 then
      Some(DigitsValue(digits))
    else None
  }

  /** A text that reads as a `u8` reads as the same number as an `f64`. */
  lemma U8ReadsAsDecimal(s: string)
    ensures ParseU8(s).Some? ==> ParseDecimal(s) == Some(ParseU8(s).value as real)
  {
    var digits := if |s| > 0 && s[0] == '+' then s[1..] else s;
    if ParseU8(s).Some? {
      DigitsHaveNoPoint(digits);
      assert IndexOf(digits, '.') == None;
      assert ParseMagnitude(digits) == Some(DigitsValue(digits) as real);
      assert IsDigit(digits[0]);
    }
  }

  /** The decimal rendering of a natural number, most significant digit first. */
  function NatString(n: nat): (s: string)
    ensures |s| > 0 && AllDigits(s)
    decreases n
  {
    if n < 10 then [('0' as int + n) as char]
    else NatString(n / 10) + [('0' as int + n % 10) as char]
  }

  lemma {:induction false} NatStringValue(n: nat)
    ensures DigitsValue(NatString(n)) == n
    decreases n
  {
    var s := NatString(n);
    if n >= 10 {
      NatStringValue(n / 10);
      assert s[..|s| - 1] == NatString(n / 10);
    }
  }

  /** The first point of `a + "." + b`, for `a` without a point, is at |a|. */
  lemma PointAfter(a: string, b: string)
    requires '.' !in a
    ensures IndexOf(a + "." + b, '.') == Some(|a|)
  {
    var s := a + "." + b;
    assert s[|a|] == '.';
    assert forall i :: 0 <= i < |a| ==> s[i] == a[i];
    assert forall i :: |a| < i <= |s| ==> s[..i][|a|] == '.';
  }

  lemma DigitsHaveNoPoint(a: string)
    requires AllDigits(a)
    ensures '.' !in a
  {
    assert forall i :: 0 <= i < |a| ==> a[i] != '.';
  }

  /** The two sides of the point in `a + "." + b`. */
  lemma PointSplits(a: string, b: string)
    ensures (a + "." + b)[..|a|] == a
    ensures (a + "." + b)[|a| + 1..] == b
  {
  }

  /** Digits, a point and at least one more digit. */
  lemma MagnitudeFraction(a: string, fs: string)
    requires AllDigits(a) && |fs| > 0 && AllDigits(fs)
    ensures ParseMagnitude(a + "." + fs)
            == Some(DigitsValue(a) as real + Fraction(fs))
  {
    DigitsHaveNoPoint(a);
    PointAfter(a, fs);
    PointSplits(a, fs);
  }

  /** A numeral that starts with a digit and reads as the magnitude `v` reads
      as `v` on its own, and as `-v` with a minus sign in front. */
  lemma Signed(s: string, v: real)
    requires |s| > 0 && IsDigit(s[0]) && ParseMagnitude(s) == Some(v)
    ensures ParseDecimal(s) == Some(v)
    ensures ParseDecimal("-" + s) == Some(-v)
  {
    assert ("-" + s)[1..] == s;
  }

  /** Reading back a rendered natural number gives that number. */
  lemma NatStringParses(n: nat)
    ensures ParseDecimal(NatString(n)) == Some(n as real)
    ensures n < 256 ==> ParseU8(NatString(n)) == Some(n)
    ensures n >= 256 ==> ParseU8(NatString(n)) == None
  {
    var s := NatString(n);
    NatStringValue(n);
    assert IndexOf(s, '.') == None by {
      assert forall i :: 0 <= i < |s| ==> s[i] != '.';
    }
  }
}
