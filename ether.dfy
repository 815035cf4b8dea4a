/**
 * The 18-decimal conversion pair between base units and decimal display
 * strings (ethers' formatEther / parseEther), and the sign that JavaScript's
 * parseFloat gives a decimal string, which the forms use as "<= 0" guards.
 */
module Ether {
  import opened Wrappers
  import opened Text
  import opened JsValues

  const DECIMALS: nat := 18
  const WEI_PER_ETHER: nat := 1_000_000_000_000_000_000

  lemma WeiIsPow10()
    ensures Pow10(17) == 100_000_000_000_000_000
    ensures WEI_PER_ETHER == Pow10(DECIMALS)
  {
    assert Pow10(1) == 10;
    assert Pow10(2) == 100;
    assert Pow10(3) == 1_000;
    assert Pow10(4) == 10_000;
    assert Pow10(5) == 100_000;
    assert Pow10(6) == 1_000_000;
    assert Pow10(7) == 10_000_000;
    assert Pow10(8) == 100_000_000;
    assert Pow10(9) == 1_000_000_000;
    assert Pow10(10) == 10_000_000_000;
    assert Pow10(11) == 100_000_000_000;
    assert Pow10(12) == 1_000_000_000_000;
    assert Pow10(13) == 10_000_000_000_000;
    assert Pow10(14) == 100_000_000_000_000;
    assert Pow10(15) == 1_000_000_000_000_000;
    assert Pow10(16) == 10_000_000_000_000_000;
    assert Pow10(17) == 100_000_000_000_000_000;
  }

  function PadLeft(s: string, width: nat): (r: string)
    ensures |r| == if |s| < width then width else |s|
  {
    if |s| < width then Zeros(width - |s|) + s else s
  }

  function PadRight(s: string, width: nat): (r: string)
    ensures |r| == if |s| < width then width else |s|
  {
    if |s| < width then s + Zeros(width - |s|) else s
  }

  /** The string without its trailing '0' characters. */
  function StripTrailingZeros(s: string): (r: string)
    ensures |r| <= |s| && r == s[..|r|]
    ensures r == [] || r[|r| - 1] != '0'
    ensures forall i :: |r| <= i < |s| ==> s[i] == '0'
  {
    if s == [] || s[|s| - 1] != '0' then s else StripTrailingZeros(s[..|s| - 1])
  }

  /** The fraction shown by formatEther: trailing zeros dropped, but never empty. */
  function FractionText(padded: string): string {
    var t := StripTrailingZeros(padded);
    if t == [] then "0" else t
  }

  /** formatEther: whole ether, '.', then the significant fraction digits ("1.5", "0.0"). */
  function FormatEther(wei: nat): string {
    NatToDigits(wei / WEI_PER_ETHER) + "." + FractionText(PadLeft(NatToDigits(wei % WEI_PER_ETHER), DECIMALS))
  }

  /**
   * A value shown through formatEther, held as the base units it shows:
   * Text() is the displayed string, and FormatThenParse makes the two
   * interchangeable.
   */
  datatype EtherText = EtherText(wei: nat) {
    function Text(): string {
      FormatEther(wei)
    }
  }

  /** What formatEther throws when handed a missing value. */
  const FORMAT_FAULT: JsError := JsError(true, "invalid BigNumber value", "INVALID_ARGUMENT")

  /** What parseEther throws on text it cannot read. */
  const DECIMAL_FAULT: JsError := JsError(true, "invalid decimal value", "INVALID_ARGUMENT")

  /** formatEther on a field the contract may leave out, with no fallback: a missing value throws. */
  function FormatField(f: Option<nat>): (r: Result<EtherText, JsError>)
    ensures r.Success? <==> f.Some?
    ensures r.Success? ==> r.value.wei == f.value
  {
    match f
    case None => Failure(FORMAT_FAULT)
    case Some(wei) => Success(EtherText(wei))
  }

  /** What formatEther produced from a present field reads back as that field. */
  lemma FormatFieldParses(f: Option<nat>)
    requires f.Some?
    ensures FormatField(f).Success? && ParseEther(FormatField(f).value.Text()) == Some(f.value as int)
  {
    FormatThenParse(f.value);
  }

  predicate IsDecimalChar(c: char) {
    IsDigit(c) || c == '.'
  }

  predicate DecimalChars(s: string) {
    forall i :: 0 <= i < |s| ==> IsDecimalChar(s[i])
  }

  /** The text after an optional leading '-'. */
  function Unsigned(s: string): string {
    if s != [] && s[0] == '-' then s[1..] else s
  }

  /** The shape parseEther accepts before splitting: /^-?[0-9.]+$/ */
  predicate MatchesDecimalPattern(s: string) {
    Unsigned(s) != [] && DecimalChars(Unsigned(s))
  }

  function CountDots(s: string): nat {
    if s == [] then 0 else (if s[0] == '.' then 1 else 0) + CountDots(s[1..])
  }

  /** The text before the first '.', or all of it. */
  function BeforeDot(s: string): string {
    if s == [] || s[0] == '.' then [] else [s[0]] + BeforeDot(s[1..])
  }

  /** The text after the first '.', or "" when there is none. */
  function AfterDot(s: string): string {
    if s == [] then [] else if s[0] == '.' then s[1..] else AfterDot(s[1..])
  }

  /**
   * parseEther: None where ethers throws (not the decimal pattern, a lone '.',
   * two dots, more than 18 significant fraction digits); otherwise the signed
   * base-unit value.
   */
  function ParseEther(s: string): Option<int> {
    if !MatchesDecimalPattern(s) then None
    else match ParseUnsigned(Unsigned(s))
      case None => None
      case Some(wei) => var v: int := wei; Some(if s[0] == '-' then -v else v)
  }

  /** The unsigned part of parseEther: whole ether, then at most 18 significant fraction digits. */
  function ParseUnsigned(body: string): Option<nat>
    requires DecimalChars(body)
  {
    if body == "." || CountDots(body) > 1 then None
    else
      var whole := BeforeDot(body);
      var fraction := StripTrailingZeros(AfterDot(body));
      if |fraction| > DECIMALS then None
      else
        assert AllDigits(whole) && AllDigits(fraction) by { PartsAreDigits(body); }
        Some(DigitsValue(whole) * WEI_PER_ETHER + DigitsValue(PadRight(fraction, DECIMALS)))
  }

  lemma {:induction false} NoDotsAllDigits(s: string)
    requires DecimalChars(s) && CountDots(s) == 0
    ensures AllDigits(s)
  {
    if s != [] {
      NoDotsAllDigits(s[1..]);
    }
  }

  /** With at most one dot, both sides of it are digit strings. */
  lemma {:induction false} PartsAreDigits(s: string)
    requires DecimalChars(s) && CountDots(s) <= 1
    ensures AllDigits(BeforeDot(s)) && AllDigits(AfterDot(s))
    ensures AllDigits(StripTrailingZeros(AfterDot(s)))
  {
    if s != [] {
      if s[0] == '.' {
        NoDotsAllDigits(s[1..]);
      } else {
        PartsAreDigits(s[1..]);
      }
    }
  }

  lemma {:induction false} DigitsHaveNoDots(s: string)
    requires AllDigits(s)
    ensures CountDots(s) == 0
  {
    if s != [] {
      DigitsHaveNoDots(s[1..]);
    }
  }

  /** Splitting "w.f" at its dot gives back w and f. */
  lemma {:induction false} SplitAtDot(w: string, f: string)
    requires AllDigits(w) && AllDigits(f)
    ensures BeforeDot(w + "." + f) == w && AfterDot(w + "." + f) == f
    ensures CountDots(w + "." + f) == 1
  {
    if w == [] {
      assert w + "." + f == ['.'] + f;
      assert (['.'] + f)[1..] == f;
      DigitsHaveNoDots(f);
    } else {
      assert (w + "." + f)[1..] == w[1..] + "." + f;
      SplitAtDot(w[1..], f);
    }
  }

  /** Stripping trailing zeros and padding back to the same width restores the string. */
  lemma {:induction false} StripThenPad(s: string)
    ensures PadRight(StripTrailingZeros(s), |s|) == s
  {
    if s != [] && s[|s| - 1] == '0' {
      var s' := s[..|s| - 1];
      var t := StripTrailingZeros(s');
      StripThenPad(s');
      assert s == s' + ['0'];
      if |t| < |s'| {
        assert t + Zeros(|s| - |t|) == (t + Zeros(|s'| - |t|)) + ['0'];
      } else {
        assert t == s';
        assert Zeros(1) == ['0'];
      }
    }
  }

  lemma AllZerosValue(s: string)
    requires forall i :: 0 <= i < |s| ==> s[i] == '0'
    ensures AllDigits(s) && DigitsValue(s) == 0
  {
    assert s == Zeros(|s|);
    ZerosValue(|s|);
  }

  /** The padded fraction digits of a remainder below 10^18 read back as that remainder. */
  lemma PaddedRemainder(r: nat)
    requires r < WEI_PER_ETHER
    ensures var p := PadLeft(NatToDigits(r), DECIMALS);
      |p| == DECIMALS && AllDigits(p) && DigitsValue(p) == r
  {
    NatToDigitsCorrect(r);
    WeiIsPow10();
    NatToDigitsLength(r, DECIMALS);
    var d := NatToDigits(r);
    if |d| < DECIMALS {
      LeadingZerosValue(DECIMALS - |d|, d);
    }
  }

  /** The display form of a fraction, padded back to 18 digits, keeps the fraction's value. */
  lemma FractionRoundTrip(p: string)
    requires |p| == DECIMALS && AllDigits(p)
    ensures var f := StripTrailingZeros(FractionText(p));
      |f| <= DECIMALS && AllDigits(f) && AllDigits(FractionText(p))
      && DigitsValue(PadRight(f, DECIMALS)) == DigitsValue(p)
  {
    var t := StripTrailingZeros(p);
    if t == [] {
      assert StripTrailingZeros("0") == [];
      AllZerosValue(p);
      ZerosValue(DECIMALS);
      assert PadRight([], DECIMALS) == Zeros(DECIMALS);
    } else {
      assert StripTrailingZeros(t) == t;
      StripThenPad(p);
    }
  }

  /** Formatting base units and parsing the display string back loses nothing. */
  lemma FormatThenParse(wei: nat)
    ensures ParseEther(FormatEther(wei)) == Some(wei)
  {
    var q, r := wei / WEI_PER_ETHER, wei % WEI_PER_ETHER;
    var w := NatToDigits(q);
    var f := FractionText(PadLeft(NatToDigits(r), DECIMALS));
    var s := w + "." + f;
    assert FormatEther(wei) == s;
    NatToDigitsCorrect(q);
    FractionValue(r);
    SplitWei(wei);
    ParseDotted(w, f, wei);
    assert ParseEther(s) == Some(wei as int);
  }

  /** The fraction formatEther shows for a remainder reads back as that remainder. */
  lemma FractionValue(r: nat)
    requires r < WEI_PER_ETHER
    ensures var f := FractionText(PadLeft(NatToDigits(r), DECIMALS));
      && AllDigits(f) && |StripTrailingZeros(f)| <= DECIMALS && AllDigits(StripTrailingZeros(f))
      && DigitsValue(PadRight(StripTrailingZeros(f), DECIMALS)) == r
  {
    PaddedRemainder(r);
    FractionRoundTrip(PadLeft(NatToDigits(r), DECIMALS));
  }

  lemma SplitWei(wei: nat)
    ensures wei == (wei / WEI_PER_ETHER) * WEI_PER_ETHER + wei % WEI_PER_ETHER
  {
  }

  /** parseEther on "w.f" with digit strings w (non-empty) and f: w ether plus f as the fraction. */
  lemma ParseDotted(w: string, f: string, v: int)
    requires AllDigits(w) && |w| >= 1 && AllDigits(f)
    requires |StripTrailingZeros(f)| <= DECIMALS && AllDigits(StripTrailingZeros(f))
    requires v == DigitsValue(w) * WEI_PER_ETHER + DigitsValue(PadRight(StripTrailingZeros(f), DECIMALS))
    ensures ParseEther(w + "." + f) == Some(v)
  {
    var s := w + "." + f;
    FormatShape(w, f);
    SplitAtDot(w, f);
    assert s[0] == w[0] && IsDigit(w[0]);
    ParseUnsignedValue(s, w, f);
  }

  /** parseEther's unsigned part on a body that splits at its one dot into w and f. */
  lemma ParseUnsignedValue(body: string, w: string, f: string)
    requires DecimalChars(body) && body != "." && CountDots(body) == 1
    requires BeforeDot(body) == w && AfterDot(body) == f && AllDigits(w)
    requires |StripTrailingZeros(f)| <= DECIMALS && AllDigits(StripTrailingZeros(f))
    ensures ParseUnsigned(body)
         == Some(DigitsValue(w) * WEI_PER_ETHER + DigitsValue(PadRight(StripTrailingZeros(f), DECIMALS)))
  {
  }

  lemma FormatShape(w: string, f: string)
    requires AllDigits(w) && |w| >= 1 && AllDigits(f)
    ensures Unsigned(w + "." + f) == w + "." + f
    ensures MatchesDecimalPattern(w + "." + f) && w + "." + f != "."
  {
    var s := w + "." + f;
    assert s[0] == w[0];
    forall i | 0 <= i < |s| ensures IsDecimalChar(s[i]) {
      if i < |w| { assert s[i] == w[i]; }
      else if i > |w| { assert s[i] == f[i - |w| - 1]; }
    }
  }

  /** parseEther("1.5") is 1.5 * 10^18 base units. */
  lemma OnePointFive()
    ensures ParseEther("1.5") == Some(1_500_000_000_000_000_000)
  {
    var w, f := "1", "5";
    assert "1.5" == w + "." + f;
    assert StripTrailingZeros(f) == f;
    assert DigitsValue(w) == 1 by { assert w[..0] == []; }
    assert DigitsValue(f) == 5 by { assert f[..0] == []; }
    assert PadRight(f, DECIMALS) == f + Zeros(17);
    DigitsValueConcat(f, Zeros(17));
    ZerosValue(17);
    WeiIsPow10();
    ParseDotted(w, f, 1_500_000_000_000_000_000);
  }

  /** The sign of parseFloat(s): NaN when no numeric prefix can be read. */
  datatype FloatSign = NotANumber | Zero | Positive | Negative

  function SkipWhitespace(s: string): (r: string)
    ensures |r| <= |s|
  {
    if s != [] && IsWhitespace(s[0]) then SkipWhitespace(s[1..]) else s
  }

  /** The longest prefix of decimal digits. */
  function DigitPrefix(s: string): (r: string)
    ensures |r| <= |s| && r == s[..|r|] && AllDigits(r)
  {
    if s != [] && IsDigit(s[0]) then [s[0]] + DigitPrefix(s[1..]) else []
  }

  predicate AllZeroDigits(s: string) {
    forall i :: 0 <= i < |s| ==> s[i] == '0'
  }

  /** The sign of an unsigned decimal literal prefix: digits, optionally '.' and digits. */
  function MantissaSign(t: string): FloatSign {
    if StartsWith(t, "Infinity") then Positive
    else
      var whole := DigitPrefix(t);
      var rest := t[|whole|..];
      var fraction := if rest != [] && rest[0] == '.' then DigitPrefix(rest[1..]) else [];
      if whole == [] && fraction == [] then NotANumber
      else if AllZeroDigits(whole) && AllZeroDigits(fraction) then Zero
      else Positive
  }

  /**
   * parseFloat(s): leading whitespace skipped, an optional sign, then the longest
   * numeric prefix; negative zero counts as Zero since the guards compare with <= 0.
   */
  function ParseFloatSign(s: string): FloatSign {
    var t := SkipWhitespace(s);
    if t != [] && (t[0] == '-' || t[0] == '+') then
      var m := MantissaSign(t[1..]);
      if t[0] == '-' && m == Positive then Negative else m
    else MantissaSign(t)
  }

  /** `parseFloat(s) <= 0`; false for NaN, which lets such text through the guard. */
  predicate ParsesNonPositive(s: string) {
    var sign := ParseFloatSign(s);
    sign == Zero || sign == Negative
  }
}
