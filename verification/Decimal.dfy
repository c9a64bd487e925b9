/** Decimal text: printing and parsing naturals, and the scaled price/quantity strings. */
module Decimals {
  import opened Base

  predicate IsDigit(c: char) { '0' <= c <= '9' }

  predicate AllDigits(s: string) { forall i :: 0 <= i < |s| ==> IsDigit(s[i]) }

  function DigitValue(c: char): nat
    requires IsDigit(c)
  {
    c as int - '0' as int
  }

  function DigitChar(d: nat): (c: char)
    requires d < 10
    ensures IsDigit(c) && DigitValue(c) == d
  {
    ('0' as int + d) as char
  }

  /** The number a digit string spells. */
  function DigitsValue(s: string): nat
    requires AllDigits(s)
  {
    if s == "" then 0 else 10 * DigitsValue(s[..|s| - 1]) + DigitValue(s[|s| - 1])
  }

  /** Shortest decimal text of a natural number. */
  function NatToString(n: nat): (s: string)
    ensures |s| > 0 && AllDigits(s) && DigitsValue(s) == n
    ensures n > 0 ==> s[0] != '0'
  {
    if n < 10 then
      assert [DigitChar(n)][..0] == "";
      [DigitChar(n)]
    else
      var s := NatToString(n / 10) + [DigitChar(n % 10)];
      assert s[..|s| - 1] == NatToString(n / 10);
      s
  }

  lemma NatToStringInjective(m: nat, n: nat)
    ensures NatToString(m) == NatToString(n) ==> m == n
  {
  }

  /** Exactly width digits, zero padded on the left. */
  function Padded(n: nat, width: nat): (s: string)
    requires n < Pow10(width)
    ensures |s| == width && AllDigits(s) && DigitsValue(s) == n
  {
    if width == 0 then ""
    else
      var s := Padded(n / 10, width - 1) + [DigitChar(n % 10)];
      assert s[..|s| - 1] == Padded(n / 10, width - 1);
      s
  }

  lemma {:induction false} DigitsValueBound(s: string)
    requires AllDigits(s)
    ensures DigitsValue(s) < Pow10(|s|)
  {
    if s != "" { DigitsValueBound(s[..|s| - 1]); }
  }

  /** Unsigned parse: digits only, at least one, at most the bound. */
  function ParseNat(s: string, bound: nat): Option<nat> {
    if s == "" || !AllDigits(s) || DigitsValue(s) > bound then None else Some(DigitsValue(s))
  }

  lemma ParseNatInverts(n: nat, bound: nat)
    requires n <= bound
    ensures ParseNat(NatToString(n), bound) == Some(n)
  {
  }

  // ----- scaled decimals

  datatype DecimalError = InvalidDecimal | ScaleExceeded(digits: nat, scale: nat) | DecimalOverflow

  predicate IsSpace(c: char) {
    var x := c as int;
    9 <= x <= 13 || x == 32 || x == 0x85 || x == 0xA0 || x == 0x1680 || 0x2000 <= x <= 0x200A
    || x == 0x2028 || x == 0x2029 || x == 0x202F || x == 0x205F || x == 0x3000
  }

  function Trim(s: string): string {
    if s == "" then s
    else if IsSpace(s[0]) then Trim(s[1..])
    else if IsSpace(s[|s| - 1]) then Trim(s[..|s| - 1])
    else s
  }

  /** Position of the first occurrence of c, or the length. */
  function IndexOf(s: string, c: char): (k: nat)
    ensures k <= |s| && c !in s[..k] && (k < |s| ==> s[k] == c)
  {
    if s == "" || s[0] == c then 0
    else
      var k := IndexOf(s[1..], c);
      assert s[..k + 1] == [s[0]] + s[1..][..k];
      k + 1
  }

  /** frac multiplied by ten pad times, None when a step leaves 64 bits. */
  function PadFraction(frac: int, pad: nat): Option<int>
    decreases pad
  {
    if pad == 0 then Some(frac)
    else if !FitsI64(frac * 10) then None
    else PadFraction(frac * 10, pad - 1)
  }

  function ParseParts(sign: int, whole: string, frac: string, scale: nat): Result<int, DecimalError> {
    if whole == "" || !AllDigits(whole) then Err(InvalidDecimal)
    else if !AllDigits(frac) then Err(InvalidDecimal)
    else if |frac| > scale then Err(ScaleExceeded(|frac|, scale))
    else if DigitsValue(whole) > I64_MAX then Err(InvalidDecimal)
    else if !FitsI64(Pow10(scale)) then Err(DecimalOverflow)
    else if !FitsI64(DigitsValue(whole) * Pow10(scale)) then Err(DecimalOverflow)
    else if DigitsValue(frac) > I64_MAX then Err(InvalidDecimal)
    else match PadFraction(DigitsValue(frac), scale - |frac|)
      case None => Err(DecimalOverflow)
      case Some(padded) =>
        var abs := DigitsValue(whole) * Pow10(scale) + padded;
        if !FitsI64(abs) || !FitsI64(abs * sign) then Err(DecimalOverflow) else Ok(abs * sign)
  }

  function SplitAndParse(sign: int, rest: string, scale: nat): Result<int, DecimalError> {
    if rest == "" then Err(InvalidDecimal)
    else
      var dot := IndexOf(rest, '.');
      ParseParts(sign, rest[..dot], if dot < |rest| then rest[dot + 1..] else "", scale)
  }

  function ParseScaled(text: string, scale: nat): Result<int, DecimalError> {
    var s := Trim(text);
    if s == "" then Err(InvalidDecimal)
    else if s[0] == '-' then SplitAndParse(-1, s[1..], scale)
    else if s[0] == '+' then SplitAndParse(1, s[1..], scale)
    else SplitAndParse(1, s, scale)
  }

  function FormatScaled(x: int, scale: nat): Result<string, DecimalError> {
    if !FitsI64(Pow10(scale)) then Err(DecimalOverflow)
    else
      var (whole, frac) := Split(Magnitude(x), Pow10(scale));
      Ok((if x < 0 then ['-'] else "") + (NatToString(whole) + (if scale > 0 then ['.'] + Padded(frac, scale) else "")))
  }

  function Magnitude(x: int): nat { if x < 0 then -x else x }

  /** Quotient and remainder by the scale factor. */
  function Split(a: nat, p: nat): (r: (nat, nat))
    requires p >= 1
    ensures r.0 * p + r.1 == a && r.1 < p
  {
    (a / p, a % p)
  }

  // ----- what is accepted, as a grammar

  datatype Numeral = Numeral(sign: Option<char>, whole: string, frac: Option<string>) {
    predicate Valid(scale: nat) {
      && (sign.Some? ==> sign.value == '-' || sign.value == '+')
      && whole != "" && AllDigits(whole)
      && (frac.Some? ==> AllDigits(frac.value) && |frac.value| <= scale)
    }

    function Tail(): string { if frac.Some? then ['.'] + frac.value else "" }

    function Text(): string { (if sign.Some? then [sign.value] else "") + (whole + Tail()) }

    function FracDigits(): string { frac.GetOr("") }

    function Sign(): int { if sign == Some('-') then -1 else 1 }

    function Value(scale: nat): int
      requires Valid(scale)
    {
      var magnitude := DigitsValue(whole) * Pow10(scale) + DigitsValue(FracDigits()) * Pow10(scale - |FracDigits()|);
      if sign == Some('-') then -magnitude else magnitude
    }
  }

  lemma TenOut(f: int, p: int)
    ensures (f * 10) * p == f * (10 * p)
  {
  }

  lemma {:induction false} PadFractionMeaning(frac: int, pad: nat)
    requires 0 <= frac && frac * Pow10(pad) <= I64_MAX
    ensures PadFraction(frac, pad) == Some(frac * Pow10(pad))
    decreases pad
  {
    if pad > 0 {
      TenOut(frac, Pow10(pad - 1));
      AtMostScaled(frac * 10, Pow10(pad - 1));
      PadFractionMeaning(frac * 10, pad - 1);
    }
  }

  lemma FractionBound(frac: string, scale: nat)
    requires scale <= 18 && AllDigits(frac) && |frac| <= scale
    ensures var f := DigitsValue(frac) * Pow10(scale - |frac|); DigitsValue(frac) <= f <= I64_MAX
  {
    FactorFits(scale);
    DigitsValueBound(frac);
    Pow10Adds(|frac|, scale - |frac|);
    ScaledLess(DigitsValue(frac), Pow10(|frac|), Pow10(scale - |frac|));
    AtMostScaled(DigitsValue(frac), Pow10(scale - |frac|));
  }

  lemma PartsMeaning(sign: int, whole: string, frac: string, scale: nat)
    requires sign == 1 || sign == -1
    requires scale <= 18 && whole != "" && AllDigits(whole) && AllDigits(frac) && |frac| <= scale
    ensures var abs := DigitsValue(whole) * Pow10(scale) + DigitsValue(frac) * Pow10(scale - |frac|);
      && 0 <= abs && (ParseParts(sign, whole, frac, scale).Ok? <==> abs <= I64_MAX)
      && (ParseParts(sign, whole, frac, scale).Ok? ==>
            ParseParts(sign, whole, frac, scale).value == if sign == -1 then -abs else abs)
  {
    FactorFits(scale);
    FractionBound(frac, scale);
    PadFractionMeaning(DigitsValue(frac), scale - |frac|);
    AtMostScaled(DigitsValue(whole), Pow10(scale));
  }

  lemma FactorFits(scale: nat)
    requires scale <= 18
    ensures Pow10(scale) <= 1000000000000000000 <= I64_MAX
  {
    PowersUpTo18();
    Pow10Grows(scale, 18);
  }

  lemma NumeralHasNoSpaces(n: Numeral, scale: nat)
    requires n.Valid(scale)
    ensures n.Text() != "" && Trim(n.Text()) == n.Text()
  {
    var t := n.Text();
    assert !IsSpace(t[0]);
    assert !IsSpace(t[|t| - 1]);
  }

  lemma {:induction false} FirstDot(whole: string, tail: string)
    requires AllDigits(whole) && (tail == "" || tail[0] == '.')
    ensures IndexOf(whole + tail, '.') == |whole|
  {
    if whole != "" {
      FirstDot(whole[1..], tail);
      assert (whole + tail)[1..] == whole[1..] + tail;
    } else {
      assert whole + tail == tail;
    }
  }

  lemma SplitParses(sign: int, n: Numeral, scale: nat)
    requires n.Valid(scale)
    ensures SplitAndParse(sign, n.whole + n.Tail(), scale) == ParseParts(sign, n.whole, n.FracDigits(), scale)
  {
    var rest := n.whole + n.Tail();
    FirstDot(n.whole, n.Tail());
    assert rest[..|n.whole|] == n.whole;
    if n.frac.Some? { assert rest[|n.whole| + 1..] == n.frac.value; }
  }

  lemma SignParses(n: Numeral, scale: nat)
    requires n.Valid(scale)
    ensures ParseScaled(n.Text(), scale) == SplitAndParse(n.Sign(), n.whole + n.Tail(), scale)
  {
    NumeralHasNoSpaces(n, scale);
    var rest := n.whole + n.Tail();
    if n.sign.Some? {
      assert n.Text()[1..] == rest;
    } else {
      assert n.Text() == rest;
      assert IsDigit(rest[0]);
    }
  }

  lemma TextParses(n: Numeral, scale: nat)
    requires n.Valid(scale)
    ensures ParseScaled(n.Text(), scale) == ParseParts(n.Sign(), n.whole, n.FracDigits(), scale)
  {
    SignParses(n, scale);
    SplitParses(n.Sign(), n, scale);
  }

  lemma PartsAreValue(n: Numeral, scale: nat)
    requires scale <= 18 && n.Valid(scale)
    ensures var r := ParseParts(n.Sign(), n.whole, n.FracDigits(), scale);
      && (r.Ok? <==> -I64_MAX <= n.Value(scale) <= I64_MAX) && (r.Ok? ==> r.value == n.Value(scale))
  {
    PartsMeaning(n.Sign(), n.whole, n.FracDigits(), scale);
  }

  /** Every numeral of the grammar whose magnitude fits is accepted with exactly its value;
      every other numeral is refused. */
  lemma NumeralParses(n: Numeral, scale: nat)
    requires scale <= 18 && n.Valid(scale)
    ensures ParseScaled(n.Text(), scale).Ok? <==> -I64_MAX <= n.Value(scale) <= I64_MAX
    ensures ParseScaled(n.Text(), scale).Ok? ==> ParseScaled(n.Text(), scale).value == n.Value(scale)
  {
    TextParses(n, scale);
    PartsAreValue(n, scale);
  }

  /** The numeral read off an accepted text. */
  function NumeralOf(s: string): Numeral
    requires s != ""
  {
    var signed := s[0] == '-' || s[0] == '+';
    var rest := if signed then s[1..] else s;
    var dot := IndexOf(rest, '.');
    Numeral(if signed then Some(s[0]) else None, rest[..dot], if dot < |rest| then Some(rest[dot + 1..]) else None)
  }

  lemma NumeralOfText(s: string)
    requires s != ""
    ensures NumeralOf(s).Text() == s
  {
    var n := NumeralOf(s);
    var rest := if n.sign.Some? then s[1..] else s;
    SplitRejoins(rest);
    assert n.whole + n.Tail() == rest;
    if n.sign.Some? { assert [s[0]] + s[1..] == s; }
  }

  lemma SplitRejoins(rest: string)
    ensures var dot := IndexOf(rest, '.');
      rest[..dot] + (if dot < |rest| then ['.'] + rest[dot + 1..] else "") == rest
  {
    CutAt(rest, IndexOf(rest, '.'));
  }

  lemma CutAt(s: string, k: nat)
    requires k <= |s|
    ensures k < |s| ==> s[..k] + ([s[k]] + s[k + 1..]) == s
    ensures k == |s| ==> s[..k] + "" == s
  {
  }

  /** Nothing else is accepted: an accepted string is, once trimmed, a numeral of the grammar. */
  lemma AcceptedIsNumeral(text: string, scale: nat)
    requires scale <= 18 && ParseScaled(text, scale).Ok?
    ensures Trim(text) != ""
    ensures var n := NumeralOf(Trim(text));
      && n.Valid(scale) && n.Text() == Trim(text)
      && ParseScaled(text, scale).value == n.Value(scale)
      && -I64_MAX <= n.Value(scale) <= I64_MAX
  {
    var s := Trim(text);
    var n := NumeralOf(s);
    NumeralOfText(s);
    assert ParseScaled(text, scale) == ParseParts(if s[0] == '-' then -1 else 1, n.whole, n.FracDigits(), scale);
    assert n.Valid(scale);
    NumeralHasNoSpaces(n, scale);
    NumeralParses(n, scale);
  }

  /** The numeral that printing a value spells. */
  function Printed(x: int, scale: nat): Numeral {
    var (whole, frac) := Split(Magnitude(x), Pow10(scale));
    Numeral(if x < 0 then Some('-') else None, NatToString(whole), if scale > 0 then Some(Padded(frac, scale)) else None)
  }

  lemma FormattedIsNumeral(x: int, scale: nat)
    requires scale <= 18
    ensures Printed(x, scale).Valid(scale)
    ensures FormatScaled(x, scale) == Ok(Printed(x, scale).Text())
    ensures Printed(x, scale).Value(scale) == x
  {
    FactorFits(scale);
    var n := Printed(x, scale);
    var (whole, frac) := Split(Magnitude(x), Pow10(scale));
    assert |n.FracDigits()| == scale;
    assert DigitsValue(n.whole) == whole && DigitsValue(n.FracDigits()) == frac;
    assert Pow10(0) == 1;
  }

  /** Printing and parsing a 64-bit value at any scale up to 18 returns it, except for the minimum
      value, whose magnitude does not fit. */
  lemma FormatThenParse(x: int, scale: nat)
    requires FitsI64(x) && scale <= 18
    ensures FormatScaled(x, scale).Ok?
    ensures ParseScaled(FormatScaled(x, scale).value, scale) == Ok(x) <==> x != I64_MIN
  {
    FormattedIsNumeral(x, scale);
    NumeralParses(Printed(x, scale), scale);
  }

  /** Reformatting any accepted string is canonical: the printed form parses to the same value, and
      printing that again changes nothing. */
  lemma ReformatIsCanonical(text: string, scale: nat)
    requires scale <= 18 && ParseScaled(text, scale).Ok?
    ensures var x := ParseScaled(text, scale).value;
      && FitsI64(x) && FormatScaled(x, scale).Ok?
      && ParseScaled(FormatScaled(x, scale).value, scale) == Ok(x)
  {
    AcceptedIsNumeral(text, scale);
    FormatThenParse(ParseScaled(text, scale).value, scale);
  }

  /** The digits of a decimal, with the source's padding loop. */
  method ParseDigitParts(sign: int, whole: string, fracText: string, scale: nat) returns (r: Result<int, DecimalError>)
    ensures r == ParseParts(sign, whole, fracText, scale)
  {
    if whole == "" || !AllDigits(whole) || !AllDigits(fracText) { return Err(InvalidDecimal); }
    if |fracText| > scale { return Err(ScaleExceeded(|fracText|, scale)); }
    var wholeValue, factor := DigitsValue(whole), Pow10(scale);
    if wholeValue > I64_MAX { return Err(InvalidDecimal); }
    if !FitsI64(factor) || !FitsI64(wholeValue * factor) { return Err(DecimalOverflow); }
    var frac: int := DigitsValue(fracText);
    if frac > I64_MAX { return Err(InvalidDecimal); }
    var pad := scale - |fracText|;
    var done := 0;
    while done < pad
      invariant 0 <= done <= pad
      invariant PadFraction(frac, pad - done) == PadFraction(DigitsValue(fracText), pad)
    {
      if !FitsI64(frac * 10) { return Err(DecimalOverflow); }
      frac := frac * 10;
      done := done + 1;
    }
    var abs := wholeValue * factor + frac;
    if !FitsI64(abs) || !FitsI64(abs * sign) { return Err(DecimalOverflow); }
    return Ok(abs * sign);
  }

  /** Trimming, sign and decimal point, then the digits. */
  method ParseDecimal(text: string, scale: nat) returns (r: Result<int, DecimalError>)
    ensures r == ParseScaled(text, scale)
  {
    var s := Trim(text);
    if s == "" { return Err(InvalidDecimal); }
    var sign, rest := 1, s;
    if s[0] == '-' { sign, rest := -1, s[1..]; } else if s[0] == '+' { rest := s[1..]; }
    if rest == "" { return Err(InvalidDecimal); }
    var dot := IndexOf(rest, '.');
    r := ParseDigitParts(sign, rest[..dot], if dot < |rest| then rest[dot + 1..] else "", scale);
  }
}
