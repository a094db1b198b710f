/** Token amounts: seven-decimal strings in the console and the service, and the two halves of a
    128-bit integer on the wire. */
module Amounts {
  import opened Basics
  import opened Decimal

  // ── base units as a decimal amount ─────────────────────────────────

  const UNIT: nat := 10_000_000

  /** Drops the zeros at the end. */
  function TrimZeros(s: string): (r: string)
    ensures |r| <= |s| && r == s[..|r|]
  {
    if s != "" && s[|s| - 1] == '0' then TrimZeros(s[..|s| - 1]) else s
  }

  function Fraction(remainder: nat): string {
    if remainder == 0 then "" else "." + TrimZeros(Padded(remainder, 7))
  }

  function Units(base: int): string {
    if base == 0 then "0"
    else
      var n := if base < 0 then -base else base;
      (if base < 0 then "-" else "") + Show(n / UNIT) + Fraction(n % UNIT)
  }

  /** formatUnits: the quotient, then the remainder padded to seven digits and trimmed. */
  method FormatUnits(base: int) returns (s: string)
    ensures s == Units(base)
  {
    if base == 0 { return "0"; }
    var n := if base < 0 then -base else base;
    var whole, remainder := n / UNIT, n % UNIT;
    s := Show(whole);
    var fraction := FormatFraction(remainder);
    s := s + fraction;
    if base < 0 { s := "-" + s; }
    Regroup(if base < 0 then "-" else "", Show(whole), fraction);
  }

  method FormatFraction(remainder: nat) returns (s: string)
    requires remainder < UNIT
    ensures s == Fraction(remainder)
  {
    if remainder == 0 { return ""; }
    assert Pow10(7) == UNIT;
    ShowIsShort(remainder, 7);
    var fraction := Zeros(7 - |Show(remainder)|) + Show(remainder);
    assert fraction == Padded(remainder, 7) by { assert Zeros(0) + Show(remainder) == Show(remainder); }
    while fraction != "" && fraction[|fraction| - 1] == '0'
      invariant TrimZeros(fraction) == TrimZeros(Padded(remainder, 7))
      decreases |fraction|
    {
      fraction := fraction[..|fraction| - 1];
    }
    s := "." + fraction;
  }

  // ── a decimal amount as base units ─────────────────────────────────

  /** Where the digits stop, from i on. */
  function DigitsEnd(s: string, i: nat): (e: nat)
    requires i <= |s|
    ensures i <= e <= |s|
    decreases |s| - i
  {
    if i < |s| && IsDigit(s[i]) then DigitsEnd(s, i + 1) else i
  }

  datatype AmountError = NotADecimal | TooManyDecimals(allowed: int)

  /** The groups of ^(\d+)(?:\.(\d+))?$ ; without a dot the second one is empty. */
  function Match(s: string): Option<(string, string)> {
    var e := DigitsEnd(s, 0);
    if e == 0 then None
    else if e == |s| then Some((s[..e], ""))
    else if s[e] == '.' && e + 1 < |s| && DigitsEnd(s, e + 1) == |s| then Some((s[..e], s[e + 1..]))
    else None
  }

  /** decimalToBaseUnits on trimmed input. */
  function ToBaseUnits(input: string, decimals: int): Result<string, AmountError> { FromGroups(Match(input), decimals) }

  function FromGroups(m: Option<(string, string)>, decimals: int): Result<string, AmountError> {
    if m.None? || decimals < 0 || decimals > 18 then Err(NotADecimal)
    else if |m.value.1| > decimals then Err(TooManyDecimals(decimals))
    else
      var padded := m.value.1 + Zeros(decimals - |m.value.1|);
      var fractional := if padded == "" then "0" else padded;
      Ok(Show(Value(m.value.0) * Pow10(decimals) + Value(fractional)))
  }

  // ── round trips ────────────────────────────────────────────────────

  lemma {:induction false} DigitsEndIs(s: string, i: nat, e: nat)
    requires i <= e <= |s|
    ensures DigitsEnd(s, i) == e <==> (forall j :: i <= j < e ==> IsDigit(s[j])) && (e < |s| ==> !IsDigit(s[e]))
    decreases |s| - i
  {
    if i < e && IsDigit(s[i]) { DigitsEndIs(s, i + 1, e); }
    if i == e && i < |s| && IsDigit(s[i]) { assert DigitsEnd(s, i) >= i + 1; }
  }

  /** The pattern accepts a digit string, with or without a dot and a second one, and nothing else. */
  lemma MatchIff(s: string, a: string, b: string)
    ensures Match(s) == Some((a, b)) <==>
            && a != "" && AllDigits(a) && AllDigits(b)
            && s == if b == "" then a else a + "." + b
  {
    if a != "" && AllDigits(a) && AllDigits(b) && s == (if b == "" then a else a + "." + b) {
      assert s[..|a|] == a;
      DigitsEndIs(s, 0, |a|);
      if b != "" {
        assert s[|a|] == '.' && s[|a| + 1..] == b;
        DigitsEndIs(s, |a| + 1, |s|);
      }
    }
    if Match(s) == Some((a, b)) { MatchedText(s, a, b); }
  }

  lemma MatchedText(s: string, a: string, b: string)
    requires Match(s) == Some((a, b))
    ensures a != "" && AllDigits(a) && AllDigits(b) && s == if b == "" then a else a + "." + b
  {
    var e := DigitsEnd(s, 0);
    DigitsEndIs(s, 0, e);
    forall j | 0 <= j < |a| ensures IsDigit(a[j]) { assert a[j] == s[j]; }
    if e < |s| {
      DigitsEndIs(s, e + 1, |s|);
      forall j | 0 <= j < |b| ensures IsDigit(b[j]) { assert b[j] == s[e + 1 + j]; }
      assert s == s[..e] + [s[e]] + s[e + 1..];
    } else {
      assert s[..e] == s;
    }
  }

  /** Zeros that were trimmed come back by padding. */
  lemma {:induction false} TrimThenPad(s: string, k: nat)
    requires |s| == k
    ensures TrimZeros(s) + Zeros(k - |TrimZeros(s)|) == s
  {
    if s != "" && s[k - 1] == '0' {
      TrimThenPad(s[..k - 1], k - 1);
      var t := TrimZeros(s);
      assert Zeros(k - |t|) == Zeros(k - 1 - |t|) + "0";
      assert t + Zeros(k - |t|) == t + Zeros(k - 1 - |t|) + "0";
    } else {
      assert s + Zeros(0) == s;
    }
  }

  lemma TrimIsNotEmpty(n: nat)
    requires 0 < n < UNIT
    ensures |Padded(n, 7)| == 7
    ensures var t := TrimZeros(Padded(n, 7));
            t != "" && AllDigits(t) && |t| <= 7 && Value(t + Zeros(7 - |t|)) == n
  {
    assert Pow10(7) == UNIT;
    PaddedReads(n, 7);
    TrimThenPad(Padded(n, 7), 7);
    ZerosAreZero(7);
    assert "" + Zeros(7) == Zeros(7);
  }

  /** Two groups with these values. */
  lemma GroupsAre(a: string, b: string, whole: nat, remainder: nat)
    requires |b| <= 7 && Value(a) == whole && Value(b + Zeros(7 - |b|)) == remainder
    ensures FromGroups(Some((a, b)), 7) == Ok(Show(whole * UNIT + remainder))
  {
    assert Pow10(7) == UNIT;
    assert b + Zeros(7 - |b|) != "";
  }

  lemma NoFraction()
    ensures Value("" + Zeros(7 - |""|)) == 0
  {
    ZerosAreZero(7);
    assert "" + Zeros(7) == Zeros(7);
  }

  lemma WholeReadsBack(whole: nat)
    ensures ToBaseUnits(Show(whole), 7) == Ok(Show(whole * UNIT + 0))
  {
    var text := Show(whole);
    ShowThenRead(whole);
    ShowIsDigits(whole);
    NoFraction();
    MatchIff(text, text, "");
    GroupsAre(text, "", whole, 0);
  }

  lemma FractionReadsBack(whole: nat, remainder: nat, t: string)
    requires t != "" && AllDigits(t) && |t| <= 7 && Value(t + Zeros(7 - |t|)) == remainder
    ensures ToBaseUnits(Show(whole) + "." + t, 7) == Ok(Show(whole * UNIT + remainder))
  {
    var text := Show(whole);
    ShowThenRead(whole);
    ShowIsDigits(whole);
    MatchIff(text + "." + t, text, t);
    GroupsAre(text, t, whole, remainder);
  }

  lemma MinusIsNoDecimal(s: string)
    requires s != "" && s[0] == '-'
    ensures ToBaseUnits(s, 7) == Err(NotADecimal)
  {
  }

  lemma FractionText(whole: string, remainder: nat)
    ensures remainder == 0 ==> whole + Fraction(remainder) == whole
    ensures remainder != 0 ==> whole + Fraction(remainder) == whole + "." + TrimZeros(Padded(remainder, 7))
  {
    Regroup(whole, ".", TrimZeros(Padded(remainder, 7)));
  }

  lemma PartsReadBack(whole: nat, remainder: nat)
    requires remainder < UNIT
    ensures ToBaseUnits(Show(whole) + Fraction(remainder), 7) == Ok(Show(whole * UNIT + remainder))
  {
    FractionText(Show(whole), remainder);
    if remainder == 0 {
      WholeReadsBack(whole);
    } else {
      TrimIsNotEmpty(remainder);
      FractionReadsBack(whole, remainder, TrimZeros(Padded(remainder, 7)));
    }
  }

  lemma UnitsOf(n: nat, whole: nat, remainder: nat)
    requires n == whole * UNIT + remainder && remainder < UNIT
    ensures Units(n) == Show(whole) + Fraction(remainder)
  {
    assert n / UNIT == whole && n % UNIT == remainder;
    if n == 0 {
      assert Show(0) + "" == Show(0) == "0";
    } else {
      Regroup("", Show(whole), Fraction(remainder));
    }
  }

  /** What the service writes the console reads back, for every amount; a negative one is refused. */
  lemma UnitsReadBack(n: int)
    ensures ToBaseUnits(Units(n), 7) == if n >= 0 then Ok(Show(n)) else Err(NotADecimal)
  {
    if n < 0 {
      MinusIsNoDecimal(Units(n));
    } else {
      var whole, remainder := n / UNIT, n % UNIT;
      UnitsOf(n, whole, remainder);
      PartsReadBack(whole, remainder);
    }
  }

  /** Whatever decimal the console accepts, the service writes the same amount for it. */
  lemma AcceptedAmountsKeepTheirValue(input: string)
    requires ToBaseUnits(input, 7).Ok?
    ensures var n := Value(ToBaseUnits(input, 7).value);
            AllDigits(ToBaseUnits(input, 7).value) && ToBaseUnits(Units(n), 7) == ToBaseUnits(input, 7)
  {
    var m := Match(input);
    var padded := m.value.1 + Zeros(7 - |m.value.1|);
    ShowIsDigits(Value(m.value.0) * Pow10(7) + Value(if padded == "" then "0" else padded));
    ShowThenRead(Value(m.value.0) * Pow10(7) + Value(if padded == "" then "0" else padded));
    UnitsReadBack(Value(ToBaseUnits(input, 7).value));
  }

  // ── the console's two-decimal display ──────────────────────────────

  /** Hundredths, rounded half up on the absolute value. */
  function Hundredths(base: int): nat { ((if base < 0 then -base else base) + 50_000) / 100_000 }

  /** fmtUnits; `group` writes the whole part as the reader's locale does. */
  function FmtUnits(base: int, group: nat -> string): string {
    (if base < 0 then "-" else "") + group(Hundredths(base) / 100) + "." + Padded(Hundredths(base) % 100, 2)
  }

  /** The number of hundredths is never more than half a hundredth off, and exact on whole ones. */
  lemma RoundingIsNearest(base: int)
    ensures var shown := (if base < 0 then -1 else 1) * Hundredths(base) * 100_000;
            && -50_000 <= shown - base <= 50_000
            && (base % 100_000 == 0 ==> shown == base)
  {
  }

  lemma FractionReads(hundredths: nat)
    requires hundredths < 100
    ensures var t := Padded(hundredths, 2);
            |t| == 2 && AllDigits(t) && Value(t + Zeros(5)) == hundredths * 100_000
  {
    assert Pow10(2) == 100 && Pow10(5) == 100_000;
    PaddedReads(hundredths, 2);
    ZerosAreZero(5);
    ValueOfConcat(Padded(hundredths, 2), Zeros(5));
  }

  lemma PlainReadsBack(hundredths: nat)
    ensures ToBaseUnits(Show(hundredths / 100) + "." + Padded(hundredths % 100, 2), 7) == Ok(Show(hundredths * 100_000))
  {
    var whole, part := hundredths / 100, hundredths % 100;
    FractionReads(part);
    FractionReadsBack(whole, part * 100_000, Padded(part, 2));
    assert whole * UNIT + part * 100_000 == hundredths * 100_000;
  }

  /** The text that is displayed, read back as an amount, is that rounding: without grouping, and but
      for the sign, it is a decimal that stands for the nearest whole hundredth. */
  lemma DisplayReadsBack(base: int)
    ensures var text := FmtUnits(base, Show);
            var digits := if base < 0 then text[1..] else text;
            && (base < 0 ==> text[0] == '-')
            && ToBaseUnits(digits, 7) == Ok(Show(Hundredths(base) * 100_000))
  {
    PlainReadsBack(Hundredths(base));
    DisplayIs(base, Show);
  }

  lemma DisplayIs(base: int, group: nat -> string)
    ensures var plain := group(Hundredths(base) / 100) + "." + Padded(Hundredths(base) % 100, 2);
            FmtUnits(base, group) == (if base < 0 then "-" + plain else plain)
  {
    SignedText(if base < 0 then "-" else "", group(Hundredths(base) / 100), Padded(Hundredths(base) % 100, 2));
  }

  lemma SignedText(sign: string, whole: string, part: string)
    requires |sign| <= 1
    ensures var text := sign + whole + "." + part;
            sign + whole + "." + part == sign + (whole + "." + part) && text[|sign|..] == whole + "." + part
  {
    assert sign + whole + "." + part == sign + (whole + "." + part);
  }

  /** With any grouping, the text shows the sign, the grouped whole part and two digits; so two amounts
      look the same exactly if they have the same sign and the same hundredths. */
  lemma SameDisplayIff(a: int, b: int, group: nat -> string)
    requires forall m: nat, n: nat :: group(m) == group(n) ==> m == n
    requires forall n: nat :: group(n) != "" && group(n)[0] != '-'
    ensures FmtUnits(a, group) == FmtUnits(b, group) <==> (a < 0 <==> b < 0) && Hundredths(a) == Hundredths(b)
  {
    var m, n := Hundredths(a) / 100, Hundredths(b) / 100;
    var p, q := Padded(Hundredths(a) % 100, 2), Padded(Hundredths(b) % 100, 2);
    FractionReads(Hundredths(a) % 100);
    FractionReads(Hundredths(b) % 100);
    assert Pow10(2) == 100;
    PaddedReads(Hundredths(a) % 100, 2);
    PaddedReads(Hundredths(b) % 100, 2);
    SignedText(if a < 0 then "-" else "", group(m), p);
    SignedText(if b < 0 then "-" else "", group(n), q);
    if FmtUnits(a, group) == FmtUnits(b, group) {
      assert FmtUnits(a, group)[0] == (if a < 0 then '-' else group(m)[0]);
      assert FmtUnits(b, group)[0] == (if b < 0 then '-' else group(n)[0]);
      SplitOff(group(m), p, group(n), q);
    }
  }

  lemma SplitOff(a: string, p: string, b: string, q: string)
    requires |p| == |q| && a + "." + p == b + "." + q
    ensures a == b && p == q
  {
    assert |a| == |b|;
    assert (a + "." + p)[..|a|] == a && (b + "." + q)[..|b|] == b;
    assert (a + "." + p)[|a| + 1..] == p && (b + "." + q)[|b| + 1..] == q;
  }

  // ── i128 on the wire ───────────────────────────────────────────────

  const TWO64: int := 0x1_0000_0000_0000_0000
  const TWO128: int := TWO64 * TWO64

  type i64 = n: int | I64_MIN <= n <= I64_MAX

  datatype Parts = Parts(hi: i64, lo: u64)

  /** A 64-bit word read as a signed number. */
  function Signed64(word: u64): i64 { if word > I64_MAX then word - TWO64 else word }

  /** Two's complement by a Euclidean remainder, split into words; None out of range. */
  function ScI128(v: int): Option<Parts> {
    if v < I128_MIN || v > I128_MAX then None
    else
      var n := v % TWO128;
      assert 0 <= n / TWO64 <= U64_MAX;
      Some(Parts(Signed64(n / TWO64), n % TWO64))
  }

  function I128ToBig(p: Parts): int { p.hi * TWO64 + p.lo }

  /** Encoding succeeds exactly on the i128 range and loses nothing. */
  lemma I128RoundTrip(v: int)
    ensures ScI128(v).Some? <==> I128_MIN <= v <= I128_MAX
    ensures ScI128(v).Some? ==> I128ToBig(ScI128(v).value) == v
  {
  }

  /** Every pair of words is the encoding of exactly one number. */
  lemma PartsRoundTrip(p: Parts)
    ensures ScI128(I128ToBig(p)) == Some(p)
  {
    var v := I128ToBig(p);
    if p.hi >= 0 {
      assert v % TWO128 == v;
    } else {
      assert v % TWO128 == v + TWO128;
    }
  }
}
