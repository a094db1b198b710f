/** Decimal notation of natural numbers, as strconv, fmt, math/big and BigInt write and read it. */
module Decimal {
  predicate IsDigit(c: char) { '0' <= c <= '9' }

  predicate AllDigits(s: string) { forall i :: 0 <= i < |s| ==> IsDigit(s[i]) }

  function Digit(d: nat): (c: char)
    requires d < 10
    ensures IsDigit(c) && DigitValue(c) == d
  {
    ('0' as int + d) as char
  }

  function DigitValue(c: char): nat { if IsDigit(c) then c as int - '0' as int else 0 }

  function Pow10(k: nat): (p: nat)
    ensures p >= 1
  {
    if k == 0 then 1 else 10 * Pow10(k - 1)
  }

  function Show(n: nat): (s: string)
    ensures s != ""
  {
    if n < 10 then [Digit(n)] else Show(n / 10) + [Digit(n % 10)]
  }

  /** The number that a string of digits denotes. */
  function Value(s: string): nat {
    if s == "" then 0 else Value(s[..|s| - 1]) * 10 + DigitValue(s[|s| - 1])
  }

  function Zeros(k: nat): (s: string)
    ensures |s| == k
  {
    seq(k, i => '0')
  }

  lemma {:induction false} ShowIsDigits(n: nat)
    ensures AllDigits(Show(n))
  {
    if n >= 10 { ShowIsDigits(n / 10); }
  }

  lemma ValueOfNext(s: string, c: char)
    ensures Value(s + [c]) == Value(s) * 10 + DigitValue(c)
  {
    assert (s + [c])[..|s|] == s;
  }

  lemma {:induction false} ShowThenRead(n: nat)
    ensures Value(Show(n)) == n
  {
    if n >= 10 {
      ShowThenRead(n / 10);
      ValueOfNext(Show(n / 10), Digit(n % 10));
    } else {
      assert Show(n) == "" + [Digit(n)];
      ValueOfNext("", Digit(n));
    }
  }

  lemma {:induction false} ValueOfConcat(a: string, b: string)
    ensures Value(a + b) == Value(a) * Pow10(|b|) + Value(b)
  {
    if b == "" {
      assert a + b == a;
    } else {
      var front, c := b[..|b| - 1], b[|b| - 1];
      ValueOfConcat(a, front);
      assert a + b == (a + front) + [c] && b == front + [c];
      ValueOfNext(a + front, c);
      ValueOfNext(front, c);
      TimesTen(Value(a), |front|);
    }
  }

  lemma TimesTen(v: nat, k: nat)
    ensures v * Pow10(k) * 10 == v * Pow10(k + 1)
  {
  }

  lemma {:induction false} ZerosAreZero(k: nat)
    ensures Value(Zeros(k)) == 0 && AllDigits(Zeros(k))
  {
    if k > 0 {
      ZerosAreZero(k - 1);
      assert Zeros(k) == Zeros(k - 1) + "0";
      ValueOfNext(Zeros(k - 1), '0');
    }
  }

  /** Numbers below 10^k have at most k digits. */
  lemma {:induction false} ShowIsShort(n: nat, k: nat)
    requires k >= 1 && n < Pow10(k)
    ensures |Show(n)| <= k
  {
    if n >= 10 { ShowIsShort(n / 10, k - 1); }
  }

  lemma {:induction false} ShowIsLong(n: nat, k: nat)
    requires n >= Pow10(k)
    ensures |Show(n)| > k
  {
    if k > 0 { ShowIsLong(n / 10, k - 1); }
  }

  /** Show(n) with zeros in front, up to k digits (the width flag of fmt, padStart). */
  function Padded(n: nat, k: nat): (s: string)
    ensures s != ""
  {
    if |Show(n)| >= k then Show(n) else Zeros(k - |Show(n)|) + Show(n)
  }

  lemma LeadingZeros(k: nat, s: string)
    ensures Value(Zeros(k) + s) == Value(s) && (AllDigits(s) ==> AllDigits(Zeros(k) + s))
  {
    ZerosAreZero(k);
    ValueOfConcat(Zeros(k), s);
  }

  lemma PaddedReads(n: nat, k: nat)
    requires k >= 1 && n < Pow10(k)
    ensures |Padded(n, k)| == k && Value(Padded(n, k)) == n && AllDigits(Padded(n, k))
  {
    ShowIsShort(n, k);
    ShowThenRead(n);
    ShowIsDigits(n);
    LeadingZeros(k - |Show(n)|, Show(n));
  }
}
