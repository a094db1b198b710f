/** Commit periods: ISO weeks YYYYWW and the numbered batches YYYYWWBB of a week. */
module Periods {
  import opened Basics
  import opened Decimal

  const BATCHED: nat := 10_000_000

  function Base(p: nat): nat { if p >= BATCHED then p / 100 else p }

  function BatchNo(p: nat): nat { if p >= BATCHED then p % 100 else 0 }

  function Label(p: nat): string {
    var week := Show(Base(p) / 100) + "-W" + Padded(Base(p) % 100, 2);
    if BatchNo(p) > 0 then week + "." + Padded(BatchNo(p), 2) else week
  }

  /** `lastWeek` gives the number of ISO weeks of a year. */
  predicate ValidWeek(base: nat, lastWeek: nat -> nat) {
    var year, week := base / 100, base % 100;
    1970 <= year <= 9999 && 1 <= week <= 53 && week <= lastWeek(year)
  }

  predicate Valid(p: nat, lastWeek: nat -> nat) {
    !(p >= BATCHED && p % 100 == 0) && ValidWeek(Base(p), lastWeek)
  }

  /** The threshold decides nothing by itself: a period is valid exactly when it is a week, or a
      week followed by a batch number from 01 to 99; and it is never both. */
  lemma ValidIff(p: nat, lastWeek: nat -> nat)
    ensures Valid(p, lastWeek) <==> ValidWeek(p, lastWeek) || (ValidWeek(p / 100, lastWeek) && p % 100 != 0)
    ensures !(ValidWeek(p, lastWeek) && ValidWeek(p / 100, lastWeek))
  {
    if p < BATCHED {
      assert p / 100 / 100 < 1000;
    } else {
      assert p / 100 >= 100_000;
    }
  }

  /** In calendar terms: a week is one from 1 to the last of a year from 1970 to 9999. */
  lemma ValidWeekIff(year: nat, week: nat, lastWeek: nat -> nat)
    requires week < 100
    ensures ValidWeek(year * 100 + week, lastWeek) <==> 1970 <= year <= 9999 && 1 <= week <= 53 && week <= lastWeek(year)
  {
    assert (year * 100 + week) / 100 == year && (year * 100 + week) % 100 == week;
  }

  /** Valid periods fit the 64 bits that carry them. */
  lemma ValidFits(p: nat, lastWeek: nat -> nat)
    requires Valid(p, lastWeek)
    ensures 0 < p <= U64_MAX
  {
    assert Base(p) < 1_000_000;
  }

  // ── labels ─────────────────────────────────────────────────────────

  /** The period that a label names. */
  function Parse(text: string): Option<nat> {
    if |text| !in {8, 11} || !AllDigits(text[..4]) || !AllDigits(text[6..8]) then None
    else
      var base := Value(text[..4]) * 100 + Value(text[6..8]);
      if |text| == 8 then Some(base)
      else if !AllDigits(text[9..11]) then None
      else Some(base * 100 + Value(text[9..11]))
  }

  lemma LabelParts(year: string, week: string, batch: string)
    requires |year| == 4 && |week| == 2 && |batch| == 2
    ensures var short := year + "-W" + week;
            |short| == 8 && short[..4] == year && short[6..8] == week
    ensures var long := year + "-W" + week + "." + batch;
            |long| == 11 && long[..4] == year && long[6..8] == week && long[9..11] == batch
  {
  }

  lemma WeekReadsBack(year: nat, week: nat)
    requires 1970 <= year <= 9999 && week < 100
    ensures Parse(Show(year) + "-W" + Padded(week, 2)) == Some(year * 100 + week)
  {
    FourDigits(year);
    assert Pow10(2) == 100;
    PaddedReads(week, 2);
    LabelParts(Show(year), Padded(week, 2), "00");
  }

  lemma BatchReadsBack(year: nat, week: nat, batch: nat)
    requires 1970 <= year <= 9999 && week < 100 && batch < 100
    ensures Parse(Show(year) + "-W" + Padded(week, 2) + "." + Padded(batch, 2)) == Some((year * 100 + week) * 100 + batch)
  {
    FourDigits(year);
    assert Pow10(2) == 100;
    PaddedReads(week, 2);
    PaddedReads(batch, 2);
    LabelParts(Show(year), Padded(week, 2), Padded(batch, 2));
  }

  lemma PeriodParts(p: nat, lastWeek: nat -> nat)
    requires Valid(p, lastWeek)
    ensures 1970 <= Base(p) / 100 <= 9999 && Base(p) == Base(p) / 100 * 100 + Base(p) % 100
    ensures p == if BatchNo(p) > 0 then Base(p) * 100 + BatchNo(p) else Base(p)
  {
  }

  /** A label can be read back, so no two valid periods share one. */
  lemma LabelReadsBack(p: nat, lastWeek: nat -> nat)
    requires Valid(p, lastWeek)
    ensures Parse(Label(p)) == Some(p)
  {
    var year, week := Base(p) / 100, Base(p) % 100;
    PeriodParts(p, lastWeek);
    if BatchNo(p) > 0 { BatchReadsBack(year, week, BatchNo(p)); } else { WeekReadsBack(year, week); }
  }

  lemma FourDigits(year: nat)
    requires 1970 <= year <= 9999
    ensures |Show(year)| == 4 && Value(Show(year)) == year && AllDigits(Show(year))
  {
    ShowIsDigits(year);
    assert Pow10(4) == 10_000 && Pow10(3) == 1_000;
    ShowIsShort(year, 4);
    ShowIsLong(year, 3);
    ShowThenRead(year);
  }

  lemma LabelsAreInjective(p: nat, q: nat, lastWeek: nat -> nat)
    requires Valid(p, lastWeek) && Valid(q, lastWeek) && Label(p) == Label(q)
    ensures p == q
  {
    LabelReadsBack(p, lastWeek);
    LabelReadsBack(q, lastWeek);
  }

  /** Batch number 00 would read like the week itself; that is what validity excludes. */
  lemma BatchZeroWouldClash(base: nat, lastWeek: nat -> nat)
    requires Valid(base, lastWeek) && base < BATCHED
    ensures Label(base * 100) == Label(base) && !Valid(base * 100, lastWeek)
  {
    assert base >= 100_000;
    assert Base(base * 100) == base && BatchNo(base * 100) == 0 && BatchNo(base) == 0;
  }

  // ── the next free period of a week ─────────────────────────────────

  /** SELECT MAX(period % 100) over the batches of the week that are numbered at most `top`. */
  function MaxBatch(used: set<nat>, base: nat, top: nat): (m: Option<nat>)
    ensures m.Some? ==> 1 <= m.value <= top && base * 100 + m.value in used
    ensures forall q :: q in used && base * 100 < q <= base * 100 + top ==> m.Some? && q <= base * 100 + m.value
  {
    if top == 0 then None
    else if base * 100 + top in used then Some(top)
    else MaxBatch(used, base, top - 1)
  }

  function NextPeriod(used: set<nat>, base: nat): Option<nat> {
    var m := MaxBatch(used, base, 99);
    if m.Some? then
      if m.value >= 99 then None else Some(base * 100 + m.value + 1)
    else if base !in used then Some(base)
    else Some(base * 100 + 1)
  }

  lemma ValidBatch(base: nat, b: nat, lastWeek: nat -> nat)
    requires ValidWeek(base, lastWeek) && 1 <= b <= 99
    ensures Valid(base * 100 + b, lastWeek) && Base(base * 100 + b) == base && BatchNo(base * 100 + b) == b
    ensures Valid(base, lastWeek) && base < BATCHED
  {
  }

  /** What is offered is unused, valid, and after every batch of the week. */
  lemma NextIsFresh(used: set<nat>, base: nat, lastWeek: nat -> nat)
    requires ValidWeek(base, lastWeek) && NextPeriod(used, base).Some?
    ensures var p := NextPeriod(used, base).value;
            && p !in used && Valid(p, lastWeek) && Base(p) == base
            && forall q :: q in used && Valid(q, lastWeek) && Base(q) == base ==> q < p
  {
    var p := NextPeriod(used, base).value;
    if p != base { ValidBatch(base, p - base * 100, lastWeek); }
    forall q | q in used && Valid(q, lastWeek) && Base(q) == base
      ensures q < p
    {
      if q >= BATCHED { assert q == base * 100 + BatchNo(q); }
    }
  }

  /** A week is refused exactly when its batch 99 is taken. */
  lemma RefusedIff(used: set<nat>, base: nat)
    ensures NextPeriod(used, base).None? <==> base * 100 + 99 in used
  {
  }

  /** The refusal speaks of 100 batches, but one explicit commit of batch 99 brings it about. */
  lemma OneBatchCanExhaustAWeek(base: nat, lastWeek: nat -> nat)
    requires ValidWeek(base, lastWeek)
    ensures Valid(base * 100 + 99, lastWeek) && NextPeriod({base * 100 + 99}, base).None?
  {
  }

  /** The n-th automatic period of a week. */
  function Nth(base: nat, n: nat): nat { if n == 0 then base else base * 100 + n }

  function FirstOnes(base: nat, n: nat): set<nat> { set i | 0 <= i < n :: Nth(base, i) }

  /** The periods used after n automatic choices. */
  function Choose(used: set<nat>, base: nat, n: nat): Option<set<nat>> {
    if n == 0 then Some(used)
    else
      var before := Choose(used, base, n - 1);
      if before.None? || NextPeriod(before.value, base).None? then None
      else Some(before.value + {NextPeriod(before.value, base).value})
  }

  /** Nothing of the week is used yet; other weeks may be. */
  predicate Untouched(used: set<nat>, base: nat) { forall i :: 0 <= i < 100 ==> Nth(base, i) !in used }

  lemma NthOffered(used: set<nat>, base: nat, n: nat)
    requires Untouched(used, base) && base >= 1 && n <= 100
    ensures NextPeriod(used + FirstOnes(base, n), base) == if n < 100 then Some(Nth(base, n)) else None
  {
    var now := used + FirstOnes(base, n);
    forall q | q in now && base * 100 < q <= base * 100 + 99 ensures q < base * 100 + n {
      var b := q - base * 100;
      assert Nth(base, b) == q;
    }
    if n > 0 { assert Nth(base, 0) in now && Nth(base, n - 1) in now; }
  }

  lemma {:induction false} ChoicesAre(used: set<nat>, base: nat, n: nat)
    requires Untouched(used, base) && base >= 1 && n <= 100
    ensures Choose(used, base, n) == Some(used + FirstOnes(base, n)) && |FirstOnes(base, n)| == n
  {
    if n == 0 {
      assert FirstOnes(base, 0) == {} && used + {} == used;
    } else {
      ChoicesAre(used, base, n - 1);
      NthOffered(used, base, n - 1);
      OneMore(used, base, n - 1);
    }
  }

  /** From an untouched week the automatic choice yields exactly 100 different periods, all valid
      and new; the 101st is refused. */
  lemma AHundredPeriods(used: set<nat>, base: nat, n: nat, lastWeek: nat -> nat)
    requires Untouched(used, base) && ValidWeek(base, lastWeek) && n <= 100
    ensures Choose(used, base, n) == Some(used + FirstOnes(base, n)) && |FirstOnes(base, n)| == n
    ensures forall p :: p in FirstOnes(base, n) ==> Valid(p, lastWeek) && p !in used
    ensures Choose(used, base, 101).None?
  {
    forall p | p in FirstOnes(base, n) ensures Valid(p, lastWeek) && p !in used {
      var i :| 0 <= i < n && p == Nth(base, i);
      ValidBatch(base, if i == 0 then 1 else i, lastWeek);
    }
    ChoicesAre(used, base, n);
    LastChoice(used, base);
  }

  lemma LastChoice(used: set<nat>, base: nat)
    requires Untouched(used, base) && base >= 1
    ensures Choose(used, base, 101).None?
  {
    ChoicesAre(used, base, 100);
    NthOffered(used, base, 100);
  }

  lemma OneMore(used: set<nat>, base: nat, n: nat)
    requires base >= 1 && n < 100
    ensures FirstOnes(base, n + 1) == FirstOnes(base, n) + {Nth(base, n)} && Nth(base, n) !in FirstOnes(base, n)
    ensures used + FirstOnes(base, n + 1) == used + FirstOnes(base, n) + {Nth(base, n)}
  {
    forall p | p in FirstOnes(base, n + 1) ensures p in FirstOnes(base, n) + {Nth(base, n)} {
      var i :| 0 <= i < n + 1 && p == Nth(base, i);
    }
    forall i | 0 <= i < n ensures Nth(base, i) != Nth(base, n) {
    }
  }
}
