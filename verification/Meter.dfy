/** The credit meter of one organisation's live environment: monthly grants, charges, and
    reservations that are settled once. Amounts are millicredits; months are numbered. */
module Meter {
  const GRANT: int := 25_000_000
  const MCR_PER_CODE: int := 2_000

  datatype Operation = MonthlyGrant | Use(name: string) | RefundOf(name: string)

  /** A row of credit_ledger. */
  datatype Entry = Entry(month: nat, operation: Operation, delta: int, balance: int)

  /** The row of `credits`, if there is one, and the ledger rows of the account. */
  datatype Account = Account(open: bool, balance: int, month: nat, rows: seq<Entry>)

  // ── what the transactions do ───────────────────────────────────────

  function Topped(a: Account, month: nat, delta: int): Account {
    Account(true, GRANT, month, a.rows + [Entry(month, MonthlyGrant, delta, GRANT)])
  }

  /** ensureMonthlyGrant: to the floor of the grant, once in a month. */
  function Granted(a: Account, month: nat): Account {
    if !a.open then Topped(a, month, GRANT)
    else if a.month == month then a
    else if a.balance < GRANT then Topped(a, month, GRANT - a.balance)
    else a.(month := month)
  }

  function Moved(a: Account, month: nat, operation: Operation, delta: int): Account {
    a.(balance := a.balance + delta, rows := a.rows + [Entry(month, operation, delta, a.balance + delta)])
  }

  /** The two transactions of a charge may each fail. */
  datatype Luck = Luck(grant: bool, charge: bool)

  datatype Charged = Charged(account: Account, ok: bool)

  function Charge(a: Account, live: bool, name: string, mcr: int, month: nat, luck: Luck): Charged {
    if !live || mcr == 0 then Charged(a, true)
    else if mcr < 0 || !luck.grant then Charged(a, false)
    else
      var g := Granted(a, month);
      if g.balance < mcr || !luck.charge then Charged(g, false)
      else Charged(Moved(g, month, Use(name), -mcr), true)
  }

  function RefundCharge(a: Account, live: bool, name: string, mcr: int, month: nat, works: bool): Account {
    if !live || mcr <= 0 || !works || !a.open then a else Moved(a, month, RefundOf(name), mcr)
  }

  // ── reservations ───────────────────────────────────────────────────

  /** A reservation that was granted; `active` until it is settled. */
  datatype Hold = Hold(live: bool, name: string, mcr: int, active: bool)

  /** The three ways to settle it. `works` says whether the refund's transaction commits. */
  datatype Settlement =
    | Commit
    | CommitUsed(used: int, works: bool)
    | Refund(works: bool)

  function Clamp(used: int, mcr: int): int { if used < 0 then 0 else if used > mcr then mcr else used }

  /** How much of the reservation the settlement wants to give back. */
  function GivenBack(h: Hold, s: Settlement): int {
    match s
    case Commit => 0
    case CommitUsed(used, _) => h.mcr - Clamp(used, h.mcr)
    case Refund(_) => h.mcr
  }

  function Works(s: Settlement): bool { s.Commit? || s.works }

  datatype Settled = Settled(account: Account, hold: Hold)

  function Settle(a: Account, h: Hold, s: Settlement, month: nat): Settled {
    if !h.active then Settled(a, h)
    else Settled(RefundCharge(a, h.live, h.name, GivenBack(h, s), month, Works(s)), h.(active := false))
  }

  function SettleAll(a: Account, h: Hold, ss: seq<Settlement>, month: nat): Settled
    decreases |ss|
  {
    if ss == [] then Settled(a, h)
    else
      var first := Settle(a, h, ss[0], month);
      SettleAll(first.account, first.hold, ss[1..], month)
  }

  /** What an active reservation ends up costing when it is settled. */
  function Cost(h: Hold, s: Settlement): int { if Works(s) then h.mcr - GivenBack(h, s) else h.mcr }

  /** Whatever calls follow, only the first has an effect. */
  lemma {:induction false} OnlyTheFirstCounts(a: Account, h: Hold, ss: seq<Settlement>, month: nat)
    requires ss != []
    ensures SettleAll(a, h, ss, month) == Settle(a, h, ss[0], month)
    decreases |ss|
  {
    var first := Settle(a, h, ss[0], month);
    if |ss| > 1 {
      OnlyTheFirstCounts(first.account, first.hold, ss[1..], month);
    } else {
      assert ss[1..] == [];
    }
  }

  /** Between reservation and any sequence of settlements the account is debited by 0 to the
      reserved amount; exactly by what the first of them keeps. */
  lemma NetDebit(a: Account, name: string, mcr: int, month: nat, luck: Luck, ss: seq<Settlement>, later: nat)
    requires a.balance >= 0 && mcr > 0 && ss != [] && Charge(a, true, name, mcr, month, luck).ok
    ensures var h := Hold(true, name, mcr, true);
            var before := Granted(a, month).balance;
            var after := SettleAll(Charge(a, true, name, mcr, month, luck).account, h, ss, later).account.balance;
            before - after == Cost(h, ss[0]) && 0 <= Cost(h, ss[0]) <= mcr
  {
    var h := Hold(true, name, mcr, true);
    OnlyTheFirstCounts(Charge(a, true, name, mcr, month, luck).account, h, ss, later);
  }

  // ── whole runs ─────────────────────────────────────────────────────

  /** The account and every reservation ever granted, with what each has cost in the end. */
  datatype Line = Line(hold: Hold, cost: int)
  datatype Books = Books(account: Account, lines: seq<Line>)

  datatype Step =
    | Refresh(works: bool)                                            // a page that shows the balance
    | Reserve(live: bool, name: string, mcr: int, luck: Luck)
    | Finish(i: nat, how: Settlement)

  /** A step taken in some month. */
  datatype Dated = Dated(month: nat, step: Step)

  const NoBooks := Books(Account(false, 0, 0, []), [])

  /** A reservation that is settled, and the account with it. */
  function Finished(a: Account, l: Line, how: Settlement, month: nat): (Account, Line) {
    var s := Settle(a, l.hold, how, month);
    (s.account, Line(s.hold, if l.hold.active then Cost(l.hold, how) else l.cost))
  }

  function Next(b: Books, d: Dated): Books {
    match d.step
    case Refresh(works) => if works then b.(account := Granted(b.account, d.month)) else b
    case Reserve(live, name, mcr, luck) =>
      var c := Charge(b.account, live, name, mcr, d.month, luck);
      if !c.ok then b.(account := c.account)
      else Books(c.account, b.lines + [Line(Hold(live, name, mcr, live && mcr > 0), 0)])
    case Finish(i, how) =>
      if i >= |b.lines| then b
      else
        var (account, l) := Finished(b.account, b.lines[i], how, d.month);
        Books(account, b.lines[i := l])
  }

  function Run(b: Books, ds: seq<Dated>): Books
    decreases |ds|
  {
    if ds == [] then b else Run(Next(b, ds[0]), ds[1..])
  }

  /** The sum of the first n deltas. */
  function SumTo(rows: seq<Entry>, n: nat): int
    requires n <= |rows|
  {
    if n == 0 then 0 else SumTo(rows, n - 1) + rows[n - 1].delta
  }

  function Grants(rows: seq<Entry>): int {
    if rows == [] then 0
    else Grants(rows[..|rows| - 1]) + (if rows[|rows| - 1].operation.MonthlyGrant? then rows[|rows| - 1].delta else 0)
  }

  /** Reserved and not settled yet. */
  function Outstanding(lines: seq<Line>): int {
    if lines == [] then 0
    else Outstanding(lines[..|lines| - 1]) + (if lines[|lines| - 1].hold.active then lines[|lines| - 1].hold.mcr else 0)
  }

  /** Charged for good. */
  function Kept(lines: seq<Line>): int {
    if lines == [] then 0
    else Kept(lines[..|lines| - 1]) + (if lines[|lines| - 1].hold.active then 0 else lines[|lines| - 1].cost)
  }

  /** The balance is the sum of the rows, each of which records the sum up to itself. */
  ghost predicate Balanced(a: Account) {
    && a.balance == SumTo(a.rows, |a.rows|) && a.balance >= 0
    && (!a.open ==> a.rows == [])
    && forall i :: 0 <= i < |a.rows| ==> a.rows[i].balance == SumTo(a.rows, i + 1) && a.rows[i].balance >= 0
  }

  /** An open reservation is a debit of the account; a closed one has cost at most what it reserved. */
  predicate LineOk(open: bool, l: Line) {
    && (l.hold.active ==> l.hold.live && l.hold.mcr > 0 && open)
    && (!l.hold.active ==> 0 <= l.cost <= l.hold.mcr || (l.cost == 0 && !l.hold.live))
  }

  ghost predicate LinesOk(b: Books) {
    forall i :: 0 <= i < |b.lines| ==> LineOk(b.account.open, b.lines[i])
  }

  ghost predicate Good(b: Books) {
    && Balanced(b.account) && LinesOk(b)
    && b.account.balance + Outstanding(b.lines) + Kept(b.lines) == Grants(b.account.rows)
  }

  lemma {:induction false} SumOfPrefix(rows: seq<Entry>, e: Entry, n: nat)
    requires n <= |rows|
    ensures SumTo(rows + [e], n) == SumTo(rows, n)
  {
    if n > 0 { SumOfPrefix(rows, e, n - 1); }
  }

  lemma RowAdded(a: Account, e: Entry, b: Account)
    requires Balanced(a) && b.open && b.rows == a.rows + [e] && b.balance == e.balance == a.balance + e.delta >= 0
    ensures Balanced(b)
    ensures Grants(b.rows) == Grants(a.rows) + (if e.operation.MonthlyGrant? then e.delta else 0)
  {
    assert b.rows[..|a.rows|] == a.rows;
    forall n | 0 <= n <= |a.rows| ensures SumTo(b.rows, n) == SumTo(a.rows, n) { SumOfPrefix(a.rows, e, n); }
  }

  lemma GrantKeeps(a: Account, month: nat)
    requires Balanced(a)
    ensures Balanced(Granted(a, month)) && Granted(a, month).open
    ensures Granted(a, month).balance - a.balance == Grants(Granted(a, month).rows) - Grants(a.rows) >= 0
  {
    var delta := if a.open then GRANT - a.balance else GRANT;
    if !a.open || (a.month != month && a.balance < GRANT) {
      RowAdded(a, Entry(month, MonthlyGrant, delta, GRANT), Granted(a, month));
    }
  }

  lemma MoveKeeps(a: Account, month: nat, operation: Operation, delta: int)
    requires Balanced(a) && a.open && a.balance + delta >= 0 && !operation.MonthlyGrant?
    ensures Balanced(Moved(a, month, operation, delta)) && Grants(Moved(a, month, operation, delta).rows) == Grants(a.rows)
  {
    RowAdded(a, Entry(month, operation, delta, a.balance + delta), Moved(a, month, operation, delta));
  }

  lemma ChargeKeeps(a: Account, live: bool, name: string, mcr: int, month: nat, luck: Luck)
    requires Balanced(a)
    ensures var c := Charge(a, live, name, mcr, month, luck);
            && Balanced(c.account) && (a.open ==> c.account.open)
            && c.account.balance - a.balance
               == Grants(c.account.rows) - Grants(a.rows) - (if c.ok && live && mcr != 0 then mcr else 0)
            && (c.ok && live ==> mcr >= 0 && (mcr > 0 ==> c.account.open))
  {
    if live && mcr > 0 && luck.grant {
      var g := Granted(a, month);
      GrantKeeps(a, month);
      if g.balance >= mcr && luck.charge { MoveKeeps(g, month, Use(name), -mcr); }
    }
  }

  lemma LineAdded(lines: seq<Line>, l: Line)
    ensures Outstanding(lines + [l]) == Outstanding(lines) + (if l.hold.active then l.hold.mcr else 0)
    ensures Kept(lines + [l]) == Kept(lines) + (if l.hold.active then 0 else l.cost)
  {
    assert (lines + [l])[..|lines|] == lines;
  }

  lemma {:induction false} LineChanged(lines: seq<Line>, i: nat, l: Line)
    requires i < |lines|
    ensures Outstanding(lines[i := l]) == Outstanding(lines)
              - (if lines[i].hold.active then lines[i].hold.mcr else 0) + (if l.hold.active then l.hold.mcr else 0)
    ensures Kept(lines[i := l]) == Kept(lines)
              - (if lines[i].hold.active then 0 else lines[i].cost) + (if l.hold.active then 0 else l.cost)
    decreases |lines|
  {
    var n := |lines| - 1;
    if i == n {
      assert lines[i := l][..n] == lines[..n];
    } else {
      assert lines[i := l][..n] == lines[..n][i := l];
      LineChanged(lines[..n], i, l);
    }
  }

  lemma ReserveKeeps(b: Books, d: Dated)
    requires Good(b) && d.step.Reserve?
    ensures Good(Next(b, d))
  {
    var s := d.step;
    ChargeKeeps(b.account, s.live, s.name, s.mcr, d.month, s.luck);
    LineAdded(b.lines, Line(Hold(s.live, s.name, s.mcr, s.live && s.mcr > 0), 0));
  }

  lemma SettleKeeps(a: Account, l: Line, how: Settlement, month: nat)
    requires Balanced(a) && LineOk(a.open, l)
    ensures var (x, m) := Finished(a, l, how, month);
            && Balanced(x) && x.open == a.open && Grants(x.rows) == Grants(a.rows) && LineOk(x.open, m) && !m.hold.active
            && x.balance == a.balance + (if l.hold.active then l.hold.mcr - m.cost else 0) && (!l.hold.active ==> m.cost == l.cost)
  {
    if l.hold.active && GivenBack(l.hold, how) > 0 && Works(how) {
      MoveKeeps(a, month, RefundOf(l.hold.name), GivenBack(l.hold, how));
    }
  }

  lemma FinishKeeps(b: Books, d: Dated)
    requires Good(b) && d.step.Finish?
    ensures Good(Next(b, d))
  {
    var i, how := d.step.i, d.step.how;
    if i < |b.lines| {
      SettleKeeps(b.account, b.lines[i], how, d.month);
      LineChanged(b.lines, i, Finished(b.account, b.lines[i], how, d.month).1);
    }
  }

  /** Along every run, failed transactions included: the balance is the sum of the ledger and never
      negative, every row records its prefix sum, and what was granted is what is left, reserved or
      charged for good. */
  lemma {:induction false} CreditsAreConserved(b: Books, ds: seq<Dated>)
    requires Good(b)
    ensures Good(Run(b, ds))
    decreases |ds|
  {
    if ds != [] {
      match ds[0].step {
        case Refresh(_) => GrantKeeps(b.account, ds[0].month);
        case Reserve(_, _, _, _) => ReserveKeeps(b, ds[0]);
        case Finish(_, _) => FinishKeeps(b, ds[0]);
      }
      CreditsAreConserved(Next(b, ds[0]), ds[1..]);
    }
  }

  /** The three accounts of the same money, from the first day of an organisation on. */
  lemma BooksBalance(ds: seq<Dated>)
    ensures var b := Run(NoBooks, ds);
            && 0 <= b.account.balance == SumTo(b.account.rows, |b.account.rows|)
            && b.account.balance + Outstanding(b.lines) + Kept(b.lines) == Grants(b.account.rows)
            && forall i :: 0 <= i < |b.account.rows| ==> b.account.rows[i].balance == SumTo(b.account.rows, i + 1)
  {
    CreditsAreConserved(NoBooks, ds);
  }

  // ── one top-up in a month ──────────────────────────────────────────

  /** Months never go back, starting from `from`. */
  ghost predicate Monotone(from: nat, ds: seq<Dated>) {
    && (forall i :: 0 <= i < |ds| ==> from <= ds[i].month)
    && forall i, j :: 0 <= i < j < |ds| ==> ds[i].month <= ds[j].month
  }

  /** Grant rows are of different months, ascending, none after the month on record. */
  ghost predicate GrantsAscend(a: Account) {
    && (forall i :: 0 <= i < |a.rows| && a.rows[i].operation.MonthlyGrant? ==> a.open && a.rows[i].month <= a.month)
    && forall i, j :: 0 <= i < j < |a.rows| && a.rows[i].operation.MonthlyGrant? && a.rows[j].operation.MonthlyGrant? ==>
         a.rows[i].month < a.rows[j].month
  }

  lemma GrantAscends(a: Account, month: nat)
    requires GrantsAscend(a) && (a.open ==> a.month <= month)
    ensures GrantsAscend(Granted(a, month)) && Granted(a, month).month == month
  {
  }

  lemma StepAscends(b: Books, d: Dated)
    requires GrantsAscend(b.account) && (b.account.open ==> b.account.month <= d.month)
    ensures GrantsAscend(Next(b, d).account)
    ensures Next(b, d).account.open ==> Next(b, d).account.month <= d.month
  {
    GrantAscends(b.account, d.month);
  }

  /** While the clock does not go back over a month, there is at most one top-up in any month. */
  lemma {:induction false} OneTopUpAMonth(b: Books, ds: seq<Dated>, from: nat)
    requires GrantsAscend(b.account) && (b.account.open ==> b.account.month <= from) && Monotone(from, ds)
    ensures GrantsAscend(Run(b, ds).account)
    decreases |ds|
  {
    if ds != [] {
      StepAscends(b, ds[0]);
      OneTopUpAMonth(Next(b, ds[0]), ds[1..], ds[0].month);
    }
  }

  lemma RunStep(b: Books, d: Dated, rest: seq<Dated>)
    ensures Run(b, [d] + rest) == Run(Next(b, d), rest)
  {
    assert ([d] + rest)[1..] == rest;
  }

  /** A clock that goes back over a month and returns earns a second top-up in the same month. */
  lemma ClockGoingBackTopsUpTwice(month: nat, mcr: int)
    requires 0 < mcr <= GRANT
    ensures var spend := Reserve(true, "redeem", mcr, Luck(true, true));
            var ds := [Dated(month + 1, spend)] + ([Dated(month, spend)] + ([Dated(month + 1, Refresh(true))] + []));
            var rows := Run(NoBooks, ds).account.rows;
            && |rows| == 5 && rows[0].month == rows[4].month == month + 1
            && rows[0].operation.MonthlyGrant? && rows[4].operation.MonthlyGrant?
  {
    var spend := Reserve(true, "redeem", mcr, Luck(true, true));
    var b1 := Next(NoBooks, Dated(month + 1, spend));
    var b2 := Next(b1, Dated(month, spend));
    RunStep(NoBooks, Dated(month + 1, spend), [Dated(month, spend)] + ([Dated(month + 1, Refresh(true))] + []));
    RunStep(b1, Dated(month, spend), [Dated(month + 1, Refresh(true))] + []);
    RunStep(b2, Dated(month + 1, Refresh(true)), []);
  }

  // ── when grants do not stack ───────────────────────────────────────

  /** A step that asks for the monthly grant. */
  predicate AsksForGrant(s: Step) {
    match s
    case Refresh(works) => works
    case Reserve(live, _, mcr, luck) => live && mcr > 0 && luck.grant
    case Finish(_, _) => false
  }

  /** A step that finds another month on record, or no record, and less than the grant. */
  predicate TopsUp(b: Books, d: Dated) {
    AsksForGrant(d.step) && (!b.account.open || (b.account.month != d.month && b.account.balance < GRANT))
  }

  /** These steps write a grant row, of the month in which they are taken, and no others do. */
  lemma TopUpIff(b: Books, d: Dated)
    ensures var before, after := b.account.rows, Next(b, d).account.rows;
            && before <= after
            && (TopsUp(b, d) <==> exists i :: |before| <= i < |after| && after[i].operation.MonthlyGrant?)
            && (forall i :: |before| <= i < |after| && after[i].operation.MonthlyGrant? ==> after[i].month == d.month)
  {
    if TopsUp(b, d) { assert Next(b, d).account.rows[|b.account.rows|].operation.MonthlyGrant?; }
  }

  /** No month has two top-ups. */
  ghost predicate OnePerMonth(rows: seq<Entry>) {
    forall i, j :: 0 <= i < j < |rows| && rows[i].operation.MonthlyGrant? && rows[j].operation.MonthlyGrant? ==> rows[i].month != rows[j].month
  }

  ghost predicate ToppedUpIn(rows: seq<Entry>, month: nat) {
    exists i :: 0 <= i < |rows| && rows[i].operation.MonthlyGrant? && rows[i].month == month
  }

  /** Whatever the clock does, a step gives a month its second top-up if and only if the month has
      one, is not the one on record, and the balance is below the grant. */
  lemma SecondTopUpIff(b: Books, d: Dated)
    requires OnePerMonth(b.account.rows)
    ensures OnePerMonth(Next(b, d).account.rows) <==> !(TopsUp(b, d) && ToppedUpIn(b.account.rows, d.month))
  {
    if TopsUp(b, d) && ToppedUpIn(b.account.rows, d.month) {
      var i :| 0 <= i < |b.account.rows| && b.account.rows[i].operation.MonthlyGrant? && b.account.rows[i].month == d.month;
      var after := Next(b, d).account.rows;
      assert after[i] == b.account.rows[i] && after[|b.account.rows|].operation.MonthlyGrant?;
    }
  }

  ghost predicate TopsUpAgain(b: Books, d: Dated) { TopsUp(b, d) && ToppedUpIn(b.account.rows, d.month) }

  ghost predicate NeverTopsUpAgain(b: Books, ds: seq<Dated>)
    decreases |ds|
  {
    ds != [] ==> !TopsUpAgain(b, ds[0]) && NeverTopsUpAgain(Next(b, ds[0]), ds[1..])
  }

  lemma {:induction false} RowsGrow(b: Books, ds: seq<Dated>)
    ensures b.account.rows <= Run(b, ds).account.rows
    decreases |ds|
  {
    if ds != [] {
      TopUpIff(b, ds[0]);
      RowsGrow(Next(b, ds[0]), ds[1..]);
    }
  }

  /** Whatever the clock does, no month has two top-ups at the end of a run if and only if no step of
      it tops up a month that has had one. */
  lemma {:induction false} OnePerMonthIff(b: Books, ds: seq<Dated>)
    requires OnePerMonth(b.account.rows)
    ensures OnePerMonth(Run(b, ds).account.rows) <==> NeverTopsUpAgain(b, ds)
    decreases |ds|
  {
    if ds != [] {
      SecondTopUpIff(b, ds[0]);
      if TopsUpAgain(b, ds[0]) {
        RowsGrow(Next(b, ds[0]), ds[1..]);
      } else {
        OnePerMonthIff(Next(b, ds[0]), ds[1..]);
      }
    }
  }

  /** What is on the account and what may still come back to it do not exceed one grant. */
  ghost predicate Within(b: Books) { b.account.balance + Outstanding(b.lines) <= GRANT }

  lemma GrantWithin(a: Account, month: nat)
    ensures Granted(a, month).balance == if !a.open || (a.month != month && a.balance < GRANT) then GRANT else a.balance
  {
  }

  lemma ReserveWithin(b: Books, d: Dated)
    requires Good(b) && d.step.Reserve?
    ensures Next(b, d).account.balance + Outstanding(Next(b, d).lines)
         == (if TopsUp(b, d) then GRANT else b.account.balance) + Outstanding(b.lines)
  {
    var s := d.step;
    GrantWithin(b.account, d.month);
    LineAdded(b.lines, Line(Hold(s.live, s.name, s.mcr, s.live && s.mcr > 0), 0));
  }

  lemma FinishWithin(b: Books, d: Dated)
    requires Good(b) && d.step.Finish?
    ensures Next(b, d).account.balance + Outstanding(Next(b, d).lines) <= b.account.balance + Outstanding(b.lines)
  {
    if d.step.i < |b.lines| { LineChanged(b.lines, d.step.i, Next(b, d).lines[d.step.i]); }
  }

  lemma {:induction false} NothingOutstanding(lines: seq<Line>)
    requires forall i :: 0 <= i < |lines| && lines[i].hold.active ==> lines[i].hold.mcr > 0
    ensures Outstanding(lines) >= 0 && (Outstanding(lines) == 0 <==> forall i :: 0 <= i < |lines| ==> !lines[i].hold.active)
    decreases |lines|
  {
    if lines != [] {
      var front := lines[..|lines| - 1];
      NothingOutstanding(front);
      assert forall i :: 0 <= i < |front| ==> front[i] == lines[i];
    }
  }

  /** A step keeps within one grant if and only if it is no top-up while something is reserved. */
  lemma StepWithinIff(b: Books, d: Dated)
    requires Good(b) && Within(b)
    ensures Within(Next(b, d)) <==> !(TopsUp(b, d) && Outstanding(b.lines) > 0)
  {
    NothingOutstanding(b.lines);
    match d.step
    case Refresh(_) => GrantWithin(b.account, d.month);
    case Reserve(_, _, _, _) => ReserveWithin(b, d);
    case Finish(_, _) => FinishWithin(b, d);
  }

  ghost predicate AlwaysWithin(b: Books, ds: seq<Dated>)
    decreases |ds|
  {
    Within(b) && (ds != [] ==> AlwaysWithin(Next(b, ds[0]), ds[1..]))
  }

  /** No step of the run is a top-up while something is reserved. */
  ghost predicate Calm(b: Books, ds: seq<Dated>)
    decreases |ds|
  {
    ds != [] ==> !(TopsUp(b, ds[0]) && Outstanding(b.lines) > 0) && Calm(Next(b, ds[0]), ds[1..])
  }

  /** A run stays within one grant throughout if and only if no top-up meets a reservation. */
  lemma {:induction false} OneGrantIff(b: Books, ds: seq<Dated>)
    requires Good(b) && Within(b)
    ensures AlwaysWithin(b, ds) <==> Calm(b, ds)
    decreases |ds|
  {
    if ds != [] {
      var t := Next(b, ds[0]);
      StepWithinIff(b, ds[0]);
      CreditsAreConserved(b, [ds[0]]);
      assert Run(b, [ds[0]]) == t by { assert [ds[0]][1..] == []; }
      if Within(t) { OneGrantIff(t, ds[1..]); }
    }
  }

  lemma {:induction false} AlwaysMeansInTheEnd(b: Books, ds: seq<Dated>)
    requires AlwaysWithin(b, ds)
    ensures Within(Run(b, ds))
    decreases |ds|
  {
    if ds != [] { AlwaysMeansInTheEnd(Next(b, ds[0]), ds[1..]); }
  }

  /** So a calm account never holds more than one grant. */
  lemma CalmAccountsHoldOneGrant(ds: seq<Dated>)
    requires Calm(NoBooks, ds)
    ensures Run(NoBooks, ds).account.balance <= GRANT
  {
    OneGrantIff(NoBooks, ds);
    AlwaysMeansInTheEnd(NoBooks, ds);
    CreditsAreConserved(NoBooks, ds);
    NothingOutstanding(Run(NoBooks, ds).lines);
  }

  /** Refunds of the first n reservations, one after the other. */
  function RefundAll(month: nat, n: nat): seq<Dated> {
    if n == 0 then [] else RefundAll(month, n - 1) + [Dated(month, Finish(n - 1, Refund(true)))]
  }

  lemma {:induction false} RunAppend(b: Books, ds: seq<Dated>, d: Dated)
    ensures Run(b, ds + [d]) == Next(Run(b, ds), d)
    decreases |ds|
  {
    if ds == [] {
      assert [] + [d] == [d] && [d][1..] == [];
    } else {
      assert (ds + [d])[1..] == ds[1..] + [d];
      RunAppend(Next(b, ds[0]), ds[1..], d);
    }
  }

  lemma OneRefund(t: Books, month: nat, i: nat)
    requires Good(t) && i < |t.lines|
    ensures var u := Next(t, Dated(month, Finish(i, Refund(true))));
            && Good(u) && |u.lines| == |t.lines| && !u.lines[i].hold.active
            && u.account.balance + Outstanding(u.lines) == t.account.balance + Outstanding(t.lines)
            && forall j :: 0 <= j < |t.lines| && j != i ==> u.lines[j] == t.lines[j]
  {
    var d := Dated(month, Finish(i, Refund(true)));
    FinishKeeps(t, d);
    LineChanged(t.lines, i, Next(t, d).lines[i]);
  }

  lemma {:induction false} RefundsGiveBack(b: Books, month: nat, n: nat)
    requires Good(b) && n <= |b.lines|
    ensures var t := Run(b, RefundAll(month, n));
            && Good(t) && |t.lines| == |b.lines|
            && t.account.balance + Outstanding(t.lines) == b.account.balance + Outstanding(b.lines)
            && forall i :: 0 <= i < n ==> !t.lines[i].hold.active
  {
    if n > 0 {
      RefundsGiveBack(b, month, n - 1);
      RunAppend(b, RefundAll(month, n - 1), Dated(month, Finish(n - 1, Refund(true))));
      OneRefund(Run(b, RefundAll(month, n - 1)), month, n - 1);
    }
  }

  /** And an account that is not within one grant holds more than one as soon as everything that is
      reserved is given back. */
  lemma RefundsReachTheSum(b: Books, month: nat)
    requires Good(b)
    ensures Run(b, RefundAll(month, |b.lines|)).account.balance == b.account.balance + Outstanding(b.lines)
  {
    RefundsGiveBack(b, month, |b.lines|);
    NothingOutstanding(Run(b, RefundAll(month, |b.lines|)).lines);
  }

  /** The grant does not accumulate by itself, but a reservation that spans two months and is then
      refunded leaves more than one grant on the account. */
  lemma RefundAfterTopUpStacks(month: nat, mcr: int)
    requires 0 < mcr <= GRANT
    ensures var ds := [Dated(month, Reserve(true, "issue", mcr, Luck(true, true)))]
                      + ([Dated(month + 1, Refresh(true))] + ([Dated(month + 1, Finish(0, Refund(true)))] + []));
            Run(NoBooks, ds).account.balance == GRANT + mcr
  {
    var d1, d2, d3 := Dated(month, Reserve(true, "issue", mcr, Luck(true, true))), Dated(month + 1, Refresh(true)), Dated(month + 1, Finish(0, Refund(true)));
    RunStep(NoBooks, d1, [d2] + ([d3] + []));
    RunStep(Next(NoBooks, d1), d2, [d3] + []);
    RunStep(Next(Next(NoBooks, d1), d2), d3, []);
  }

  // ── what an account can pay ────────────────────────────────────────

  /** What there is to spend in a month: the grant, for a new account and for one that has less and
      has not had this month's; otherwise the balance. */
  ghost function Cover(a: Account, month: nat): int {
    if !a.open || (a.month != month && a.balance < GRANT) then GRANT else a.balance
  }

  /** The account with that balance, and with the row that says so if the grant made a difference. */
  ghost function Refreshed(a: Account, month: nat): Account {
    var spare := if a.open then a.balance else 0;
    var rows := if Cover(a, month) == spare then a.rows else a.rows + [Entry(month, MonthlyGrant, GRANT - spare, GRANT)];
    Account(true, Cover(a, month), month, rows)
  }

  /** The charge goes through: nothing to pay, or both transactions commit and it is covered. */
  ghost predicate CanPay(a: Account, live: bool, mcr: int, month: nat, luck: Luck) {
    !live || mcr == 0 || (mcr > 0 && luck.grant && luck.charge && mcr <= Cover(a, month))
  }

  /** The account after `name` has taken `mcr`, and after it has come back. */
  ghost function Paid(a: Account, name: string, mcr: int, month: nat): Account {
    var left := Cover(a, month) - mcr;
    Account(true, left, month, Refreshed(a, month).rows + [Entry(month, Use(name), -mcr, left)])
  }

  ghost function PaidBack(a: Account, name: string, mcr: int, month: nat): Account {
    var full := Cover(a, month);
    Account(true, full, month, Paid(a, name, mcr, month).rows + [Entry(month, RefundOf(name), mcr, full)])
  }

  /** A charge succeeds exactly if it can be paid, and then debits exactly its amount, with one row;
      when it is refused, nothing beyond the month's grant has changed. */
  lemma ChargeIff(a: Account, live: bool, name: string, mcr: int, month: nat, luck: Luck)
    ensures var c := Charge(a, live, name, mcr, month, luck);
            && (c.ok <==> CanPay(a, live, mcr, month, luck))
            && (c.ok && live && mcr != 0 ==> c.account == Paid(a, name, mcr, month))
            && (!live || mcr <= 0 ==> c.account == a)
            && (!c.ok && mcr > 0 ==> c.account == if luck.grant then Refreshed(a, month) else a)
  {
  }

  /** Charges of one month, one after the other, with both transactions working. */
  ghost predicate AllPaid(a: Account, name: string, month: nat, mcrs: seq<int>)
    decreases |mcrs|
  {
    mcrs != [] ==>
      var c := Charge(a, true, name, mcrs[0], month, Luck(true, true));
      c.ok && AllPaid(c.account, name, month, mcrs[1..])
  }

  ghost function SumOf(mcrs: seq<int>): int
    decreases |mcrs|
  {
    if mcrs == [] then 0 else mcrs[0] + SumOf(mcrs[1..])
  }

  /** A new account can be charged 25,000 credits in its first month, in whatever parts, and no more. */
  lemma FirstMonth(name: string, month: nat, mcrs: seq<int>)
    requires forall i :: 0 <= i < |mcrs| ==> mcrs[i] > 0
    ensures AllPaid(NoBooks.account, name, month, mcrs) <==> SumOf(mcrs) <= 25_000_000
  {
    AllPaidIff(NoBooks.account, name, month, mcrs);
  }

  /** The charges of a month all succeed if and only if together they are covered. */
  lemma {:induction false} AllPaidIff(a: Account, name: string, month: nat, mcrs: seq<int>)
    requires (a.open ==> a.balance >= 0) && forall i :: 0 <= i < |mcrs| ==> mcrs[i] > 0
    ensures AllPaid(a, name, month, mcrs) <==> SumOf(mcrs) <= Cover(a, month)
    ensures SumOf(mcrs) >= 0
    decreases |mcrs|
  {
    if mcrs != [] {
      var c := Charge(a, true, name, mcrs[0], month, Luck(true, true));
      ChargeIff(a, true, name, mcrs[0], month, Luck(true, true));
      AllPaidIff(if c.ok then c.account else a, name, month, mcrs[1..]);
    }
  }
}
