/** What the replies of the commit and settle handlers cost, and when the handlers succeed: over every
    state that the pipeline can reach. */
module TallyReplies {
  import opened Basics
  import opened LedgerTypes
  import opened LedgerSpec
  import opened LedgerExec
  import opened LedgerInvariant
  import opened LedgerHistory
  import opened LedgerEntries
  import LedgerSettlement
  import LedgerExactlyOnce
  import LedgerMoney
  import opened TallyStore
  import opened TallyPipeline
  import opened TallySafety
  import opened TallyRuns
  import opened TallyService
  import Meter
  import Periods

  // ── what a reply costs ─────────────────────────────────────────────

  /** The reply comes after the reservation. */
  predicate HasReserved(r: CommitReply) { r.ChainRefused? || r.IndexingFailed? || r.Committed? }

  /** A live account pays 15 credits for a commit that the chain has reported as accepted, indexed or
      not, and nothing for one that it has refused, unless the refund fails; without a reservation it
      pays nothing, and test accounts never pay. */
  lemma CommitIsCharged(a: Meter.Account, r: CommitReply, w: Weather)
    requires r.NoCredits? ==> !Meter.CanPay(a, w.live, 15_000, w.month, w.luck)
    requires HasReserved(r) ==> Meter.CanPay(a, w.live, 15_000, w.month, w.luck)
    ensures var after := Service.Bill(a, r, w);
            && (!w.live || (!HasReserved(r) && !r.NoCredits?) ==> after == a)
            && (w.live && r.NoCredits? ==> after == if w.luck.grant then Meter.Refreshed(a, w.month) else a)
            && (w.live && HasReserved(r) ==>
                  after == if r.ChainRefused? && w.refunds then Meter.PaidBack(a, "commit_tally", 15_000, w.month)
                           else Meter.Paid(a, "commit_tally", 15_000, w.month))
  {
    Meter.ChargeIff(a, w.live, "commit_tally", 15_000, w.month, w.luck);
  }

  /** In balances: with the refund working, 15 credits are gone exactly after a commit that the chain
      has accepted and reported. */
  lemma CommitCostsIff(a: Meter.Account, r: CommitReply, w: Weather)
    requires w.live && w.refunds && HasReserved(r) && Meter.CanPay(a, true, 15_000, w.month, w.luck)
    ensures var before, after := Meter.Cover(a, w.month), Service.Bill(a, r, w).balance;
            && (after == before - 15_000 <==> r.Committed? || r.IndexingFailed?)
            && (after == before <==> r.ChainRefused?)
  {
    CommitIsCharged(a, r, w);
  }

  /** Likewise 25 credits for a settlement of its own, and for nothing else. */
  lemma SettleIsCharged(a: Meter.Account, r: SettleReply, w: Weather)
    requires r.CannotPay? <==> !r.NoSuchCode? && !Meter.CanPay(a, w.live, 25_000, w.month, w.luck)
    ensures var after := Service.SettleBill(a, r, w);
            && (!w.live || r.NoSuchCode? ==> after == a)
            && (w.live && r.CannotPay? ==> after == if w.luck.grant then Meter.Refreshed(a, w.month) else a)
            && (w.live && !r.NoSuchCode? && !r.CannotPay? ==>
                  after == if !r.SettledHere? && w.refunds then Meter.PaidBack(a, "settle", 25_000, w.month)
                           else Meter.Paid(a, "settle", 25_000, w.month))
  {
    Meter.ChargeIff(a, w.live, "settle", 25_000, w.month, w.luck);
  }

  lemma SettleCostsIff(a: Meter.Account, r: SettleReply, w: Weather)
    requires w.live && w.refunds && Meter.CanPay(a, true, 25_000, w.month, w.luck) && !r.NoSuchCode? && !r.CannotPay?
    ensures var before, after := Meter.Cover(a, w.month), Service.SettleBill(a, r, w).balance;
            && (after == before - 25_000 <==> r.SettledHere?)
            && (after == before <==> !r.SettledHere?)
  {
    SettleIsCharged(a, r, w);
  }

  // ── which period a commit is about ─────────────────────────────────

  /** A period that is asked for is taken. The automatic choice is a valid period of the week, without a
      row of this code and later than all that have one; there is none exactly if this code has a row
      for the week's batch 99. */
  lemma ChosenIsFresh(c: Cloud, shared: nat, period: u64, week: nat, lastWeek: nat -> nat)
    requires Periods.ValidWeek(week, lastWeek)
    ensures period != 0 ==> Chosen(c, shared, period, week) == Some(period)
    ensures TallyKey(shared, week * 100 + 99) in c.tallies <==> Chosen(c, shared, 0, week).None?
    ensures Chosen(c, shared, 0, week).Some? ==>
              var p := Chosen(c, shared, 0, week).value;
              && Periods.Valid(p, lastWeek) && Periods.Base(p) == week && p <= U64_MAX && TallyKey(shared, p) !in c.tallies
              && forall k :: k in c.tallies && k.shared == shared && Periods.Valid(k.period, lastWeek) && Periods.Base(k.period) == week
                   ==> k.period < p
  {
    var used := PeriodsOf(c, shared);
    assert Periods.Valid(week * 100 + 99, lastWeek) by { Periods.ValidBatch(week, 99, lastWeek); }
    Periods.ValidFits(week * 100 + 99, lastWeek);
    Periods.RefusedIff(used, week);
    assert week * 100 + 99 in used <==> TallyKey(shared, week * 100 + 99) in c.tallies;
    if Chosen(c, shared, 0, week).Some? {
      Periods.NextIsFresh(used, week, lastWeek);
      Periods.ValidFits(Chosen(c, shared, 0, week).value, lastWeek);
      assert forall k :: k in c.tallies && k.shared == shared ==> k.period in used;
    }
  }

  // ── when a commit succeeds ─────────────────────────────────────────

  /** The chain accepts what the service sends for a registered code exactly if the period is new. */
  lemma CommitAcceptedIff(D: Deployment, w: World, row: SharedRow, ctx: Ctx, p: u64, batch: Batch)
    requires Registered(row, w.ledger)
    ensures Exec(w, CommitFrame(D, row, ctx, p, batch)).reply.Ok? <==> PeriodKey(row.key, p) !in w.ledger.tallies
  {
    var n := Sum(batch);
    CommitIff(w.ledger, ctx.(signed := {row.owner}), row.owner, row.key.campaign, row.key.code, p, n, RootOf(D, batch), Credits(row, n));
  }

  /** The selected rows are none exactly if nothing of the code is pending. */
  lemma NothingPendingIff(D: Deployment, c: Cloud, k: TallyKey, end: nat)
    requires EventsOk(D, c.codes, c.events) && IsBatch(c.events, k.shared, end)
    ensures Sum(BatchItems(c.events, k.shared, end)) == 0 <==>
            forall i :: 0 <= i < |c.events| && c.events[i].shared == k.shared ==> c.events[i].mark != Pending
  {
    var rows := Rows(c.events, k.shared, Pending, end);
    BatchesFit(D, c, k, end);
    if end > 0 { LaterRowsAdd(c.events, k.shared, 0, end); }
    if rows != [] {
      RowsFrom(c.events, k.shared, Pending, end);
      assert rows[0] in c.events;
    }
  }

  /** In every safe state, a commit that finds the lock free answers: nothing pending, exactly if
      nothing is; no credits, exactly if it cannot be paid; refused, exactly if the chain has the
      period or its answer is lost; and otherwise the batch is committed unless the process or the
      local transaction fails. The total never overflows, and a free key is never taken in between. */
  lemma CommitSucceedsIff(D: Deployment, c: Cloud, k: TallyKey, end: nat, ctx: Ctx, a: Meter.Account, w: Weather, r: CommitReply)
    requires Safe(D, c) && k.shared < |c.codes| && CommitDecides(D, c, k, end, ctx, a, w, r)
    ensures var pending := exists i :: 0 <= i < |c.events| && c.events[i].shared == k.shared && c.events[i].mark == Pending;
            var paid := Meter.CanPay(a, w.live, 15_000, w.month, w.luck);
            var new_ := ChainKey(c, k) !in c.chain.ledger.tallies;
            && !r.CountOverflows?
            && (r.NothingPending? <==> !pending)
            && (r.NoCredits? <==> pending && !paid)
            && (r.ChainRefused? <==> pending && paid && !(w.reported && new_))
            && (r.IndexingFailed? <==> pending && paid && w.reported && new_ && !w.works)
            && (r.Committed? <==> pending && paid && w.reported && new_ && w.works)
  {
    var items := BatchItems(c.events, k.shared, end);
    NothingPendingIff(D, c, k, end);
    BatchesFit(D, c, k, end);
    CommitAcceptedIff(D, c.chain, c.codes[k.shared], ctx, k.period, items);
    TalliesAreOnChain(D, c, k);
  }

  // ── when a settlement succeeds ─────────────────────────────────────

  /** The period can be settled: configured, committed, not settled yet, and its payment fits. */
  ghost predicate Payable(c: Cloud, k: TallyKey)
    requires k.shared < |c.codes|
  {
    var s, pk := c.chain.ledger, ChainKey(c, k);
    && pk.code in s.shared && s.shared[pk.code].payoutToken.Some? && pk in s.tallies && pk !in s.settled
    && LedgerMoney.Due(s, pk) <= I128_MAX
  }

  /** What the chain says of a settlement while the allowance is what was approved. */
  lemma HonestReply(D: Deployment, c: Cloud, k: TallyKey, ctx: Ctx, allowance: int, balance: int)
    requires Safe(D, c) && k.shared < |c.codes|
    ensures var s, pk := c.chain.ledger, ChainKey(c, k);
            var d := Exec(c.chain, SettleFrame(c.codes[k.shared], ctx, k.period, LedgerMoney.Honest(allowance, balance)));
            && TalliesOk(s)
            && (d.reply.Ok? <==> Payable(c, k) && LedgerMoney.Due(s, pk) <= allowance && LedgerMoney.Due(s, pk) <= balance)
            && (d.reply.Ok? ==>
                  && LedgerSettlement.Settleable(s, pk) && AmountOf(d.reply) == Some(LedgerMoney.Due(s, pk))
                  && d.world == World(Mark(s, pk), c.chain.transfers + LedgerSettlement.BatchOf(s, pk)))
  {
    var pk := ChainKey(c, k);
    var row := c.codes[k.shared];
    assert Registered(row, c.chain.ledger);
    ReachableIsGood(c.chain);
    LedgerMoney.HonestSettleIff(c.chain, ctx, row.owner, pk, allowance, balance);
    var f := SettleFrame(row, ctx, k.period, LedgerMoney.Honest(allowance, balance));
    assert LedgerMoney.SettleWith(c.chain, ctx, row.owner, pk, allowance, balance) == Exec(c.chain, f);
    if Exec(c.chain, f).reply.Ok? { LedgerMoney.PreviewIsPaid(c.chain, f); }
  }

  /** With a token that keeps its own books and allows what the handler approves: the handler settles
      exactly when it can be paid for, the account is idle, the period can be settled, what is due is
      approved and on the owner's balance, and the answer comes back. It has then approved and paid
      count x rate, neither more nor less. */
  lemma HonestSettlesIff(D: Deployment, c: Cloud, k: TallyKey, ctx: Ctx, balance: int, answered: bool, approves: bool,
                         a: Meter.Account, w: Weather, r: SettleReply, approved: int)
    requires Safe(D, c) && k.shared < |c.codes|
    requires SettleDecides(c, k, ctx, LedgerMoney.Honest(approved, balance), answered, approves, a, w, r, approved)
    ensures var s, pk := c.chain.ledger, ChainKey(c, k);
            && (r.SettledHere? <==>
                  && Meter.CanPay(a, w.live, 25_000, w.month, w.luck) && c.codes[k.shared].owner !in c.busy
                  && Payable(c, k) && (LedgerMoney.Due(s, pk) > 0 ==> approves) && LedgerMoney.Due(s, pk) <= balance && w.reported)
            && (r.SettledHere? ==> approved == s.tallies[pk].count * s.shared[pk.code].payoutRate)
  {
    HonestReply(D, c, k, ctx, approved, balance);
    var shared := c.chain.ledger.shared;
    var code := c.codes[k.shared].key;
    if code in shared && shared[code].payoutToken.Some? { LedgerMoney.PreviewIff(c.chain.ledger, ChainKey(c, k)); }
  }

  /** ... and the row then says so, if the update works. */
  lemma SettledRowSaysSo(D: Deployment, c: Cloud, k: TallyKey, ctx: Ctx, balance: int, w: Weather, approved: int)
    requires Safe(D, c) && k.shared < |c.codes| && c.codes[k.shared].owner !in c.busy && w.reported && w.works && k in c.tallies
    requires Exec(c.chain, SettleFrame(c.codes[k.shared], ctx, k.period, LedgerMoney.Honest(approved, balance))).reply.Ok?
    ensures var s, pk := c.chain.ledger, ChainKey(c, k);
            var d := Settling(D, c, k, ctx, LedgerMoney.Honest(approved, balance), false, w);
            && LedgerSettlement.Settleable(s, pk)
            && d.tallies == c.tallies[k := c.tallies[k].(settled := true, payout := Some(LedgerMoney.Due(s, pk)))]
            && d.chain == World(Mark(s, pk), c.chain.transfers + LedgerSettlement.BatchOf(s, pk))
  {
    HonestReply(D, c, k, ctx, approved, balance);
    SettlingIs(D, c, k, ctx, LedgerMoney.Honest(approved, balance), false, w);
  }
}
