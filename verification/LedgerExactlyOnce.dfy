/** Exactly-once payment over whole runs: what survives for a period, whatever the payout token does
    while it is called, is nothing or one batch of count x rate. */
module LedgerExactlyOnce {
  import opened Basics
  import opened LedgerTypes
  import opened LedgerSpec
  import opened LedgerExec
  import opened LedgerInvariant
  import opened LedgerSettlement

  /** Every period has been paid exactly its batch if it is marked, and nothing if it is not. */
  ghost predicate PaidExactly(w: World) {
    && MarksOk(w.ledger)
    && forall k :: For(w.transfers, k) == if k in w.ledger.settled then BatchOf(w.ledger, k) else []
  }

  lemma PaidAfter(w: World, run: seq<Frame>)
    requires PaidExactly(w)
    ensures PaidExactly(ExecAll(w, run))
  {
    ExecAllSettles(w, run);
    var w' := ExecAll(w, run);
    forall k | k in w.ledger.settled ensures BatchOf(w'.ledger, k) == BatchOf(w.ledger, k) {
      SameBatch(w.ledger, w'.ledger, k);
    }
  }

  /** Amount moved by a list of transfers. */
  ghost function Moved(ts: seq<Transfer>): int {
    if ts == [] then 0 else Moved(ts[..|ts| - 1]) + ts[|ts| - 1].payout.amount
  }

  /** In a good state the batch of a period is one transfer of count x rate to the attributed
      address (none when the count is zero). */
  lemma BatchShape(s: State, k: PeriodKey)
    requires TalliesOk(s) && Settleable(s, k)
    ensures var sc := s.shared[k.code];
            && sc.attributedTo.Some?
            && BatchOf(s, k) == (if s.tallies[k].count == 0 then []
                                 else [Transfer(k, sc.payoutToken.value, s.campaigns[k.code.campaign].owner,
                                                Payout(sc.attributedTo.value, s.tallies[k].count * sc.payoutRate))])
            && Moved(BatchOf(s, k)) == s.tallies[k].count * sc.payoutRate
  {
    var sc := s.shared[k.code];
    assert Attributed(s, k);
    BatchOfOne(k, sc.payoutToken.value, s.campaigns[k.code.campaign].owner, sc.attributedTo.value,
               s.tallies[k].count, sc.payoutRate, s.tallies[k].perAttribution);
  }

  lemma BatchOfOne(k: PeriodKey, token: Address, from: Address, target: Address, n: u32, rate: i128, m: Attribution)
    requires CreditsOnly(m, target, n) && rate > 0 && Payouts(m, rate).Ok?
    ensures var batch := AsTransfers(k, token, from, Positive(Payouts(m, rate).value));
            && batch == (if n == 0 then [] else [Transfer(k, token, from, Payout(target, n * rate))])
            && Moved(batch) == n * rate
  {
    PayoutsOfOne(target, n, rate, m);
    if m != [] { PositiveOfOne(Payout(target, n * rate)); }
    if n != 0 {
      assert n * rate > 0;
      MovedOne(Transfer(k, token, from, Payout(target, n * rate)));
    }
  }

  lemma MovedOne(t: Transfer)
    ensures Moved([t]) == t.payout.amount
  {
    assert [t][..0] == [];
  }

  lemma PositiveOfOne(p: Payout)
    ensures Positive([p]) == if p.amount > 0 then [p] else []
    ensures forall k, token, from :: AsTransfers(k, token, from, [p]) == [Transfer(k, token, from, p)]
    ensures Total([p]) == p.amount
  {
    assert [p][1..] == [];
  }

  lemma PayoutsOfOne(target: Address, n: u32, rate: i128, m: Attribution)
    requires CreditsOnly(m, target, n)
    ensures Payouts(m, rate).Ok? <==> m == [] || I128_MIN <= n * rate <= I128_MAX
    ensures Payouts(m, rate).Ok? ==>
              Payouts(m, rate).value == if m == [] then [] else [Payout(target, n * rate)]
  {
    if m != [] {
      assert m[1..] == [];
      assert Payouts([], rate) == Ok([]);
    }
  }

  /** What a period may have been paid: nothing while unmarked; once marked, one batch of
      count x rate, all of it from the campaign's owner to the attributed address. */
  ghost predicate OneBatch(w: World, k: PeriodKey) {
    if k in w.ledger.settled then
      && Settleable(w.ledger, k)
      && var ts := For(w.transfers, k);
         var sc := w.ledger.shared[k.code];
      && |ts| <= 1
      && Moved(ts) == w.ledger.tallies[k].count * sc.payoutRate
      && (forall t :: t in ts ==>
            && Some(t.payout.to) == sc.attributedTo && Some(t.token) == sc.payoutToken
            && t.from == w.ledger.campaigns[k.code.campaign].owner)
    else
      For(w.transfers, k) == []
  }

  lemma PaidIsOneBatch(w: World, k: PeriodKey)
    requires PaidExactly(w) && TalliesOk(w.ledger)
    ensures OneBatch(w, k)
  {
    if k in w.ledger.settled { BatchShape(w.ledger, k); }
  }

  lemma InvHasTallies(s: State)
    requires Inv(s)
    ensures TalliesOk(s)
  {
  }

  lemma ReachableIsPaid(w: World)
    requires Reachable(w)
    ensures PaidExactly(w) && TalliesOk(w.ledger)
  {
    var run :| w == ExecAll(EmptyWorld, run);
    PaidAfter(EmptyWorld, run);
    ReachableIsGood(w);
    InvHasTallies(w.ledger);
  }

  /** Main theorem. Whatever hostile tokens do in whatever run, the transfers that survive for a
      period are none while it is unmarked, and a single batch of count x rate once it is marked. */
  lemma SettledAtMostOnce(run: seq<Frame>, k: PeriodKey)
    ensures OneBatch(ExecAll(EmptyWorld, run), k)
  {
    ReachableIsPaid(ExecAll(EmptyWorld, run));
    PaidIsOneBatch(ExecAll(EmptyWorld, run), k);
  }
}
