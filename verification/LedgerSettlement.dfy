/** Exactly-once settlement against a hostile payout token. The token may call any entry point back
    while it answers `allowance`, `balance` or `transfer_from`, as deep as it likes; failed frames
    roll back together with the transfers made inside them. */
module LedgerSettlement {
  import opened Basics
  import opened LedgerTypes
  import opened LedgerSpec
  import opened LedgerExec
  import opened LedgerInvariant

  // ── the batch that belongs to a period ─────────────────────────────

  /** The transfers of `ts` that settle `k`, in order. */
  ghost function For(ts: seq<Transfer>, k: PeriodKey): seq<Transfer> {
    if ts == [] then []
    else For(ts[..|ts| - 1], k) + (if ts[|ts| - 1].key == k then [ts[|ts| - 1]] else [])
  }

  ghost function AsTransfers(k: PeriodKey, token: Address, from: Address, ps: seq<Payout>): seq<Transfer> {
    if ps == [] then [] else [Transfer(k, token, from, ps[0])] + AsTransfers(k, token, from, ps[1..])
  }

  ghost predicate Settleable(s: State, k: PeriodKey) {
    && k in s.tallies && k.code in s.shared && s.shared[k.code].payoutToken.Some?
    && k.code.campaign in s.campaigns
    && Payouts(s.tallies[k].perAttribution, s.shared[k.code].payoutRate).Ok?
  }

  /** What settling `k` must transfer: its tally at its registered rate, from the campaign's owner. */
  ghost function BatchOf(s: State, k: PeriodKey): seq<Transfer>
    requires Settleable(s, k)
  {
    AsTransfers(k, s.shared[k.code].payoutToken.value, s.campaigns[k.code.campaign].owner,
                Positive(Payouts(s.tallies[k].perAttribution, s.shared[k.code].payoutRate).value))
  }

  // ── what one execution does to the transfer record ─────────────────

  /** The parts of the storage that determine batches only grow. */
  ghost predicate KeepsTerms(a: State, b: State) {
    && (forall c :: c in a.campaigns ==> c in b.campaigns && b.campaigns[c].owner == a.campaigns[c].owner)
    && (forall k :: k in a.shared ==> k in b.shared && b.shared[k] == a.shared[k])
    && (forall k :: k in a.tallies ==> k in b.tallies && b.tallies[k] == a.tallies[k])
    && a.settled <= b.settled
  }

  /** Marked periods have a batch, and the next campaign id is unused. */
  ghost predicate MarksOk(s: State) {
    && (forall i :: i in s.campaigns ==> i <= s.campCtr)
    && (forall k :: k in s.settled ==> Settleable(s, k))
  }

  /** `w'` has, for every period newly marked since `w`, one batch more, and nothing else. */
  ghost predicate Settles(w: World, w': World) {
    && MarksOk(w'.ledger) && KeepsTerms(w.ledger, w'.ledger)
    && forall k :: For(w'.transfers, k) ==
          For(w.transfers, k)
          + (if k in w'.ledger.settled && k !in w.ledger.settled then BatchOf(w'.ledger, k) else [])
  }

  /** The same while `plan` is being paid: its own period gets exactly `ps`. */
  ghost predicate SettlesDuring(w: World, w': World, plan: Plan, ps: seq<Payout>) {
    && MarksOk(w'.ledger) && KeepsTerms(w.ledger, w'.ledger)
    && forall k :: For(w'.transfers, k) ==
          For(w.transfers, k)
          + (if k == plan.key then AsTransfers(k, plan.token, plan.owner, ps)
             else if k in w'.ledger.settled && k !in w.ledger.settled then BatchOf(w'.ledger, k) else [])
  }

  lemma ForLast(ts: seq<Transfer>, t: Transfer, k: PeriodKey)
    ensures For(ts + [t], k) == For(ts, k) + (if t.key == k then [t] else [])
  {
    assert (ts + [t])[..|ts|] == ts;
  }

  lemma SameBatch(a: State, b: State, k: PeriodKey)
    requires KeepsTerms(a, b) && Settleable(a, k)
    ensures Settleable(b, k) && BatchOf(b, k) == BatchOf(a, k)
  {
  }

  lemma SettlesThen(w: World, a: World, b: World)
    requires MarksOk(a.ledger) && Settles(w, a) && Settles(a, b)
    ensures Settles(w, b)
  {
    forall k | k in a.ledger.settled ensures BatchOf(b.ledger, k) == BatchOf(a.ledger, k) {
      SameBatch(a.ledger, b.ledger, k);
    }
  }

  lemma SettlesThenDuring(w: World, a: World, b: World, plan: Plan, ps: seq<Payout>)
    requires MarksOk(a.ledger) && Settles(w, a) && SettlesDuring(a, b, plan, ps)
    requires plan.key in w.ledger.settled
    ensures SettlesDuring(w, b, plan, ps)
  {
    forall k | k in a.ledger.settled ensures BatchOf(b.ledger, k) == BatchOf(a.ledger, k) {
      SameBatch(a.ledger, b.ledger, k);
    }
  }

  lemma ForRecord(a: World, plan: Plan, p: Payout, k: PeriodKey)
    ensures For(Record(a, plan, p).transfers, k)
         == For(a.transfers, k) + (if k == plan.key then [Transfer(k, plan.token, plan.owner, p)] else [])
  {
    ForLast(a.transfers, Transfer(plan.key, plan.token, plan.owner, p), k);
  }

  /** Recording the next transfer of the plan and going on. */
  lemma RecordThen(a: World, b: World, plan: Plan, ps: seq<Payout>)
    requires ps != [] && SettlesDuring(Record(a, plan, ps[0]), b, plan, ps[1..])
    ensures SettlesDuring(a, b, plan, ps)
  {
    var mid := Record(a, plan, ps[0]);
    forall k
      ensures For(b.transfers, k) == For(a.transfers, k)
          + (if k == plan.key then AsTransfers(k, plan.token, plan.owner, ps)
             else if k in b.ledger.settled && k !in a.ledger.settled then BatchOf(b.ledger, k) else [])
    {
      ForRecord(a, plan, ps[0], k);
      if k == plan.key {
        var t := Transfer(k, plan.token, plan.owner, ps[0]);
        var rest := AsTransfers(k, plan.token, plan.owner, ps[1..]);
        Regroup(For(a.transfers, k), [t], rest);
      } else {
        assert For(a.transfers, k) + [] == For(a.transfers, k);
        assert For(mid.transfers, k) == For(a.transfers, k);
      }
    }
  }

  // ── storage writes and the marks ───────────────────────────────────

  /** The state has the same marks as `a`, and at least its terms and tallies. */
  ghost predicate SameMarks(a: State, s: State) {
    KeepsTerms(a, s) && s.settled == a.settled && forall i :: i in s.campaigns ==> i <= s.campCtr
  }

  lemma CampaignWritesKeepMarks(a: State, s: State)
    requires SameMarks(a, s)
    ensures forall c :: CanAdd(s, c) ==> SameMarks(a, AddCampaign(s, c))
    ensures forall d :: SameMarks(a, WriteDelegates(s, d))
  {
  }

  lemma TokenWritesKeepMarks(a: State, s: State)
    requires SameMarks(a, s)
    ensures forall m, code, now :: CanMint(s, m, code) ==> SameMarks(a, MintOne(s, m, code, now))
    ensures forall id, ref, now :: CanBurn(s, id) ==> SameMarks(a, BurnToken(s, id, ref, now))
  {
  }

  lemma TallyWritesKeepMarks(a: State, s: State)
    requires SameMarks(a, s)
    ensures forall k, sc :: CanRegister(s, k, sc) ==> SameMarks(a, WriteShared(s, k, sc))
    ensures forall k, t :: CanCommit(s, k, t) ==> SameMarks(a, WriteTally(s, k, t))
  {
  }

  lemma SameMarksClosed(a: State)
    ensures ClosedUnderCalls(s => SameMarks(a, s))
  {
    forall s, c | SameMarks(a, s) && CanAdd(s, c) ensures SameMarks(a, AddCampaign(s, c)) {
      CampaignWritesKeepMarks(a, s);
    }
    forall s, d | SameMarks(a, s) ensures SameMarks(a, WriteDelegates(s, d)) { CampaignWritesKeepMarks(a, s); }
    forall s, m, code, now | SameMarks(a, s) && CanMint(s, m, code) ensures SameMarks(a, MintOne(s, m, code, now)) {
      TokenWritesKeepMarks(a, s);
    }
    forall s, id, ref, now | SameMarks(a, s) && CanBurn(s, id) ensures SameMarks(a, BurnToken(s, id, ref, now)) {
      TokenWritesKeepMarks(a, s);
    }
    forall s, k, sc | SameMarks(a, s) && CanRegister(s, k, sc) ensures SameMarks(a, WriteShared(s, k, sc)) {
      TallyWritesKeepMarks(a, s);
    }
    forall s, k, t | SameMarks(a, s) && CanCommit(s, k, t) ensures SameMarks(a, WriteTally(s, k, t)) {
      TallyWritesKeepMarks(a, s);
    }
  }

  /** Only `settle` marks periods; every other entry point leaves terms, tallies and marks alone
      or adds to the first two. */
  lemma ApplyKeepsTerms(s: State, ctx: Ctx, call: Call)
    requires !call.Settle? && MarksOk(s)
    ensures SameMarks(s, Apply(s, ctx, call).state)
  {
    SameMarksClosed(s);
    ApplyKeeps(x => SameMarks(s, x), s, ctx, call);
  }

  lemma ApplySettles(w: World, ctx: Ctx, call: Call)
    requires !call.Settle? && MarksOk(w.ledger)
    ensures Settles(w, World(Apply(w.ledger, ctx, call).state, w.transfers))
  {
    ApplyKeepsTerms(w.ledger, ctx, call);
    var s' := Apply(w.ledger, ctx, call).state;
    forall k | k in s'.settled ensures Settleable(s', k) { SameBatch(w.ledger, s', k); }
  }

  lemma PlanFacts(s: State, owner: Address, campaign: u64, code: string, period: u64)
    requires MarksOk(s) && PlanSettle(s, owner, campaign, code, period).Ok?
    ensures var plan := PlanSettle(s, owner, campaign, code, period).value;
            && plan.key == PeriodKey(CodeKey(campaign, code), period)
            && plan.key !in s.settled && Settleable(s, plan.key)
            && MarksOk(Mark(s, plan.key)) && Settleable(Mark(s, plan.key), plan.key)
            && BatchOf(Mark(s, plan.key), plan.key) == AsTransfers(plan.key, plan.token, plan.owner, plan.payouts)
  {
    var plan := PlanSettle(s, owner, campaign, code, period).value;
    forall k | Settleable(s, k) ensures Settleable(Mark(s, plan.key), k) { SameBatch(s, Mark(s, plan.key), k); }
  }

  // ── the induction over call trees ──────────────────────────────────

  lemma {:induction false} ExecSettles(w: World, f: Frame)
    requires MarksOk(w.ledger)
    ensures Settles(w, Exec(w, f).world)
    decreases f, 3
  {
    if f.call.Settle? {
      var p := PlanSettle(w.ledger, f.call.owner, f.call.campaign, f.call.code, f.call.period);
      if p.Ok? {
        PlanFacts(w.ledger, f.call.owner, f.call.campaign, f.call.code, f.call.period);
        var plan := p.value;
        var marked := World(Mark(w.ledger, plan.key), w.transfers);
        var paid := Pay(marked, plan, f.call.token);
        if paid.Ok? {
          PaySettles(marked, plan, f.call.token);
          WholeSettlement(w, marked, paid.value, plan);
        }
      }
    } else {
      ApplySettles(w, f.ctx, f.call);
    }
  }

  lemma WholeSettlement(w: World, marked: World, b: World, plan: Plan)
    requires marked == World(Mark(w.ledger, plan.key), w.transfers) && plan.key !in w.ledger.settled
    requires Settleable(marked.ledger, plan.key)
    requires BatchOf(marked.ledger, plan.key) == AsTransfers(plan.key, plan.token, plan.owner, plan.payouts)
    requires SettlesDuring(marked, b, plan, plan.payouts)
    ensures Settles(w, b)
  {
    SameBatch(marked.ledger, b.ledger, plan.key);
    assert plan.key in marked.ledger.settled;
  }

  lemma {:induction false} ExecAllSettles(w: World, fs: seq<Frame>)
    requires MarksOk(w.ledger)
    ensures Settles(w, ExecAll(w, fs))
    decreases fs, 0
  {
    if fs != [] {
      ExecSettles(w, fs[0]);
      var w1 := Exec(w, fs[0]).world;
      ExecAllSettles(w1, fs[1..]);
      SettlesThen(w, w1, ExecAll(w1, fs[1..]));
    }
  }

  lemma {:induction false} PaySettles(w: World, plan: Plan, token: TokenBehaviour)
    requires MarksOk(w.ledger) && plan.key in w.ledger.settled && Pay(w, plan, token).Ok?
    ensures SettlesDuring(w, Pay(w, plan, token).value, plan, plan.payouts)
    decreases token, 2
  {
    ExecAllSettles(w, token.allowance.reentry);
    var w1 := ExecAll(w, token.allowance.reentry);
    ExecAllSettles(w1, token.balance.reentry);
    var w2 := ExecAll(w1, token.balance.reentry);
    SettlesThen(w, w1, w2);
    PayEachSettles(w2, plan, plan.payouts, token.transfers);
    SettlesThenDuring(w, w2, Pay(w, plan, token).value, plan, plan.payouts);
  }

  lemma {:induction false} PayEachSettles(w: World, plan: Plan, ps: seq<Payout>, replies: seq<TokenReply>)
    requires MarksOk(w.ledger) && plan.key in w.ledger.settled && PayEach(w, plan, ps, replies).Ok?
    ensures SettlesDuring(w, PayEach(w, plan, ps, replies).value, plan, ps)
    decreases replies, |ps|, 1
  {
    if ps != [] {
      var b := PayEach(w, plan, ps, replies).value;
      if replies == [] {
        PayEachSettles(Record(w, plan, ps[0]), plan, ps[1..], []);
        RecordThen(w, b, plan, ps);
      } else {
        ExecAllSettles(w, replies[0].reentry);
        var w1 := ExecAll(w, replies[0].reentry);
        PayEachSettles(Record(w1, plan, ps[0]), plan, ps[1..], replies[1..]);
        RecordThen(w1, b, plan, ps);
        SettlesThenDuring(w, w1, b, plan, ps);
      }
    }
  }
}
