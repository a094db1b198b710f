/** What holds in every state the tally pipeline can reach: the rows never run ahead of the chain,
    and every indexed tally is the sum and the Merkle root of exactly the events stamped with it. */
module TallySafety {
  import opened Basics
  import opened LedgerTypes
  import opened LedgerSpec
  import opened LedgerExec
  import opened LedgerInvariant
  import opened LedgerHistory
  import opened LedgerEntries
  import LedgerMoney
  import opened TallyStore
  import opened TallyPipeline

  // ── what every reachable state satisfies ───────────────────────────

  /** The code is registered on chain with the row's attribution, in a campaign of the row's account. */
  ghost predicate Registered(row: SharedRow, s: State) {
    && row.key in s.shared && s.shared[row.key].attributedTo == row.attributedTo
    && row.key.campaign in s.campaigns && s.campaigns[row.key.campaign].owner == row.owner
  }

  /** Local codes are registered on chain, and no two rows share a key. */
  ghost predicate CodesOk(codes: seq<SharedRow>, s: State) {
    && (forall i :: 0 <= i < |codes| ==> Registered(codes[i], s))
    && (forall i, j :: 0 <= i < j < |codes| ==> codes[i].key != codes[j].key)
  }

  ghost predicate GoodReceipt(D: Deployment, row: SharedRow, e: Event) {
    e.receipt.Some? ==>
      && var r := e.receipt.value;
      && r.payload.version == 2 && r.payload.network == D.network && r.payload.contract == D.contract
      && r.leaf == D.sha(r.payload) && r.signatureValid && r.payload.signer == r.signer
      && r.payload.campaign == row.key.campaign && r.payload.code == row.key.code && r.payload.count == e.count
  }

  ghost predicate EventsOk(D: Deployment, codes: seq<SharedRow>, events: seq<Event>) {
    forall i :: 0 <= i < |events| ==>
      && events[i].shared < |codes| && 1 <= events[i].count <= MAX_EVENT_COUNT
      && GoodReceipt(D, codes[events[i].shared], events[i])
  }

  /** The rows that carry a period. */
  function Stamped(c: Cloud, k: TallyKey): seq<Item> {
    Items(Rows(c.events, k.shared, In(k.period), |c.events|))
  }

  /** The chain holds a tally for `pk` that says what `items` say, credited as registered. */
  ghost predicate OnChain(D: Deployment, s: State, pk: PeriodKey, row: SharedRow, items: seq<Item>) {
    && AllSigned(items) && pk in s.tallies && Sum(items) <= U32_MAX
    && s.tallies[pk] == Tally(pk.period, Sum(items), RootOf(D, items), Credits(row, Sum(items)))
  }

  /** An amount that was paid for a period is its count times the rate of its code. */
  ghost predicate PayoutOk(s: State, pk: PeriodKey, amount: Option<int>) {
    amount.Some? ==> pk in s.settled && pk in s.tallies && pk.code in s.shared && amount.value == LedgerMoney.Due(s, pk)
  }

  /** An indexed tally: its row, the rows stamped with it, and the chain agree. */
  ghost predicate TallyOk(D: Deployment, c: Cloud, k: TallyKey)
    requires k in c.tallies
  {
    && k.shared < |c.codes|
    && var items := Stamped(c, k);
    && 1 <= |items| <= MAX_RECEIPTS && AllSigned(items)
    && c.tallies[k].count == Sum(items) && c.tallies[k].root == RootOf(D, items)
    && c.tallies[k].attributed == (if c.codes[k.shared].attributedTo.Some? then Sum(items) else 0)
    && OnChain(D, c.chain.ledger, ChainKey(c, k), c.codes[k.shared], items)
    && (c.tallies[k].settled ==> ChainKey(c, k) in c.chain.ledger.settled)
    && PayoutOk(c.chain.ledger, ChainKey(c, k), c.tallies[k].payout)
  }

  ghost predicate TalliesIndexed(D: Deployment, c: Cloud) {
    forall k :: k in c.tallies ==> TallyOk(D, c, k)
  }

  /** Every stamp has its tally row. */
  ghost predicate StampsOk(c: Cloud) {
    forall i :: 0 <= i < |c.events| && c.events[i].mark.In? ==>
      TallyKey(c.events[i].shared, c.events[i].mark.period) in c.tallies
  }

  ghost predicate ClearedOk(c: Cloud) { forall sh :: sh in c.cleared ==> Clear(c.events, sh) }

  /** A batch in progress still stands at the head of its queue, as it was read. */
  ghost predicate BatchOk(c: Cloud, account: Address, k: TallyKey, end: nat, batch: Batch) {
    && k.shared < |c.codes| && c.codes[k.shared].owner == account
    && k.shared in c.cleared && end <= |c.events|
    && batch == BatchItems(c.events, k.shared, end) && 1 <= |batch| <= MAX_RECEIPTS
  }

  ghost predicate WorkOk(D: Deployment, c: Cloud, account: Address)
    requires account in c.busy
  {
    match c.busy[account]
    case Selected(k, end, batch) => BatchOk(c, account, k, end, batch)
    case Anchored(k, end, batch) =>
      && BatchOk(c, account, k, end, batch) && k !in c.tallies
      && OnChain(D, c.chain.ledger, ChainKey(c, k), c.codes[k.shared], batch)
    case PaidOut(k, amount) =>
      k.shared < |c.codes| && ChainKey(c, k) in c.chain.ledger.settled && PayoutOk(c.chain.ledger, ChainKey(c, k), amount)
  }

  ghost predicate BusyOk(D: Deployment, c: Cloud) { forall a :: a in c.busy ==> WorkOk(D, c, a) }

  ghost predicate Safe(D: Deployment, c: Cloud) {
    && Reachable(c.chain)
    && CodesOk(c.codes, c.chain.ledger)
    && EventsOk(D, c.codes, c.events)
    && TalliesIndexed(D, c)
    && StampsOk(c)
    && ClearedOk(c)
    && BusyOk(D, c)
  }

  // ── the chain only adds ────────────────────────────────────────────

  ghost predicate Keeps(s: State, s': State) {
    && Contains(s'.shared, s.shared) && Contains(s'.tallies, s.tallies) && s.settled <= s'.settled
    && forall i :: i in s.campaigns ==> i in s'.campaigns && s'.campaigns[i].owner == s.campaigns[i].owner
  }

  lemma ChainGrows(w: World, f: Frame)
    requires Reachable(w)
    ensures Reachable(Exec(w, f).world) && Keeps(w.ledger, Exec(w, f).world.ledger)
  {
    ReachableThen(w, f);
    ReachableIsFresh(w);
    OneCallGrows(w, f);
  }

  lemma CommitAnchors(w: World, ctx: Ctx, D: Deployment, row: SharedRow, period: u64, batch: Batch)
    requires Exec(w, CommitFrame(D, row, ctx, period, batch)).reply.Ok?
    ensures var pk := PeriodKey(row.key, period);
            pk !in w.ledger.tallies &&
            OnChain(D, Exec(w, CommitFrame(D, row, ctx, period, batch)).world.ledger, pk, row, batch)
  {
  }

  lemma RegisterAnchors(w: World, ctx: Ctx, row: SharedRow, payoutToken: Option<Address>, rate: i128)
    requires Exec(w, RegisterFrame(ctx, row, payoutToken, rate)).reply.Ok?
    ensures row.key !in w.ledger.shared
    ensures var s := Exec(w, RegisterFrame(ctx, row, payoutToken, rate)).world.ledger;
            Registered(row, s)
  {
  }

  lemma PayHasItsOwnErrors(w: World, plan: Plan, token: TokenBehaviour)
    ensures Pay(w, plan, token) != Err(AlreadySettled)
  {
    PayErrors(w, plan, token);
  }

  /** A settle that answers Ok or AlreadySettled leaves the period settled, whatever the token did. */
  lemma SettleAnchors(w: World, f: Frame)
    requires Reachable(w) && f.call.Settle?
    requires Exec(w, f).reply.Ok? || Exec(w, f).reply == Err(AlreadySettled)
    ensures PeriodKey(CodeKey(f.call.campaign, f.call.code), f.call.period) in Exec(w, f).world.ledger.settled
  {
    var p := PlanSettle(w.ledger, f.call.owner, f.call.campaign, f.call.code, f.call.period);
    if p.Ok? {
      var s := Mark(w.ledger, p.value.key);
      PayHasItsOwnErrors(World(s, w.transfers), p.value, f.call.token);
      ReachableIsFresh(w);
      GrownClosed(s);
      GrownNow(s);
      PayKeeps(z => Grown(s, z), World(s, w.transfers), p.value, f.call.token);
    } else if OwnerError(w.ledger, f.call.campaign, f.call.owner).None? {
      var k := PeriodKey(CodeKey(f.call.campaign, f.call.code), f.call.period);
      if k.code in w.ledger.shared && k in w.ledger.tallies {
        OnlyOneError(w.ledger.tallies[k].perAttribution, w.ledger.shared[k.code].payoutRate);
      }
    }
  }

  /** What a settlement reports as paid is what the period was worth. */
  lemma PaidIsDue(w: World, f: Frame)
    requires Reachable(w) && f.call.Settle? && (Exec(w, f).reply.Ok? || Exec(w, f).reply == Err(AlreadySettled))
    ensures PayoutOk(Exec(w, f).world.ledger, PeriodKey(CodeKey(f.call.campaign, f.call.code), f.call.period), AmountOf(Exec(w, f).reply))
  {
    if Exec(w, f).reply.Ok? {
      var k := PeriodKey(CodeKey(f.call.campaign, f.call.code), f.call.period);
      ReachableIsGood(w);
      LedgerMoney.PreviewIsPaid(w, f);
      SettleAnchors(w, f);
      ChainGrows(w, f);
      PayableIsKnown(w.ledger, k);
    }
  }

  lemma PayableIsKnown(s: State, k: PeriodKey)
    requires ComputePayouts(s, k).Ok?
    ensures k in s.tallies && k.code in s.shared
  {
  }

  // ── every step keeps the invariant ─────────────────────────────────

  /** A tally row stays good while its stamped rows stay the same and the chain only adds. */
  lemma TallyStays(D: Deployment, c: Cloud, d: Cloud, k: TallyKey)
    requires k in c.tallies && TallyOk(D, c, k) && k in d.tallies && Keeps(c.chain.ledger, d.chain.ledger)
    requires d.tallies[k] == c.tallies[k].(settled := d.tallies[k].settled, payout := d.tallies[k].payout)
    requires k.shared < |d.codes| && d.codes[k.shared] == c.codes[k.shared]
    requires Stamped(d, k) == Stamped(c, k)
    requires d.tallies[k].settled ==> c.tallies[k].settled || ChainKey(d, k) in d.chain.ledger.settled
    requires d.tallies[k].payout == c.tallies[k].payout || PayoutOk(d.chain.ledger, ChainKey(d, k), d.tallies[k].payout)
    ensures TallyOk(D, d, k)
  {
  }

  /** Work under a lock stays good while the head of its queue stays the same. */
  lemma WorkStays(D: Deployment, c: Cloud, d: Cloud, a: Address)
    requires a in c.busy && WorkOk(D, c, a) && a in d.busy && d.busy[a] == c.busy[a]
    requires Keeps(c.chain.ledger, d.chain.ledger) && c.codes <= d.codes && c.cleared <= d.cleared
    requires var w := c.busy[a];
             w.PaidOut? || (w.end <= |d.events| && w.key.shared < |c.codes| &&
                            BatchItems(d.events, w.key.shared, w.end) == BatchItems(c.events, w.key.shared, w.end))
    requires c.busy[a].Anchored? ==> c.busy[a].key !in d.tallies
    ensures WorkOk(D, d, a)
  {
  }

  lemma WorkHasBatch(D: Deployment, c: Cloud, a: Address)
    requires a in c.busy && WorkOk(D, c, a) && !c.busy[a].PaidOut?
    ensures var w := c.busy[a]; BatchOk(c, a, w.key, w.end, w.batch)
  {
  }

  lemma ChainMoves(D: Deployment, c: Cloud, w: World)
    requires Safe(D, c) && Reachable(w) && Keeps(c.chain.ledger, w.ledger)
    ensures Safe(D, c.(chain := w))
  {
    var d := c.(chain := w);
    forall k | k in d.tallies ensures TallyOk(D, d, k) {
      assert Stamped(d, k) == Stamped(c, k);
      TallyStays(D, c, d, k);
    }
    forall a | a in d.busy ensures WorkOk(D, d, a) {
      if !c.busy[a].PaidOut? { WorkHasBatch(D, c, a); }
      WorkStays(D, c, d, a);
    }
  }

  lemma CodeAdded(D: Deployment, c: Cloud, row: SharedRow)
    requires Safe(D, c) && Registered(row, c.chain.ledger)
    requires forall i :: 0 <= i < |c.codes| ==> c.codes[i].key != row.key
    ensures Safe(D, c.(codes := c.codes + [row]))
  {
    var d := c.(codes := c.codes + [row]);
    forall k | k in d.tallies ensures TallyOk(D, d, k) {
      assert Stamped(d, k) == Stamped(c, k);
      TallyStays(D, c, d, k);
    }
    forall a | a in d.busy ensures WorkOk(D, d, a) {
      if !c.busy[a].PaidOut? { WorkHasBatch(D, c, a); }
      WorkStays(D, c, d, a);
    }
  }

  /** The queues of the cleared codes read the same, up to what `a` holds. */
  ghost predicate SameQueues(a: seq<Event>, b: seq<Event>, cleared: set<nat>) {
    && |a| <= |b|
    && forall sh: nat, n: nat :: n <= |a| && sh in cleared ==> Rows(b, sh, Pending, n) == Rows(a, sh, Pending, n)
  }

  ghost predicate SameStamps(c: Cloud, d: Cloud) {
    forall k :: k in c.tallies ==> Stamped(d, k) == Stamped(c, k)
  }

  /** Rows may change as long as no stamped row and no batch under way sees it. */
  lemma RowsMove(D: Deployment, c: Cloud, d: Cloud)
    requires Safe(D, c) && d == c.(events := d.events)
    requires EventsOk(D, d.codes, d.events) && StampsOk(d) && ClearedOk(d)
    requires SameStamps(c, d) && SameQueues(c.events, d.events, c.cleared)
    ensures Safe(D, d)
  {
    forall k | k in d.tallies ensures TallyOk(D, d, k) { TallyStays(D, c, d, k); }
    forall a | a in d.busy ensures WorkOk(D, d, a) {
      if !c.busy[a].PaidOut? { WorkHasBatch(D, c, a); }
      WorkStays(D, c, d, a);
    }
  }

  lemma AppendedRowIsUnseen(c: Cloud, e: Event)
    requires e.mark == Pending
    ensures SameStamps(c, c.(events := c.events + [e])) && SameQueues(c.events, c.events + [e], c.cleared)
  {
    var d := c.(events := c.events + [e]);
    forall k | k in c.tallies ensures Stamped(d, k) == Stamped(c, k) {
      RowsExtend(c.events, [e], k.shared, In(k.period), |c.events|);
    }
    forall sh: nat, n: nat | n <= |c.events| && sh in c.cleared
      ensures Rows(d.events, sh, Pending, n) == Rows(c.events, sh, Pending, n)
    {
      RowsExtend(c.events, [e], sh, Pending, n);
    }
  }

  lemma EventAdded(D: Deployment, c: Cloud, e: Event)
    requires Safe(D, c) && e.mark == Pending && e.receipt.Some?
    requires e.shared < |c.codes| && 1 <= e.count <= MAX_EVENT_COUNT && GoodReceipt(D, c.codes[e.shared], e)
    ensures Safe(D, c.(events := c.events + [e]))
  {
    AppendedRowIsUnseen(c, e);
    RowsMove(D, c, c.(events := c.events + [e]));
  }

  lemma EventsQuarantined(D: Deployment, c: Cloud)
    requires Safe(D, c)
    ensures Safe(D, c.(events := Quarantine(c.events)))
  {
    var d := c.(events := Quarantine(c.events));
    forall k | k in c.tallies ensures Stamped(d, k) == Stamped(c, k) {
      QuarantineKeeps(c.events, k.shared, In(k.period), |c.events|);
    }
    forall sh: nat, n: nat | n <= |c.events| && sh in c.cleared
      ensures Rows(d.events, sh, Pending, n) == Rows(c.events, sh, Pending, n)
    {
      QuarantineKeeps(c.events, sh, Pending, n);
    }
    RowsMove(D, c, d);
  }

  lemma LocksMove(D: Deployment, c: Cloud, d: Cloud)
    requires Safe(D, c) && d == c.(busy := d.busy)
    requires forall a :: a in d.busy ==> WorkOk(D, d, a)
    ensures Safe(D, d)
  {
    forall k | k in d.tallies ensures TallyOk(D, d, k) {
      assert Stamped(d, k) == Stamped(c, k);
      TallyStays(D, c, d, k);
    }
  }

  lemma LocksRelate(D: Deployment, c: Cloud, d: Cloud, a: Address)
    requires BusyOk(D, c) && d == c.(busy := d.busy) && a in c.busy && a in d.busy && d.busy[a] == c.busy[a]
    ensures WorkOk(D, d, a)
  {
    if !c.busy[a].PaidOut? { WorkHasBatch(D, c, a); }
    WorkStays(D, c, d, a);
  }

  lemma LockTaken(D: Deployment, c: Cloud, a: Address, work: Work)
    requires Safe(D, c)
    requires var d := c.(busy := c.busy[a := work]); WorkOk(D, d, a)
    ensures Safe(D, c.(busy := c.busy[a := work]))
  {
    var d := c.(busy := c.busy[a := work]);
    forall b | b in d.busy ensures WorkOk(D, d, b) { if b != a { LocksRelate(D, c, d, b); } }
    LocksMove(D, c, d);
  }

  lemma LockReleased(D: Deployment, c: Cloud, a: Address)
    requires Safe(D, c)
    ensures Safe(D, Release(c, a))
  {
    var d := Release(c, a);
    forall b | b in d.busy ensures WorkOk(D, d, b) { LocksRelate(D, c, d, b); }
    LocksMove(D, c, d);
  }

  lemma MarkedTally(D: Deployment, c: Cloud, k: TallyKey, amount: Option<int>, a: Address, j: TallyKey)
    requires k in c.tallies && k.shared < |c.codes| && ChainKey(c, k) in c.chain.ledger.settled
    requires PayoutOk(c.chain.ledger, ChainKey(c, k), amount) && j in c.tallies && TallyOk(D, c, j)
    ensures TallyOk(D, Release(Marked(c, k, amount), a), j)
  {
    var d := Release(Marked(c, k, amount), a);
    assert Stamped(d, j) == Stamped(c, j);
    TallyStays(D, c, d, j);
  }

  /** A settled period is marked and the lock given back. */
  lemma TallySettled(D: Deployment, c: Cloud, k: TallyKey, amount: Option<int>, a: Address)
    requires Safe(D, c) && k in c.tallies && k.shared < |c.codes| && ChainKey(c, k) in c.chain.ledger.settled
    requires PayoutOk(c.chain.ledger, ChainKey(c, k), amount)
    ensures Safe(D, Release(Marked(c, k, amount), a))
  {
    var d := Release(Marked(c, k, amount), a);
    forall j | j in d.tallies ensures TallyOk(D, d, j) { MarkedTally(D, c, k, amount, a, j); }
    forall b | b in d.busy ensures WorkOk(D, d, b) {
      if !c.busy[b].PaidOut? { WorkHasBatch(D, c, b); }
      WorkStays(D, c, d, b);
    }
  }

  /** The transaction after a commit finds its key free and its batch unchanged. */
  lemma IndexingNeverFails(D: Deployment, c: Cloud, a: Address)
    requires Safe(D, c) && a in c.busy && c.busy[a].Anchored?
    ensures var w := c.busy[a]; !IndexFails(c, w.key, w.end, w.batch)
  {
    assert WorkOk(D, c, a);
  }

  /** A key without a tally has no stamped rows. */
  lemma NothingStamped(c: Cloud, k: TallyKey)
    requires StampsOk(c) && k !in c.tallies
    ensures forall i :: 0 <= i < |c.events| && c.events[i].shared == k.shared ==> c.events[i].mark != In(k.period)
  {
  }

  lemma StampedIsBatch(c: Cloud, d: Cloud, k: TallyKey, end: nat)
    requires StampsOk(c) && k !in c.tallies && end <= |c.events|
    requires d.events == Stamp(c.events, k.shared, end, k.period)
    ensures Stamped(d, k) == BatchItems(c.events, k.shared, end)
    ensures forall j :: j in c.tallies ==> Stamped(d, j) == Stamped(c, j)
  {
    NothingStamped(c, k);
    StampMoves(c.events, k.shared, end, k.period, |c.events|);
    forall j | j in c.tallies ensures Stamped(d, j) == Stamped(c, j) {
      StampElsewhere(c.events, k.shared, end, k.period, j.shared, In(j.period), |c.events|);
    }
  }

  /** The batch of another account is of another code. */
  lemma OtherWorkStays(D: Deployment, c: Cloud, k: TallyKey, end: nat, batch: Batch, a: Address)
    requires Safe(D, c) && a in c.busy && k.shared < |c.codes| && end <= |c.events| && c.codes[k.shared].owner != a
    ensures WorkOk(D, RowWritten(D, c, k, end, batch), a)
  {
    var d := RowWritten(D, c, k, end, batch);
    if !c.busy[a].PaidOut? {
      WorkHasBatch(D, c, a);
      StampKeepsQueues(c.events, k.shared, end, k.period, c.busy[a].key.shared, c.busy[a].end);
    }
    WorkStays(D, c, d, a);
  }

  /** The chain has the batch, and its account's lock is free. */
  ghost predicate ReadyToIndex(D: Deployment, c: Cloud, k: TallyKey, end: nat, batch: Batch) {
    && k.shared < |c.codes| && c.codes[k.shared].owner !in c.busy
    && BatchOk(c, c.codes[k.shared].owner, k, end, batch) && k !in c.tallies
    && OnChain(D, c.chain.ledger, ChainKey(c, k), c.codes[k.shared], batch)
  }

  lemma IndexedTallies(D: Deployment, c: Cloud, k: TallyKey, end: nat, batch: Batch)
    requires TalliesIndexed(D, c) && StampsOk(c) && ReadyToIndex(D, c, k, end, batch)
    ensures TalliesIndexed(D, RowWritten(D, c, k, end, batch))
  {
    var d := RowWritten(D, c, k, end, batch);
    StampedIsBatch(c, d, k, end);
    forall j | j in d.tallies ensures TallyOk(D, d, j) { if j != k { TallyStays(D, c, d, j); } }
  }

  lemma IndexedEvents(D: Deployment, c: Cloud, k: TallyKey, end: nat, batch: Batch)
    requires EventsOk(D, c.codes, c.events) && StampsOk(c) && ClearedOk(c) && k.shared < |c.codes| && end <= |c.events|
    ensures var d := RowWritten(D, c, k, end, batch); EventsOk(D, d.codes, d.events) && StampsOk(d) && ClearedOk(d)
  {
  }

  lemma IndexedWork(D: Deployment, c: Cloud, k: TallyKey, end: nat, batch: Batch)
    requires Safe(D, c) && ReadyToIndex(D, c, k, end, batch)
    ensures BusyOk(D, RowWritten(D, c, k, end, batch))
  {
    var d := RowWritten(D, c, k, end, batch);
    forall a | a in d.busy ensures WorkOk(D, d, a) { OtherWorkStays(D, c, k, end, batch, a); }
  }

  lemma RowsIndexed(D: Deployment, c: Cloud, k: TallyKey, end: nat, batch: Batch)
    requires Safe(D, c) && ReadyToIndex(D, c, k, end, batch)
    ensures Safe(D, RowWritten(D, c, k, end, batch))
  {
    IndexedTallies(D, c, k, end, batch);
    IndexedEvents(D, c, k, end, batch);
    IndexedWork(D, c, k, end, batch);
  }

  /** One step. */
  lemma StepIsSafe(D: Deployment, c: Cloud, step: Step)
    requires Safe(D, c)
    ensures Safe(D, Next(D, c, step))
  {
    match step
    case RegisterCode(ctx, row, payoutToken, rate, indexed) => CodeStep(D, c, ctx, row, payoutToken, rate, indexed);
    case RecordEvent(shared, count, signer, nonce) => RecordStep(D, c, shared, count, signer, nonce);
    case SelectBatch(k, end) => SelectStep(D, c, k, end);
    case SeeSettled(k) => SeeStep(D, c, k);
    case SettleOnChain(k, ctx, token, reported) => SettleStep(D, c, k, ctx, token, reported);
    case ElsewhereOnChain(f) => ElsewhereStep(D, c, f);
    case Migrate => UpkeepStep(D, c, step);
    case CheckUnsigned(_) => UpkeepStep(D, c, step);
    case Crash(_) => UpkeepStep(D, c, step);
    case CommitOnChain(a, ctx, reported) => CommitStep(D, c, a, ctx, reported);
    case IndexLocally(a) => IndexStep(D, c, a);
    case MarkSettled(a) => MarkStep(D, c, a);
  }

  lemma UpkeepStep(D: Deployment, c: Cloud, step: Step)
    requires Safe(D, c) && (step.Migrate? || step.CheckUnsigned? || step.Crash?)
    ensures Safe(D, Next(D, c, step))
  {
    match step
    case Migrate => EventsQuarantined(D, c);
    case CheckUnsigned(shared) => if Clear(c.events, shared) { CodeCleared(D, c, shared); }
    case Crash(account) => LockReleased(D, c, account);
  }

  lemma RecordStep(D: Deployment, c: Cloud, shared: nat, count: nat, signer: Address, nonce: nat)
    requires Safe(D, c)
    ensures Safe(D, Next(D, c, RecordEvent(shared, count, signer, nonce)))
  {
    if shared < |c.codes| && 1 <= count <= MAX_EVENT_COUNT {
      var p := NewPayload(D, c.codes[shared], count, signer, nonce);
      EventAdded(D, c, Event(shared, count, Some(SignedReceipt(p, D.sha(p), signer, true)), Pending));
    }
  }

  lemma ChainCall(D: Deployment, c: Cloud, f: Frame)
    requires Safe(D, c)
    ensures Safe(D, c.(chain := Exec(c.chain, f).world))
  {
    ChainGrows(c.chain, f);
    ChainMoves(D, c, Exec(c.chain, f).world);
  }

  lemma ElsewhereStep(D: Deployment, c: Cloud, f: Frame)
    requires Safe(D, c)
    ensures Safe(D, Next(D, c, ElsewhereOnChain(f)))
  {
    ChainCall(D, c, f);
  }

  lemma CodeStep(D: Deployment, c: Cloud, ctx: Ctx, row: SharedRow, payoutToken: Option<Address>, rate: i128, indexed: bool)
    requires Safe(D, c)
    ensures Safe(D, Next(D, c, RegisterCode(ctx, row, payoutToken, rate, indexed)))
  {
    var d := Exec(c.chain, RegisterFrame(ctx, row, payoutToken, rate));
    ChainCall(D, c, RegisterFrame(ctx, row, payoutToken, rate));
    if d.reply.Ok? && indexed {
      RegisterAnchors(c.chain, ctx, row, payoutToken, rate);
      CodeAdded(D, c.(chain := d.world), row);
    }
  }

  lemma CodeCleared(D: Deployment, c: Cloud, shared: nat)
    requires Safe(D, c) && Clear(c.events, shared)
    ensures Safe(D, c.(cleared := c.cleared + {shared}))
  {
    var d := c.(cleared := c.cleared + {shared});
    forall k | k in d.tallies ensures TallyOk(D, d, k) {
      assert Stamped(d, k) == Stamped(c, k);
      TallyStays(D, c, d, k);
    }
    forall a | a in d.busy ensures WorkOk(D, d, a) {
      if !c.busy[a].PaidOut? { WorkHasBatch(D, c, a); }
      WorkStays(D, c, d, a);
    }
  }

  lemma SelectStep(D: Deployment, c: Cloud, k: TallyKey, end: nat)
    requires Safe(D, c)
    ensures Safe(D, Next(D, c, SelectBatch(k, end)))
  {
    var d := Next(D, c, SelectBatch(k, end));
    if d != c {
      var items := BatchItems(c.events, k.shared, end);
      LockTaken(D, c, c.codes[k.shared].owner, Selected(k, end, items));
    }
  }

  lemma CommitSends(D: Deployment, c: Cloud, a: Address, ctx: Ctx, reported: bool)
    requires a in c.busy && c.busy[a].Selected? && c.busy[a].key.shared < |c.codes|
    ensures var w := c.busy[a];
            var d := Exec(c.chain, CommitFrame(D, c.codes[w.key.shared], ctx, w.key.period, w.batch));
            var e := c.(chain := d.world);
            Next(D, c, CommitOnChain(a, ctx, reported))
              == if d.reply.Ok? && reported then e.(busy := e.busy[a := Anchored(w.key, w.end, w.batch)]) else Release(e, a)
  {
  }

  lemma CommitStep(D: Deployment, c: Cloud, a: Address, ctx: Ctx, reported: bool)
    requires Safe(D, c)
    ensures Safe(D, Next(D, c, CommitOnChain(a, ctx, reported)))
  {
    if a in c.busy && c.busy[a].Selected? {
      var w := c.busy[a];
      WorkHasBatch(D, c, a);
      var f := CommitFrame(D, c.codes[w.key.shared], ctx, w.key.period, w.batch);
      ChainCall(D, c, f);
      CommitSends(D, c, a, ctx, reported);
      if Exec(c.chain, f).reply.Ok? && reported {
        CommitReported(D, c, a, w, ctx);
      } else {
        LockReleased(D, c.(chain := Exec(c.chain, f).world), a);
      }
    }
  }

  lemma CommitReported(D: Deployment, c: Cloud, a: Address, w: Work, ctx: Ctx)
    requires Safe(D, c) && w.Selected? && BatchOk(c, a, w.key, w.end, w.batch)
    requires Exec(c.chain, CommitFrame(D, c.codes[w.key.shared], ctx, w.key.period, w.batch)).reply.Ok?
    requires Safe(D, c.(chain := Exec(c.chain, CommitFrame(D, c.codes[w.key.shared], ctx, w.key.period, w.batch)).world))
    ensures var e := c.(chain := Exec(c.chain, CommitFrame(D, c.codes[w.key.shared], ctx, w.key.period, w.batch)).world);
            Safe(D, e.(busy := e.busy[a := Anchored(w.key, w.end, w.batch)]))
  {
    var e := c.(chain := Exec(c.chain, CommitFrame(D, c.codes[w.key.shared], ctx, w.key.period, w.batch)).world);
    CommitAnchors(c.chain, ctx, D, c.codes[w.key.shared], w.key.period, w.batch);
    TalliesAreOnChain(D, c, w.key);
    LockTaken(D, e, a, Anchored(w.key, w.end, w.batch));
  }

  lemma TalliesAreOnChain(D: Deployment, c: Cloud, k: TallyKey)
    requires Safe(D, c)
    ensures k in c.tallies ==> k.shared < |c.codes| && ChainKey(c, k) in c.chain.ledger.tallies
  {
    if k in c.tallies { assert TallyOk(D, c, k); }
  }

  lemma LockHolderIsReady(D: Deployment, c: Cloud, a: Address)
    requires Safe(D, c) && a in c.busy && c.busy[a].Anchored?
    ensures var w := c.busy[a]; ReadyToIndex(D, Release(c, a), w.key, w.end, w.batch)
  {
    assert WorkOk(D, c, a);
  }

  lemma IndexStep(D: Deployment, c: Cloud, a: Address)
    requires Safe(D, c)
    ensures Safe(D, Next(D, c, IndexLocally(a)))
  {
    if a in c.busy && c.busy[a].Anchored? {
      var w := c.busy[a];
      IndexingNeverFails(D, c, a);
      LockHolderIsReady(D, c, a);
      LockReleased(D, c, a);
      RowsIndexed(D, Release(c, a), w.key, w.end, w.batch);
    }
  }

  lemma SeeStep(D: Deployment, c: Cloud, k: TallyKey)
    requires Safe(D, c)
    ensures Safe(D, Next(D, c, SeeSettled(k)))
  {
    if Next(D, c, SeeSettled(k)) != c { LockTaken(D, c, c.codes[k.shared].owner, PaidOut(k, None)); }
  }

  lemma SettleSends(D: Deployment, c: Cloud, k: TallyKey, ctx: Ctx, token: TokenBehaviour, reported: bool)
    requires k.shared < |c.codes| && c.codes[k.shared].owner !in c.busy
    ensures var row := c.codes[k.shared];
            var d := Exec(c.chain, SettleFrame(row, ctx, k.period, token));
            var e := c.(chain := d.world);
            Next(D, c, SettleOnChain(k, ctx, token, reported))
              == if reported && (d.reply.Ok? || d.reply == Err(AlreadySettled)) then e.(busy := e.busy[row.owner := PaidOut(k, AmountOf(d.reply))])
                 else e
  {
  }

  lemma SettleStep(D: Deployment, c: Cloud, k: TallyKey, ctx: Ctx, token: TokenBehaviour, reported: bool)
    requires Safe(D, c)
    ensures Safe(D, Next(D, c, SettleOnChain(k, ctx, token, reported)))
  {
    if k.shared < |c.codes| && c.codes[k.shared].owner !in c.busy {
      var row := c.codes[k.shared];
      var f := SettleFrame(row, ctx, k.period, token);
      var d := Exec(c.chain, f);
      ChainCall(D, c, f);
      SettleSends(D, c, k, ctx, token, reported);
      if reported && (d.reply.Ok? || d.reply == Err(AlreadySettled)) {
        SettleReported(D, c, k, f);
      }
    }
  }

  lemma SettleReported(D: Deployment, c: Cloud, k: TallyKey, f: Frame)
    requires k.shared < |c.codes| && Reachable(c.chain) && Safe(D, c.(chain := Exec(c.chain, f).world))
    requires f.call.Settle? && PeriodKey(CodeKey(f.call.campaign, f.call.code), f.call.period) == ChainKey(c, k)
    requires Exec(c.chain, f).reply.Ok? || Exec(c.chain, f).reply == Err(AlreadySettled)
    ensures var e := c.(chain := Exec(c.chain, f).world);
            Safe(D, e.(busy := e.busy[c.codes[k.shared].owner := PaidOut(k, AmountOf(Exec(c.chain, f).reply))]))
  {
    SettleAnchors(c.chain, f);
    PaidIsDue(c.chain, f);
    LockTaken(D, c.(chain := Exec(c.chain, f).world), c.codes[k.shared].owner, PaidOut(k, AmountOf(Exec(c.chain, f).reply)));
  }

  lemma MarkStep(D: Deployment, c: Cloud, a: Address)
    requires Safe(D, c)
    ensures Safe(D, Next(D, c, MarkSettled(a)))
  {
    if a in c.busy && c.busy[a].PaidOut? {
      PaidIsSettled(D, c, a);
      if c.busy[a].key in c.tallies { TallySettled(D, c, c.busy[a].key, c.busy[a].amount, a); } else { LockReleased(D, c, a); }
    }
  }

  lemma PaidIsSettled(D: Deployment, c: Cloud, a: Address)
    requires Safe(D, c) && a in c.busy && c.busy[a].PaidOut?
    ensures c.busy[a].key.shared < |c.codes| && ChainKey(c, c.busy[a].key) in c.chain.ledger.settled
    ensures PayoutOk(c.chain.ledger, ChainKey(c, c.busy[a].key), c.busy[a].amount)
  {
    assert WorkOk(D, c, a);
  }

  // ── whole runs ─────────────────────────────────────────────────────

  lemma {:induction false} RunIsSafe(D: Deployment, c: Cloud, steps: seq<Step>)
    requires Safe(D, c)
    ensures Safe(D, Run(D, c, steps))
    decreases |steps|
  {
    if steps != [] {
      StepIsSafe(D, c, steps[0]);
      RunIsSafe(D, Next(D, c, steps[0]), steps[1..]);
    }
  }
}
