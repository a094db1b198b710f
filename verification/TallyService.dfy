/** The commit and settle handlers as they run, one statement after the other, with the places where
    they may stop. Each run of a handler is a run of the pipeline's steps. */
module TallyService {
  import opened Basics
  import opened LedgerTypes
  import opened LedgerSpec
  import opened LedgerExec
  import opened TallyStore
  import opened TallyPipeline
  import opened CreditMeter
  import Meter
  import Merkle
  import Periods

  const MCR_COMMIT: int := 15_000
  const MCR_SETTLE: int := 25_000

  datatype CommitReply =
    | NotFound | WeekFull | BadPeriod | LegacyUnsigned | Locked | NothingPending | CountOverflows | NoCredits
    | ChainRefused            // the chain refused, or its answer was lost
    | IndexingFailed | Committed(count: nat, root: Bytes32)

  datatype SettleReply =
    | NoSuchCode | CannotPay | AccountLocked | NotConfigured | NoPreview | NotApproved
    | Reconciled              // somebody else has settled the period
    | NotSettled              // the chain refused, or its answer was lost
    | SettledHere

  /** The clock, the account's plan and what may go wrong: the two transactions of a charge, the
      chain's answer, the local transaction, and the transaction of a refund. */
  datatype Weather = Weather(
    week: nat, lastWeek: nat -> nat, month: nat, live: bool, luck: Meter.Luck, reported: bool, works: bool, refunds: bool)

  // ── the handlers as runs of the pipeline's steps ───────────────────

  /** The period of a commit: the one asked for, or with 0 the next free one of the week. */
  function Chosen(c: Cloud, shared: nat, period: nat, week: nat): Option<nat> {
    if period == 0 then Periods.NextPeriod(PeriodsOf(c, shared), week) else Some(period)
  }

  /** The steps of a commit from the moment on that it holds the lock. */
  function Anchoring(D: Deployment, c: Cloud, k: TallyKey, end: nat, ctx: Ctx, w: Weather): Cloud
    requires k.shared < |c.codes|
  {
    var a := c.codes[k.shared].owner;
    var c1 := Next(D, c, SelectBatch(k, end));
    var c2 := Next(D, c1, CommitOnChain(a, ctx, w.reported));
    Next(D, c2, if w.works then IndexLocally(a) else Crash(a))
  }

  /** The chain call of a commit with a given batch. */
  function Sent(D: Deployment, c: Cloud, k: TallyKey, ctx: Ctx, batch: Batch): Done
    requires k.shared < |c.codes|
  {
    Exec(c.chain, CommitFrame(D, c.codes[k.shared], ctx, k.period, batch))
  }

  /** The steps of a settlement that holds the lock; `known` says that the chain has already been
      seen to be settled. */
  function Settling(D: Deployment, c: Cloud, k: TallyKey, ctx: Ctx, token: TokenBehaviour, known: bool, w: Weather): Cloud
    requires k.shared < |c.codes|
  {
    var a := c.codes[k.shared].owner;
    var c1 := Next(D, c, if known then SeeSettled(k) else SettleOnChain(k, ctx, token, w.reported));
    Next(D, c1, if w.works then MarkSettled(a) else Crash(a))
  }

  lemma LockAndRelease(busy: map<Address, Work>, a: Address, w: Work)
    requires a !in busy
    ensures busy[a := w] - {a} == busy && busy - {a} == busy
  {
  }

  lemma SentIs(D: Deployment, c: Cloud, k: TallyKey, end: nat, ctx: Ctx, reported: bool, batch: Batch)
    requires k.shared < |c.codes|
    ensures var a := c.codes[k.shared].owner;
            var c1 := c.(busy := c.busy[a := Selected(k, end, batch)]);
            var d := Sent(D, c, k, ctx, batch);
            Next(D, c1, CommitOnChain(a, ctx, reported))
              == if d.reply.Ok? && reported then c1.(chain := d.world, busy := c1.busy[a := Anchored(k, end, batch)])
                 else Release(c1.(chain := d.world), a)
  {
  }

  lemma IndexedIs(D: Deployment, e: Cloud, k: TallyKey, end: nat, batch: Batch, a: Address)
    requires k.shared < |e.codes| && a in e.busy && e.busy[a] == Anchored(k, end, batch)
    ensures Next(D, e, IndexLocally(a)) == Release(LocallyIndexed(D, e, k, end, batch), a)
  {
  }

  /** The steps after the chain call, from the lock's work on. */
  lemma RefusedIs(D: Deployment, e: Cloud, a: Address)
    requires a !in e.busy
    ensures Next(D, e, IndexLocally(a)) == e && Next(D, e, Crash(a)) == e
  {
    assert e.busy - {a} == e.busy;
  }

  lemma AcceptedIs(D: Deployment, e: Cloud, k: TallyKey, end: nat, batch: Batch, works: bool, a: Address)
    requires k.shared < |e.codes| && a !in e.busy
    ensures var f := e.(busy := e.busy[a := Anchored(k, end, batch)]);
            Next(D, f, if works then IndexLocally(a) else Crash(a)) == if works then LocallyIndexed(D, e, k, end, batch) else e
  {
    LockAndRelease(e.busy, a, Anchored(k, end, batch));
    if works { IndexedIs(D, e.(busy := e.busy[a := Anchored(k, end, batch)]), k, end, batch, a); }
  }

  /** What the steps of a commit come to: the chain's own change, and the local transaction if the
      chain accepts, the answer arrives and the process goes on. */
  lemma AnchoringIs(D: Deployment, c: Cloud, k: TallyKey, end: nat, ctx: Ctx, w: Weather, batch: Batch)
    requires k.shared < |c.codes| && k.shared in c.cleared && c.codes[k.shared].owner !in c.busy
    requires IsBatch(c.events, k.shared, end) && batch == BatchItems(c.events, k.shared, end)
    requires 0 < Sum(batch) <= MAX_TOTAL
    ensures var d := Sent(D, c, k, ctx, batch);
            var e := c.(chain := d.world);
            Anchoring(D, c, k, end, ctx, w) == if d.reply.Ok? && w.reported && w.works then LocallyIndexed(D, e, k, end, batch) else e
  {
    var a := c.codes[k.shared].owner;
    var e := c.(chain := Sent(D, c, k, ctx, batch).world);
    BatchSelected(D, c, k, end, batch);
    SentIs(D, c, k, end, ctx, w.reported, batch);
    LockAndRelease(c.busy, a, Selected(k, end, batch));
    assert c.busy[a := Selected(k, end, batch)][a := Anchored(k, end, batch)] == c.busy[a := Anchored(k, end, batch)];
    RefusedIs(D, e, a);
    AcceptedIs(D, e, k, end, batch, w.works, a);
  }

  lemma PaidIs(D: Deployment, c: Cloud, k: TallyKey, amount: Option<int>, a: Address)
    requires a !in c.busy
    ensures Next(D, c.(busy := c.busy[a := PaidOut(k, amount)]), MarkSettled(a)) == Marked(c, k, amount)
    ensures Next(D, c.(busy := c.busy[a := PaidOut(k, amount)]), Crash(a)) == c
    ensures Next(D, c, MarkSettled(a)) == c && Next(D, c, Crash(a)) == c
  {
    LockAndRelease(c.busy, a, PaidOut(k, amount));
  }

  /** The row is marked exactly when the chain is known to be settled and the update works; with the
      amount when this call has settled it. */
  lemma SettlingIs(D: Deployment, c: Cloud, k: TallyKey, ctx: Ctx, token: TokenBehaviour, known: bool, w: Weather)
    requires k.shared < |c.codes| && c.codes[k.shared].owner !in c.busy
    requires known ==> ChainKey(c, k) in c.chain.ledger.settled
    ensures var d := Exec(c.chain, SettleFrame(c.codes[k.shared], ctx, k.period, token));
            var e := c.(chain := d.world);
            Settling(D, c, k, ctx, token, known, w)
              == if known then (if w.works then Marked(c, k, None) else c)
                 else if w.works && w.reported && (d.reply.Ok? || d.reply == Err(AlreadySettled)) then Marked(e, k, AmountOf(d.reply))
                 else e
  {
    var a := c.codes[k.shared].owner;
    var d := Exec(c.chain, SettleFrame(c.codes[k.shared], ctx, k.period, token));
    PaidIs(D, c, k, None, a);
    PaidIs(D, c.(chain := d.world), k, AmountOf(d.reply), a);
  }

  /** merkleRoot of the selected leaves. */
  method RootOfLeaves(D: Deployment, leaves: seq<Bytes32>) returns (root: Bytes32)
    ensures root == Merkle.Root(D.parent, 0, leaves)
  {
    var levels, _ := Merkle.BuildLevels(D.parent, leaves);
    root := if |levels| == 0 then 0 else levels[|levels| - 1][0];
  }

  /** The update that stamps a batch, with its number of rows. */
  method StampRows(events: seq<Event>, shared: nat, end: nat, period: u64) returns (stamped: seq<Event>, updated: nat)
    requires end <= |events|
    ensures stamped == Stamp(events, shared, end, period) && updated == |Rows(events, shared, Pending, end)|
  {
    stamped, updated := [], 0;
    for i := 0 to |events|
      invariant |stamped| == i && forall j :: 0 <= j < i ==> stamped[j] == Stamp(events, shared, end, period)[j]
      invariant updated == |Rows(events, shared, Pending, Min(i, end))|
    {
      if i < end && events[i].shared == shared && events[i].mark == Pending {
        stamped, updated := stamped + [events[i].(mark := In(period))], updated + 1;
      } else {
        stamped := stamped + [events[i]];
      }
    }
  }

  // ── what each answer says about the state before ───────────────────

  /** The request names a code and, itself or by the automatic choice, a valid period. */
  ghost predicate Asked(c: Cloud, shared: nat, period: u64, w: Weather) {
    && shared < |c.codes| && Chosen(c, shared, period, w.week).Some?
    && Periods.Valid(Chosen(c, shared, period, w.week).value, w.lastWeek)
  }

  /** The answer from the chain call on. */
  ghost predicate AnchorDecides(D: Deployment, c: Cloud, k: TallyKey, ctx: Ctx, items: Batch, w: Weather, r: CommitReply)
    requires k.shared < |c.codes|
  {
    var accepted := w.reported && Sent(D, c, k, ctx, items).reply.Ok?;
    && (r.ChainRefused? <==> !accepted)
    && (r.IndexingFailed? <==> accepted && (!w.works || k in c.tallies))
    && (r == Committed(Sum(items), RootOf(D, items)) <==> accepted && w.works && k !in c.tallies)
  }

  /** The answer of a commit that holds the lock, for the batch up to `end` and the account before. */
  ghost predicate CommitDecides(D: Deployment, c: Cloud, k: TallyKey, end: nat, ctx: Ctx, a: Meter.Account, w: Weather, r: CommitReply)
    requires k.shared < |c.codes|
  {
    && IsBatch(c.events, k.shared, end) && AllSigned(BatchItems(c.events, k.shared, end))
    && var items := BatchItems(c.events, k.shared, end);
    && var paid := Meter.CanPay(a, w.live, 15_000, w.month, w.luck);
    && (r.NothingPending? <==> Sum(items) == 0)
    && (r.CountOverflows? <==> Sum(items) > 4_000_000_000)
    && (r.NoCredits? <==> 0 < Sum(items) <= 4_000_000_000 && !paid)
    && (0 < Sum(items) <= 4_000_000_000 && paid ==> AnchorDecides(D, c, k, ctx, items, w, r))
  }

  /** The record of cleared codes has no part in the answer. */
  lemma ClearingDecidesNothing(D: Deployment, c: Cloud, cleared: set<nat>, k: TallyKey, end: nat, ctx: Ctx, a: Meter.Account, w: Weather,
                               r: CommitReply)
    requires k.shared < |c.codes| && CommitDecides(D, c.(cleared := cleared), k, end, ctx, a, w, r)
    ensures CommitDecides(D, c, k, end, ctx, a, w, r)
  {
  }

  /** The answer of a settlement, and what it has approved. */
  ghost predicate SettleDecides(c: Cloud, k: TallyKey, ctx: Ctx, token: TokenBehaviour, answered: bool, approves: bool,
                                a: Meter.Account, w: Weather, r: SettleReply, approved: int) {
    var found := k.shared < |c.codes|;
    var paid := Meter.CanPay(a, w.live, 25_000, w.month, w.luck);
    && (r.NoSuchCode? <==> !found)
    && (r.CannotPay? <==> found && !paid)
    && (found && paid ==> PayDecides(c, k, ctx, token, answered, approves, w, r, approved))
  }

  ghost predicate PayDecides(c: Cloud, k: TallyKey, ctx: Ctx, token: TokenBehaviour, answered: bool, approves: bool,
                             w: Weather, r: SettleReply, approved: int)
    requires k.shared < |c.codes|
  {
    var row, s := c.codes[k.shared], c.chain.ledger;
    var idle := row.owner !in c.busy;
    var configured := idle && row.key in s.shared && s.shared[row.key].payoutToken.Some?;
    var known := configured && answered && ChainKey(c, k) in s.settled;
    var preview := ComputePayouts(s, ChainKey(c, k));
    var asks := configured && !known && preview.Ok? && (Total(preview.value) > 0 ==> approves);
    var reply := Exec(c.chain, SettleFrame(row, ctx, k.period, token)).reply;
    && (r.AccountLocked? <==> !idle)
    && (r.NotConfigured? <==> idle && !configured)
    && (r.NoPreview? <==> configured && !known && preview.Err?)
    && (r.NotApproved? <==> configured && !known && preview.Ok? && Total(preview.value) > 0 && !approves)
    && (r.Reconciled? <==> known || (asks && w.reported && reply == Err(AlreadySettled)))
    && (r.SettledHere? <==> asks && w.reported && reply.Ok?)
    && (r.NotSettled? <==> asks && !(w.reported && (reply.Ok? || reply == Err(AlreadySettled))))
    && approved == if asks && Total(preview.value) > 0 then Total(preview.value) else 0
  }

  class Service {
    var cloud: Cloud

    constructor (cloud: Cloud)
      ensures this.cloud == cloud
    {
      this.cloud := cloud;
    }

    /** handleCommitTally. Period 0 asks for the next free one of the current week. */
    method CommitTally(D: Deployment, shared: nat, period: u64, ctx: Ctx, credits: Credits, w: Weather)
      returns (r: CommitReply, ghost k: TallyKey, ghost end: nat)
      modifies this, credits
      ensures r.NotFound? <==> shared >= |old(cloud).codes|
      ensures r.WeekFull? <==> shared < |old(cloud).codes| && Chosen(old(cloud), shared, period, w.week).None?
      ensures !r.NotFound? && !r.WeekFull? ==>
                var p := Chosen(old(cloud), shared, period, w.week).value;
                (r.BadPeriod? <==> !Periods.Valid(p, w.lastWeek)) && (!r.BadPeriod? ==> k == TallyKey(shared, p))
      ensures var asked := Asked(old(cloud), shared, period, w);
              && (r.LegacyUnsigned? <==> asked && !Clear(old(cloud).events, shared))
              && (r.Locked? <==> asked && Clear(old(cloud).events, shared) && old(cloud).codes[shared].owner in old(cloud).busy)
              && (asked && Clear(old(cloud).events, shared) && old(cloud).codes[shared].owner !in old(cloud).busy ==>
                    k.shared == shared && CommitDecides(D, old(cloud), k, end, ctx, old(credits.Now()), w, r))
      ensures r.NotFound? || r.WeekFull? || r.BadPeriod? || r.LegacyUnsigned? ==> cloud == old(cloud)
      ensures r.Locked? || r.NoCredits? ==> cloud == Next(D, old(cloud), CheckUnsigned(shared))
      ensures r.NothingPending? || r.CountOverflows? || r.ChainRefused? || r.IndexingFailed? || r.Committed? ==>
                var c := Next(D, old(cloud), CheckUnsigned(shared));
                shared < |c.codes| && IsBatch(c.events, shared, end) && cloud == Anchoring(D, c, k, end, ctx, w)
      ensures r.Committed? ==> k in cloud.tallies && cloud.tallies[k].count == r.count && cloud.tallies[k].root == r.root
      ensures credits.Now() == Bill(old(credits.Now()), r, w)
    {
      end := 0;
      var refusal, key := Choose(shared, period, w);
      k := key;
      if refusal.Some? { return refusal.value, k, end; }
      if !Clear(cloud.events, shared) { return LegacyUnsigned, k, end; }
      r, end := CommitCleared(D, key, ctx, credits, w);
    }

    /** Once the unsigned check has passed: the lock, and what is done under it. */
    method CommitCleared(D: Deployment, k: TallyKey, ctx: Ctx, credits: Credits, w: Weather) returns (r: CommitReply, ghost end: nat)
      requires k.shared < |cloud.codes| && Clear(cloud.events, k.shared)
      modifies this, credits
      ensures !r.NotFound? && !r.WeekFull? && !r.BadPeriod? && !r.LegacyUnsigned?
      ensures r.Locked? <==> old(cloud).codes[k.shared].owner in old(cloud).busy
      ensures !r.Locked? ==> CommitDecides(D, old(cloud), k, end, ctx, old(credits.Now()), w, r)
      ensures var c := old(cloud).(cleared := old(cloud).cleared + {k.shared});
              cloud == if r.Locked? || r.NoCredits? then c else Anchoring(D, c, k, end, ctx, w)
      ensures r.Committed? ==> k in cloud.tallies && cloud.tallies[k].count == r.count && cloud.tallies[k].root == r.root
      ensures credits.Now() == Bill(old(credits.Now()), r, w)
    {
      end := 0;
      ghost var cleared := cloud.cleared + {k.shared};
      cloud := cloud.(cleared := cloud.cleared + {k.shared});
      if cloud.codes[k.shared].owner in cloud.busy { return Locked, end; }
      r, end := CommitLocked(D, k, ctx, credits, w);
      ClearingDecidesNothing(D, old(cloud), cleared, k, end, ctx, old(credits.Now()), w, r);
    }

    /** The code and the period that a commit is about, or why there is none. */
    method Choose(shared: nat, period: u64, w: Weather) returns (refusal: Option<CommitReply>, k: TallyKey)
      ensures refusal.None? <==> Asked(cloud, shared, period, w)
      ensures refusal.None? ==> k == TallyKey(shared, Chosen(cloud, shared, period, w.week).value)
      ensures refusal == Some(NotFound) <==> shared >= |cloud.codes|
      ensures refusal == Some(WeekFull) <==> shared < |cloud.codes| && Chosen(cloud, shared, period, w.week).None?
      ensures refusal.Some? ==> refusal.value.NotFound? || refusal.value.WeekFull? || refusal.value.BadPeriod?
    {
      k := TallyKey(shared, 0);
      if shared >= |cloud.codes| { return Some(NotFound), k; }
      var chosen := Chosen(cloud, shared, period, w.week);
      if chosen.None? { return Some(WeekFull), k; }
      if !Periods.Valid(chosen.value, w.lastWeek) { return Some(BadPeriod), k; }
      Periods.ValidFits(chosen.value, w.lastWeek);
      return None, TallyKey(shared, chosen.value);
    }

    /** Under the account's lock: the batch, the reservation, the chain, the rows. */
    method CommitLocked(D: Deployment, k: TallyKey, ctx: Ctx, credits: Credits, w: Weather) returns (r: CommitReply, ghost end: nat)
      requires k.shared < |cloud.codes| && k.shared in cloud.cleared && cloud.codes[k.shared].owner !in cloud.busy
      requires Clear(cloud.events, k.shared)
      modifies this, credits
      ensures r.NothingPending? || r.CountOverflows? || r.NoCredits? || r.ChainRefused? || r.IndexingFailed? || r.Committed?
      ensures CommitDecides(D, old(cloud), k, end, ctx, old(credits.Now()), w, r)
      ensures r.NoCredits? ==> cloud == old(cloud)
      ensures !r.NoCredits? ==> IsBatch(old(cloud).events, k.shared, end) && cloud == Anchoring(D, old(cloud), k, end, ctx, w)
      ensures r.Committed? ==> k in cloud.tallies && cloud.tallies[k].count == r.count && cloud.tallies[k].root == r.root
      ensures credits.Now() == Bill(old(credits.Now()), r, w)
    {
      var leaves, total, last := Gather(cloud.events, k.shared);
      end := last;
      NothingToSend(D, cloud, k, end, ctx, w);
      if total == 0 { return NothingPending, end; }
      if total > MAX_TOTAL { return CountOverflows, end; }
      r := CommitBatch(D, k, ctx, credits, w, leaves, total, last);
    }

    /** With a batch that can be sent: the reservation, the chain and the rows, and the reservation's end. */
    method CommitBatch(D: Deployment, k: TallyKey, ctx: Ctx, credits: Credits, w: Weather, leaves: seq<Bytes32>, total: nat, end: nat)
      returns (r: CommitReply)
      requires k.shared < |cloud.codes| && k.shared in cloud.cleared && cloud.codes[k.shared].owner !in cloud.busy
      requires IsBatch(cloud.events, k.shared, end) && AllSigned(BatchItems(cloud.events, k.shared, end))
      requires leaves == Leaves(BatchItems(cloud.events, k.shared, end)) && total == Sum(BatchItems(cloud.events, k.shared, end))
      requires 0 < total <= MAX_TOTAL
      modifies this, credits
      ensures r.NoCredits? || r.ChainRefused? || r.IndexingFailed? || r.Committed?
      ensures cloud == if r.NoCredits? then old(cloud) else Anchoring(D, old(cloud), k, end, ctx, w)
      ensures r.NoCredits? <==> !Meter.CanPay(old(credits.Now()), w.live, 15_000, w.month, w.luck)
      ensures !r.NoCredits? ==> AnchorDecides(D, old(cloud), k, ctx, BatchItems(old(cloud).events, k.shared, end), w, r)
      ensures r.Committed? ==> k in cloud.tallies && cloud.tallies[k].count == r.count && cloud.tallies[k].root == r.root
      ensures credits.Now() == Bill(old(credits.Now()), r, w)
    {
      Meter.ChargeIff(credits.Now(), w.live, "commit_tally", MCR_COMMIT, w.month, w.luck);
      var reservation := ReserveCharge(credits, w.live, "commit_tally", MCR_COMMIT, w.month, w.luck);
      if reservation == null { return NoCredits; }
      r := Anchor(D, k, ctx, w, leaves, total, end);
      if r.ChainRefused? { reservation.Refund(w.month, w.refunds); } else { reservation.Commit(w.month); }
    }

    /** What a commit with that reply has done to the account. */
    static ghost function Bill(a: Meter.Account, r: CommitReply, w: Weather): Meter.Account {
      var c := Meter.Charge(a, w.live, "commit_tally", MCR_COMMIT, w.month, w.luck);
      var hold := Meter.Hold(w.live, "commit_tally", MCR_COMMIT, w.live);
      if r.NoCredits? then c.account
      else if r.ChainRefused? then Meter.Settle(c.account, hold, Meter.Refund(w.refunds), w.month).account
      else if r.IndexingFailed? || r.Committed? then Meter.Settle(c.account, hold, Meter.Commit, w.month).account
      else a
    }

    /** A batch that cannot be sent leaves everything as it is. */
    static lemma NothingToSend(D: Deployment, c: Cloud, k: TallyKey, end: nat, ctx: Ctx, w: Weather)
      requires k.shared < |c.codes| && c.codes[k.shared].owner !in c.busy
      requires IsBatch(c.events, k.shared, end)
      ensures var total := Sum(BatchItems(c.events, k.shared, end));
              total == 0 || total > MAX_TOTAL ==> Anchoring(D, c, k, end, ctx, w) == c
    {
      LockAndRelease(c.busy, c.codes[k.shared].owner, PaidOut(k, None));
    }

    /** From the lock on. */
    method Anchor(D: Deployment, k: TallyKey, ctx: Ctx, w: Weather, leaves: seq<Bytes32>, total: nat, end: nat)
      returns (r: CommitReply)
      requires k.shared < |cloud.codes| && k.shared in cloud.cleared && cloud.codes[k.shared].owner !in cloud.busy
      requires IsBatch(cloud.events, k.shared, end) && AllSigned(BatchItems(cloud.events, k.shared, end))
      requires leaves == Leaves(BatchItems(cloud.events, k.shared, end)) && total == Sum(BatchItems(cloud.events, k.shared, end))
      requires 0 < total <= MAX_TOTAL
      modifies this
      ensures cloud == Anchoring(D, old(cloud), k, end, ctx, w)
      ensures r.ChainRefused? || r.IndexingFailed? || r.Committed?
      ensures r.Committed? ==> k in cloud.tallies && cloud.tallies[k].count == r.count && cloud.tallies[k].root == r.root
      ensures AnchorDecides(D, old(cloud), k, ctx, BatchItems(old(cloud).events, k.shared, end), w, r)
    {
      var row := cloud.codes[k.shared];
      AnchoringIs(D, cloud, k, end, ctx, w, BatchItems(cloud.events, k.shared, end));
      var root := RootOfLeaves(D, leaves);
      var d := Exec(cloud.chain, Frame(ctx.(signed := {row.owner}),
                 Call.CommitTally(row.owner, row.key.campaign, row.key.code, k.period, total, root, TallyPipeline.Credits(row, total))));
      cloud := cloud.(chain := d.world);
      if d.reply.Err? || !w.reported { return ChainRefused; }
      if !w.works || k in cloud.tallies { return IndexingFailed; }
      var attributed := if row.attributedTo.Some? then total else 0;
      var stamped, updated := StampRows(cloud.events, k.shared, end, k.period);
      if updated != |leaves| { return IndexingFailed; }
      cloud := cloud.(tallies := cloud.tallies[k := TallyRow(total, attributed, root, false, None)], events := stamped);
      return Committed(total, root);
    }

    /** handleSettle and reconcileExternalSettlement. `answered` says whether the chain's answer to
        "is it settled?" comes back, `approves` whether the approval goes through; `approved` is the
        amount that it allows. */
    method Settle(D: Deployment, k: TallyKey, ctx: Ctx, token: TokenBehaviour, answered: bool, approves: bool, credits: Credits, w: Weather)
      returns (r: SettleReply, approved: int)
      modifies this, credits
      ensures r.NoSuchCode? <==> k.shared >= |old(cloud).codes|
      ensures r.NoSuchCode? || r.CannotPay? || r.AccountLocked? || r.NotConfigured? || r.NoPreview? || r.NotApproved? ==> cloud == old(cloud)
      ensures r.Reconciled? || r.NotSettled? || r.SettledHere? ==>
                var known := answered && ChainKey(old(cloud), k) in old(cloud).chain.ledger.settled;
                && cloud == Settling(D, old(cloud), k, ctx, token, known, w)
                && approved == if known then 0 else Approval(old(cloud), k)
      ensures r.SettledHere? ==>
                var d := Exec(old(cloud).chain, SettleFrame(old(cloud).codes[k.shared], ctx, k.period, token));
                d.reply.Ok? && (w.works && k in cloud.tallies ==> cloud.tallies[k].settled && cloud.tallies[k].payout == AmountOf(d.reply))
      ensures credits.Now() == SettleBill(old(credits.Now()), r, w)
      ensures SettleDecides(old(cloud), k, ctx, token, answered, approves, old(credits.Now()), w, r, approved)
    {
      approved := 0;
      if k.shared >= |cloud.codes| { return NoSuchCode, 0; }
      r, approved := SettleReserved(D, k, ctx, token, answered, approves, credits, w);
    }

    /** Under a reservation, which is kept only for a settlement of its own. */
    method SettleReserved(D: Deployment, k: TallyKey, ctx: Ctx, token: TokenBehaviour, answered: bool, approves: bool, credits: Credits,
                          w: Weather) returns (r: SettleReply, approved: int)
      requires k.shared < |cloud.codes|
      modifies this, credits
      ensures !r.NoSuchCode?
      ensures r.CannotPay? <==> !Meter.CanPay(old(credits.Now()), w.live, 25_000, w.month, w.luck)
      ensures !r.CannotPay? ==> PayDecides(old(cloud), k, ctx, token, answered, approves, w, r, approved)
      ensures cloud == if r.Reconciled? || r.NotSettled? || r.SettledHere?
                       then Settling(D, old(cloud), k, ctx, token, answered && ChainKey(old(cloud), k) in old(cloud).chain.ledger.settled, w)
                       else old(cloud)
      ensures r.SettledHere? && w.works && k in cloud.tallies ==>
                cloud.tallies[k].settled
                && cloud.tallies[k].payout == AmountOf(Exec(old(cloud).chain, SettleFrame(old(cloud).codes[k.shared], ctx, k.period, token)).reply)
      ensures credits.Now() == SettleBill(old(credits.Now()), r, w)
    {
      approved := 0;
      Meter.ChargeIff(credits.Now(), w.live, "settle", MCR_SETTLE, w.month, w.luck);
      var reservation := ReserveCharge(credits, w.live, "settle", MCR_SETTLE, w.month, w.luck);
      if reservation == null { return CannotPay, 0; }
      r, approved := Pay(D, k, ctx, token, answered, approves, w);
      if r.SettledHere? { reservation.Commit(w.month); } else { reservation.Refund(w.month, w.refunds); }
    }

    /** The exact payout of the period, if there is anything to pay. */
    static function Approval(c: Cloud, k: TallyKey): int
      requires k.shared < |c.codes|
    {
      var preview := ComputePayouts(c.chain.ledger, ChainKey(c, k));
      if preview.Ok? && Total(preview.value) > 0 then Total(preview.value) else 0
    }

    static ghost function SettleBill(a: Meter.Account, r: SettleReply, w: Weather): Meter.Account {
      var c := Meter.Charge(a, w.live, "settle", MCR_SETTLE, w.month, w.luck);
      var hold := Meter.Hold(w.live, "settle", MCR_SETTLE, w.live);
      if r.NoSuchCode? then a
      else if r.CannotPay? then c.account
      else Meter.Settle(c.account, hold, if r.SettledHere? then Meter.Commit else Meter.Refund(w.refunds), w.month).account
    }

    method Pay(D: Deployment, k: TallyKey, ctx: Ctx, token: TokenBehaviour, answered: bool, approves: bool, w: Weather)
      returns (r: SettleReply, approved: int)
      requires k.shared < |cloud.codes|
      modifies this
      ensures !r.NoSuchCode? && !r.CannotPay?
      ensures r.AccountLocked? || r.NotConfigured? || r.NoPreview? || r.NotApproved? ==> cloud == old(cloud)
      ensures r.Reconciled? || r.NotSettled? || r.SettledHere? ==>
                var known := answered && ChainKey(old(cloud), k) in old(cloud).chain.ledger.settled;
                && cloud == Settling(D, old(cloud), k, ctx, token, known, w)
                && approved == if known then 0 else Approval(old(cloud), k)
      ensures r.SettledHere? ==>
                var d := Exec(old(cloud).chain, SettleFrame(old(cloud).codes[k.shared], ctx, k.period, token));
                d.reply.Ok? && (w.works && k in cloud.tallies ==> cloud.tallies[k].settled && cloud.tallies[k].payout == AmountOf(d.reply))
      ensures PayDecides(old(cloud), k, ctx, token, answered, approves, w, r, approved)
    {
      approved := 0;
      var row := cloud.codes[k.shared];
      if row.owner in cloud.busy { return AccountLocked, 0; }
      var s, pk := cloud.chain.ledger, PeriodKey(row.key, k.period);
      if row.key !in s.shared || s.shared[row.key].payoutToken.None? { return NotConfigured, 0; }
      SettlingIs(D, cloud, k, ctx, token, answered && pk in s.settled, w);
      if answered && pk in s.settled {
        MarkRow(k, None, w.works);
        return Reconciled, 0;
      }
      r, approved := ApproveAndSettle(k, ctx, token, approves, w);
    }

    /** With settlement configured and the period not known to be settled. */
    method ApproveAndSettle(k: TallyKey, ctx: Ctx, token: TokenBehaviour, approves: bool, w: Weather) returns (r: SettleReply, approved: int)
      requires k.shared < |cloud.codes|
      modifies this
      ensures var preview := ComputePayouts(old(cloud).chain.ledger, ChainKey(old(cloud), k));
              var asks := preview.Ok? && (Total(preview.value) > 0 ==> approves);
              var d := Exec(old(cloud).chain, SettleFrame(old(cloud).codes[k.shared], ctx, k.period, token));
              var e := old(cloud).(chain := d.world);
              && cloud == (if !asks then old(cloud)
                           else if w.works && w.reported && (d.reply.Ok? || d.reply == Err(AlreadySettled)) then Marked(e, k, AmountOf(d.reply))
                           else e)
              && r == (if preview.Err? then NoPreview else if !asks then NotApproved else if !w.reported then NotSettled
                       else if d.reply.Ok? then SettledHere else if d.reply == Err(AlreadySettled) then Reconciled else NotSettled)
              && approved == if asks && Total(preview.value) > 0 then Total(preview.value) else 0
    {
      var refusal: Option<SettleReply>;
      refusal, approved := Approve(k, approves);
      if refusal.Some? { return refusal.value, 0; }
      r := SendSettle(k, ctx, token, w);
    }

    /** The preview, and the approval of exactly its total if there is anything to pay. */
    method Approve(k: TallyKey, approves: bool) returns (refusal: Option<SettleReply>, approved: int)
      requires k.shared < |cloud.codes|
      ensures refusal.Some? ==> refusal.value.NoPreview? || refusal.value.NotApproved?
      ensures refusal.None? ==> approved == Approval(cloud, k) && (approved > 0 ==> approves)
      ensures refusal == Some(NoPreview) <==> ComputePayouts(cloud.chain.ledger, ChainKey(cloud, k)).Err?
      ensures refusal == Some(NotApproved) <==>
                var preview := ComputePayouts(cloud.chain.ledger, ChainKey(cloud, k));
                preview.Ok? && Total(preview.value) > 0 && !approves
    {
      var preview := ComputePayouts(cloud.chain.ledger, ChainKey(cloud, k));
      if preview.Err? { return Some(NoPreview), 0; }
      var due := Total(preview.value);
      if due <= 0 { return None, 0; }
      if !approves { return Some(NotApproved), 0; }
      return None, due;
    }

    method SendSettle(k: TallyKey, ctx: Ctx, token: TokenBehaviour, w: Weather) returns (r: SettleReply)
      requires k.shared < |cloud.codes|
      modifies this
      ensures var d := Exec(old(cloud).chain, SettleFrame(old(cloud).codes[k.shared], ctx, k.period, token));
              var e := old(cloud).(chain := d.world);
              && (cloud == if w.works && w.reported && (d.reply.Ok? || d.reply == Err(AlreadySettled)) then Marked(e, k, AmountOf(d.reply)) else e)
              && r == if !w.reported then NotSettled else if d.reply.Ok? then SettledHere
                      else if d.reply == Err(AlreadySettled) then Reconciled else NotSettled
    {
      var row := cloud.codes[k.shared];
      var d := Exec(cloud.chain, SettleFrame(row, ctx, k.period, token));
      cloud := cloud.(chain := d.world);
      if !w.reported || (d.reply.Err? && d.reply != Err(AlreadySettled)) { return NotSettled; }
      if d.reply.Err? {
        MarkRow(k, None, w.works);
        return Reconciled;
      }
      MarkRow(k, AmountOf(d.reply), w.works);
      return SettledHere;
    }

    /** UPDATE tallies SET settled = 1. */
    method MarkRow(k: TallyKey, amount: Option<int>, works: bool)
      modifies this
      ensures cloud == if works then Marked(old(cloud), k, amount) else old(cloud)
    {
      if !works || k !in cloud.tallies { return; }
      var row := cloud.tallies[k];
      if amount.Some? { row := row.(settled := true, payout := amount); }
      else if !row.settled { row := row.(settled := true); }
      cloud := cloud.(tallies := cloud.tallies[k := row]);
    }
  }
}
