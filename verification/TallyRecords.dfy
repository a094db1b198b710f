/** Recording redemptions: what a request that is accepted adds to the rows, what it costs, and that
    in every run each of them is recorded once and accounted for. */
module TallyRecords {
  import opened Basics
  import opened LedgerTypes
  import opened LedgerExec
  import opened TallyStore
  import opened TallyPipeline
  import opened TallySafety
  import opened TallyRuns
  import opened Sums
  import opened CreditMeter
  import Meter

  // ── one request, and nothing else ──────────────────────────────────

  /** A request for a known code with a count from 1 to 10,000. */
  predicate Acceptable(c: Cloud, shared: nat, count: nat) { shared < |c.codes| && 1 <= count <= 10_000 }

  /** The new row: pending, with a receipt that is signed for this campaign, code and count. */
  ghost predicate FreshRow(D: Deployment, c: Cloud, shared: nat, count: nat, signer: Address, e: Event)
    requires shared < |c.codes|
  {
    && e.shared == shared && e.count == count && e.mark == Pending && e.receipt.Some?
    && var r := e.receipt.value;
    && r.signatureValid && r.signer == signer == r.payload.signer && r.leaf == D.sha(r.payload) && r.payload.version == 2
    && r.payload.campaign == c.codes[shared].key.campaign && r.payload.code == c.codes[shared].key.code && r.payload.count == count
    && r.payload.network == D.network && r.payload.contract == D.contract
  }

  lemma {:induction false} RecordedExtends(events: seq<Event>, more: seq<Event>, shared: nat, n: nat)
    requires n <= |events|
    ensures Recorded(events + more, shared, n) == Recorded(events, shared, n)
  {
    if n > 0 { RecordedExtends(events, more, shared, n - 1); }
  }

  lemma RowAdds(events: seq<Event>, e: Event, shared: nat, mark: Stage)
    ensures var d := events + [e];
            && Recorded(d, shared, |d|) == Recorded(events, shared, |events|) + (if e.shared == shared then e.count else 0)
            && CountIn(d, shared, mark, |d|)
               == CountIn(events, shared, mark, |events|) + (if e.shared == shared && e.mark == mark then e.count else 0)
  {
    RecordedExtends(events, [e], shared, |events|);
    RowsExtend(events, [e], shared, mark, |events|);
    CountNext(events + [e], shared, mark, |events| + 1);
  }

  /** An acceptable request adds one fresh row behind the others and changes nothing else; any other
      changes nothing. */
  lemma RecordingAddsARow(D: Deployment, c: Cloud, shared: nat, count: nat, signer: Address, nonce: nat)
    ensures var d := Next(D, c, RecordEvent(shared, count, signer, nonce));
            if Acceptable(c, shared, count) then
              && |d.events| == |c.events| + 1 && c.events <= d.events && FreshRow(D, c, shared, count, signer, d.events[|c.events|])
              && d == c.(events := d.events)
            else d == c
  {
  }

  /** So the code's redemptions, and those that wait to be anchored, grow by exactly the count, and no
      other number does. */
  lemma RecordingRecords(D: Deployment, c: Cloud, shared: nat, count: nat, signer: Address, nonce: nat, any: nat, mark: Stage)
    ensures var d := Next(D, c, RecordEvent(shared, count, signer, nonce));
            var more := if Acceptable(c, shared, count) && any == shared then count else 0;
            && Recorded(d.events, any, |d.events|) == Recorded(c.events, any, |c.events|) + more
            && CountIn(d.events, any, mark, |d.events|)
               == CountIn(c.events, any, mark, |c.events|) + (if mark == Pending then more else 0)
  {
    var d := Next(D, c, RecordEvent(shared, count, signer, nonce));
    RecordingAddsARow(D, c, shared, count, signer, nonce);
    if Acceptable(c, shared, count) {
      assert d.events == c.events + [d.events[|c.events|]];
      RowAdds(c.events, d.events[|c.events|], any, mark);
    }
  }

  // ── whole runs ─────────────────────────────────────────────────────

  /** The counts of the acceptable requests for a code along a run. */
  function Requested(D: Deployment, c: Cloud, steps: seq<Step>, shared: nat): nat
    decreases |steps|
  {
    if steps == [] then 0
    else
      (if steps[0].RecordEvent? && steps[0].shared == shared && Acceptable(c, shared, steps[0].count) then steps[0].count else 0)
      + Requested(D, Next(D, c, steps[0]), steps[1..], shared)
  }

  lemma {:induction false} KeptIsRecorded(a: seq<Event>, b: seq<Event>, shared: nat, n: nat)
    requires EventsKept(a, b) && n <= |a|
    ensures Recorded(b, shared, n) == Recorded(a, shared, n)
  {
    if n > 0 { KeptIsRecorded(a, b, shared, n - 1); }
  }

  lemma OthersAddNoRows(D: Deployment, c: Cloud, step: Step)
    requires !step.RecordEvent?
    ensures |Next(D, c, step).events| == |c.events|
  {
  }

  lemma StepRecords(D: Deployment, c: Cloud, step: Step, shared: nat)
    ensures var d := Next(D, c, step);
            Recorded(d.events, shared, |d.events|) == Recorded(c.events, shared, |c.events|)
              + (if step.RecordEvent? && step.shared == shared && Acceptable(c, shared, step.count) then step.count else 0)
  {
    if step.RecordEvent? {
      RecordingRecords(D, c, step.shared, step.count, step.signer, step.nonce, shared, Pending);
    } else {
      OthersAddNoRows(D, c, step);
      StepKeepsEvents(D, c, step);
      KeptIsRecorded(c.events, Next(D, c, step).events, shared, |c.events|);
    }
  }

  /** What is recorded for a code after a run is what was recorded before it, and every request that
      was accepted during it, once. */
  lemma {:induction false} RecordedIsRequested(D: Deployment, c: Cloud, steps: seq<Step>, shared: nat)
    ensures var d := Run(D, c, steps);
            Recorded(d.events, shared, |d.events|) == Recorded(c.events, shared, |c.events|) + Requested(D, c, steps, shared)
    decreases |steps|
  {
    if steps != [] {
      StepRecords(D, c, steps[0], shared);
      RecordedIsRequested(D, Next(D, c, steps[0]), steps[1..], shared);
    }
  }

  /** In every run of the service: the redemptions that were there and those that were accepted are,
      each once, in the queue, in quarantine, or in one of the indexed tallies. */
  lemma EveryRedemptionIsCounted(D: Deployment, c: Cloud, steps: seq<Step>, shared: nat)
    requires Start(D, c)
    ensures var d := Run(D, c, steps);
            var n := |d.events|;
            Recorded(c.events, shared, |c.events|) + Requested(D, c, steps, shared)
              == CountIn(d.events, shared, Pending, n) + CountIn(d.events, shared, Quarantined, n)
                 + SumOver(TalliesOf(d, shared), TallyCount(d))
  {
    RecordedIsRequested(D, c, steps, shared);
    RedemptionsAreConserved(D, c, steps, shared);
  }

  // ── registration and migration ─────────────────────────────────────

  /** A registration that the chain accepts adds the code to the local ones, unless its row is not
      written; the chain has it then with the same terms, in a campaign of the account. */
  lemma RegistrationIsIndexed(D: Deployment, c: Cloud, ctx: Ctx, row: SharedRow, payoutToken: Option<Address>, rate: i128, indexed: bool)
    ensures var d := Next(D, c, RegisterCode(ctx, row, payoutToken, rate, indexed));
            var call := Exec(c.chain, RegisterFrame(ctx, row, payoutToken, rate));
            && d == c.(codes := d.codes, chain := call.world)
            && d.codes == (if call.reply.Ok? && indexed then c.codes + [row] else c.codes)
            && (call.reply.Ok? ==> Registered(row, d.chain.ledger) && row.key !in c.chain.ledger.shared
                                   && d.chain.ledger.shared[row.key].payoutToken == payoutToken
                                   && d.chain.ledger.shared[row.key].payoutRate == rate)
  {
  }

  /** After the migration the unsigned check passes for every code: what is unsigned has left the
      queue, and every other row is as it was. */
  lemma MigrationClears(D: Deployment, c: Cloud, shared: nat)
    ensures var d := Next(D, c, Migrate);
            && Clear(d.events, shared) && d == c.(events := d.events) && |d.events| == |c.events|
            && forall i :: 0 <= i < |c.events| ==>
                 d.events[i] == if c.events[i].mark == Pending && c.events[i].receipt.None?
                                then c.events[i].(mark := Quarantined) else c.events[i]
    ensures shared in Next(D, Next(D, c, Migrate), CheckUnsigned(shared)).cleared
  {
  }

  // ── the handler ────────────────────────────────────────────────────

  const MCR_EVENT: int := 200

  datatype RecordReply =
    | NoSuchCode | Archived | Expired | BadCount | CountTooLarge | NotSigned | CannotPay | AlreadyRecorded | NotRecorded
    | Created(receipt: SignedReceipt)

  /** A request: the count if it names one, and a hashed order reference or none. */
  datatype EventRequest = EventRequest(shared: nat, count: Option<int>, orderRef: string, signer: Address, nonce: nat)

  /** An order reference within its code. */
  datatype Order = Order(shared: nat, ref: string)

  /** The campaign's row and the clock; the account; and what may fail: the signature, the charge, the
      transaction with the rows, and a refund. */
  datatype Surroundings = Surroundings(
    archived: bool, validUntil: int, now: int, live: bool, month: nat, luck: Meter.Luck, signs: bool, works: bool, refunds: bool)

  function CountOf(q: EventRequest): int { if q.count.Some? then q.count.value else 1 }

  /** The request gets as far as the charge. */
  ghost predicate Wellformed(c: Cloud, q: EventRequest, w: Surroundings) {
    q.shared < |c.codes| && !w.archived && w.now <= w.validUntil && 1 <= CountOf(q) <= 10_000 && w.signs
  }

  ghost predicate CanRecord(q: EventRequest, a: Meter.Account, w: Surroundings) {
    Meter.CanPay(a, w.live, 200 * CountOf(q), w.month, w.luck)
  }

  /** Each answer, by the state before. */
  ghost predicate RecordDecides(c: Cloud, orders: set<Order>, q: EventRequest, a: Meter.Account, w: Surroundings, r: RecordReply) {
    var paid := Wellformed(c, q, w) && CanRecord(q, a, w);
    var known := q.orderRef != "" && Order(q.shared, q.orderRef) in orders;
    && (r.NoSuchCode? <==> q.shared >= |c.codes|)
    && (r.Archived? <==> q.shared < |c.codes| && w.archived)
    && (r.Expired? <==> q.shared < |c.codes| && !w.archived && w.now > w.validUntil)
    && (r.CannotPay? <==> Wellformed(c, q, w) && !CanRecord(q, a, w))
    && (r.AlreadyRecorded? <==> paid && known)
    && (r.NotRecorded? <==> paid && !known && !w.works)
    && (r.Created? <==> paid && !known && w.works)
    && var live := q.shared < |c.codes| && !w.archived && w.now <= w.validUntil;
    && (r.BadCount? <==> live && CountOf(q) <= 0)
    && (r.CountTooLarge? <==> live && CountOf(q) > 10_000)
    && (r.NotSigned? <==> live && 1 <= CountOf(q) <= 10_000 && !w.signs)
  }

  /** 0.2 credits for each redemption that is recorded, and nothing otherwise unless a refund fails. */
  ghost function RecordBill(q: EventRequest, a: Meter.Account, w: Surroundings, r: RecordReply): Meter.Account {
    var mcr := 200 * CountOf(q);
    if !w.live then a
    else if r.CannotPay? then (if w.luck.grant then Meter.Refreshed(a, w.month) else a)
    else if r.Created? || ((r.AlreadyRecorded? || r.NotRecorded?) && !w.refunds) then Meter.Paid(a, "shared_event", mcr, w.month)
    else if r.AlreadyRecorded? || r.NotRecorded? then Meter.PaidBack(a, "shared_event", mcr, w.month)
    else a
  }

  class EventBook {
    var cloud: Cloud
    var orders: set<Order>

    constructor (cloud: Cloud)
      ensures this.cloud == cloud && orders == {}
    {
      this.cloud, orders := cloud, {};
    }

    /** handleRecordEvents. */
    method RecordEvents(D: Deployment, q: EventRequest, credits: Credits, w: Surroundings) returns (r: RecordReply)
      modifies this, credits
      ensures RecordDecides(old(cloud), old(orders), q, old(credits.Now()), w, r)
      ensures r.Created? ==>
                && cloud == Next(D, old(cloud), RecordEvent(q.shared, CountOf(q), q.signer, q.nonce))
                && cloud.events[|old(cloud).events|].receipt == Some(r.receipt)
      ensures !r.Created? ==> cloud == old(cloud)
      ensures orders == if r.Created? && q.orderRef != "" then old(orders) + {Order(q.shared, q.orderRef)} else old(orders)
      ensures credits.Now() == RecordBill(q, old(credits.Now()), w, r)
    {
      if q.shared >= |cloud.codes| { return NoSuchCode; }
      if w.archived { return Archived; }
      if w.now > w.validUntil { return Expired; }
      var count := 1;
      if q.count.Some? {
        count := q.count.value;
        if count <= 0 { return BadCount; }
      }
      if count > MAX_EVENT_COUNT { return CountTooLarge; }
      if !w.signs { return NotSigned; }
      var payload := NewPayload(D, cloud.codes[q.shared], count, q.signer, q.nonce);
      r := Pursue(q, count, SignedReceipt(payload, D.sha(payload), q.signer, true), credits, w);
    }

    /** The reservation, the transaction, and the reservation's end. */
    method Pursue(q: EventRequest, count: nat, receipt: SignedReceipt, credits: Credits, w: Surroundings) returns (r: RecordReply)
      requires count == CountOf(q) && 1 <= count <= MAX_EVENT_COUNT
      modifies this, credits
      ensures r.CannotPay? <==> !CanRecord(q, old(credits.Now()), w)
      ensures r.CannotPay? || r.AlreadyRecorded? || r.NotRecorded? || r == Created(receipt)
      ensures !r.CannotPay? ==>
                var known := q.orderRef != "" && Order(q.shared, q.orderRef) in old(orders);
                (r.AlreadyRecorded? <==> known) && (r.NotRecorded? <==> !known && !w.works)
      ensures cloud == if r.Created? then old(cloud).(events := old(cloud).events + [Event(q.shared, count, Some(receipt), Pending)])
                       else old(cloud)
      ensures orders == if r.Created? && q.orderRef != "" then old(orders) + {Order(q.shared, q.orderRef)} else old(orders)
      ensures credits.Now() == RecordBill(q, old(credits.Now()), w, r)
    {
      Meter.ChargeIff(credits.Now(), w.live, "shared_event", count * MCR_EVENT, w.month, w.luck);
      var reservation := ReserveCharge(credits, w.live, "shared_event", count * MCR_EVENT, w.month, w.luck);
      if reservation == null { return CannotPay; }
      r := Write(q, count, receipt, w.works);
      if r.Created? { reservation.Commit(w.month); } else { reservation.Refund(w.month, w.refunds); }
    }

    /** The transaction: the order reference, the row and its receipt, all or none. */
    method Write(q: EventRequest, count: nat, receipt: SignedReceipt, works: bool) returns (r: RecordReply)
      modifies this
      ensures var known := q.orderRef != "" && Order(q.shared, q.orderRef) in old(orders);
              r == if known then AlreadyRecorded else if !works then NotRecorded else Created(receipt)
      ensures cloud == if r.Created? then old(cloud).(events := old(cloud).events + [Event(q.shared, count, Some(receipt), Pending)])
                       else old(cloud)
      ensures orders == if r.Created? && q.orderRef != "" then old(orders) + {Order(q.shared, q.orderRef)} else old(orders)
    {
      if q.orderRef != "" && Order(q.shared, q.orderRef) in orders { return AlreadyRecorded; }
      if !works { return NotRecorded; }
      if q.orderRef != "" { orders := orders + {Order(q.shared, q.orderRef)}; }
      cloud := cloud.(events := cloud.events + [Event(q.shared, count, Some(receipt), Pending)]);
      return Created(receipt);
    }
  }
}
