/** The rows of the Cloud service that a tally goes through: events with their signed receipts, the
    queue of pending events, and the stamping of a batch with its period. */
module TallyStore {
  import opened Basics
  import Merkle

  const MAX_RECEIPTS: nat := 10_000
  const MAX_EVENT_COUNT: nat := 10_000

  /** The signed part of a receipt, as far as the audit compares it with the rows. */
  datatype Payload = Payload(version: nat, network: string, contract: string, campaign: u64, code: string, count: nat,
                             signer: Address, nonce: nat)

  datatype SignedReceipt = SignedReceipt(payload: Payload, leaf: Bytes32, signer: Address, signatureValid: bool)

  /** `committed_period`: NULL, -1, or the period. */
  datatype Stage = Pending | Quarantined | In(period: u64)

  /** A row of shared_events joined with its receipt; its id is its position in the table. */
  datatype Event = Event(shared: nat, count: nat, receipt: Option<SignedReceipt>, mark: Stage)

  /** What a service runs on: SHA-256 of payloads and of pairs of nodes as arbitrary functions, the
      network, the contract it writes to, and the one it wrote to before. */
  datatype Deployment = Deployment(
    sha: Payload -> Bytes32, parent: (Bytes32, Bytes32) -> Bytes32, network: string, contract: string, legacy: string)

  // ── selecting rows ─────────────────────────────────────────────────

  /** The events of `shared` carrying `mark` among the first n rows, in id order. */
  function Rows(events: seq<Event>, shared: nat, mark: Stage, n: nat): (r: seq<Event>)
    requires n <= |events|
    ensures |r| <= n
  {
    if n == 0 then []
    else Rows(events, shared, mark, n - 1)
         + (if events[n - 1].shared == shared && events[n - 1].mark == mark then [events[n - 1]] else [])
  }

  /** What the audit and the tally see of an event. */
  datatype Item = Item(count: nat, receipt: Option<SignedReceipt>)

  function Items(es: seq<Event>): (r: seq<Item>)
    ensures |r| == |es| && forall i :: 0 <= i < |es| ==> r[i] == Item(es[i].count, es[i].receipt)
  {
    seq(|es|, i requires 0 <= i < |es| => Item(es[i].count, es[i].receipt))
  }

  function Sum(items: seq<Item>): nat {
    if items == [] then 0 else Sum(items[..|items| - 1]) + items[|items| - 1].count
  }

  predicate AllSigned(items: seq<Item>) { forall i :: 0 <= i < |items| ==> items[i].receipt.Some? }

  function Leaves(items: seq<Item>): seq<Bytes32>
    requires AllSigned(items)
  {
    seq(|items|, i requires 0 <= i < |items| => items[i].receipt.value.leaf)
  }

  function RootOf(D: Deployment, items: seq<Item>): Bytes32
    requires AllSigned(items)
  {
    Merkle.Root(D.parent, 0, Leaves(items))
  }

  lemma {:induction false} RowsExtend(events: seq<Event>, more: seq<Event>, shared: nat, mark: Stage, n: nat)
    requires n <= |events|
    ensures Rows(events + more, shared, mark, n) == Rows(events, shared, mark, n)
  {
    if n > 0 { RowsExtend(events, more, shared, mark, n - 1); }
  }

  lemma {:induction false} NoRows(events: seq<Event>, shared: nat, mark: Stage, n: nat)
    requires n <= |events|
    requires forall i :: 0 <= i < n ==> !(events[i].shared == shared && events[i].mark == mark)
    ensures Rows(events, shared, mark, n) == []
  {
    if n > 0 { NoRows(events, shared, mark, n - 1); }
  }

  lemma {:induction false} RowsFrom(events: seq<Event>, shared: nat, mark: Stage, n: nat)
    requires n <= |events|
    ensures forall e :: e in Rows(events, shared, mark, n) ==> e in events && e.shared == shared && e.mark == mark
  {
    if n > 0 { RowsFrom(events, shared, mark, n - 1); }
  }

  /** The matching rows stand in the order of their ids, none left out. */
  lemma {:induction false} RowAt(events: seq<Event>, shared: nat, mark: Stage, i: nat, n: nat)
    requires i < n <= |events| && events[i].shared == shared && events[i].mark == mark
    ensures |Rows(events, shared, mark, i)| < |Rows(events, shared, mark, n)|
    ensures Rows(events, shared, mark, n)[|Rows(events, shared, mark, i)|] == events[i]
  {
    if i < n - 1 { RowAt(events, shared, mark, i, n - 1); }
  }

  /** Rows that do not match between m and n add nothing. */
  lemma {:induction false} RowsStop(events: seq<Event>, shared: nat, mark: Stage, m: nat, n: nat)
    requires m <= n <= |events|
    requires forall i :: m <= i < n ==> !(events[i].shared == shared && events[i].mark == mark)
    ensures Rows(events, shared, mark, n) == Rows(events, shared, mark, m)
  {
    if m < n { RowsStop(events, shared, mark, m, n - 1); }
  }

  lemma {:induction false} RowsAgree(a: seq<Event>, b: seq<Event>, shared: nat, mark: Stage, n: nat)
    requires n <= |a| && n <= |b|
    requires forall i :: 0 <= i < n && ((a[i].shared == shared && a[i].mark == mark) || (b[i].shared == shared && b[i].mark == mark))
               ==> a[i] == b[i]
    ensures Rows(a, shared, mark, n) == Rows(b, shared, mark, n)
  {
    if n > 0 { RowsAgree(a, b, shared, mark, n - 1); }
  }

  lemma {:induction false} SumBound(items: seq<Item>, bound: nat)
    requires forall i :: 0 <= i < |items| ==> 1 <= items[i].count <= bound
    ensures |items| <= Sum(items) <= |items| * bound
  {
    if items != [] {
      SumBound(items[..|items| - 1], bound);
      assert |items| * bound == (|items| - 1) * bound + bound;
    }
  }

  // ── stamping ───────────────────────────────────────────────────────

  /** UPDATE ... SET committed_period = period WHERE the code matches, the row is pending, id < end. */
  function Stamp(events: seq<Event>, shared: nat, end: nat, period: u64): (r: seq<Event>)
    ensures |r| == |events|
    ensures forall i :: 0 <= i < |events| ==>
              r[i] == if i < end && events[i].shared == shared && events[i].mark == Pending
                      then events[i].(mark := In(period)) else events[i]
  {
    seq(|events|, i requires 0 <= i < |events| =>
      if i < end && events[i].shared == shared && events[i].mark == Pending
      then events[i].(mark := In(period)) else events[i])
  }

  /** If nothing carried the period before, exactly the pending rows below `end` carry it now. */
  lemma {:induction false} StampMoves(events: seq<Event>, shared: nat, end: nat, period: u64, n: nat)
    requires end <= |events| && n <= |events|
    requires forall i :: 0 <= i < |events| && events[i].shared == shared ==> events[i].mark != In(period)
    ensures Items(Rows(Stamp(events, shared, end, period), shared, In(period), n))
         == Items(Rows(events, shared, Pending, Min(n, end)))
  {
    if n > 0 {
      StampMoves(events, shared, end, period, n - 1);
    }
  }

  lemma StampElsewhere(events: seq<Event>, shared: nat, end: nat, period: u64, other: nat, mark: Stage, n: nat)
    requires n <= |events| && mark != Pending && (other != shared || mark != In(period))
    ensures Rows(Stamp(events, shared, end, period), other, mark, n) == Rows(events, other, mark, n)
  {
    RowsAgree(Stamp(events, shared, end, period), events, other, mark, n);
  }

  /** Pending rows of other codes stay in their queues. */
  lemma StampKeepsQueues(events: seq<Event>, shared: nat, end: nat, period: u64, other: nat, n: nat)
    requires n <= |events| && other != shared
    ensures Rows(Stamp(events, shared, end, period), other, Pending, n) == Rows(events, other, Pending, n)
  {
    RowsAgree(Stamp(events, shared, end, period), events, other, Pending, n);
  }

  /** Migration: unsigned pending rows leave the queue for good. */
  function Quarantine(events: seq<Event>): (r: seq<Event>)
    ensures |r| == |events|
    ensures forall i :: 0 <= i < |events| ==>
              r[i] == if events[i].mark == Pending && events[i].receipt.None? then events[i].(mark := Quarantined) else events[i]
  {
    seq(|events|, i requires 0 <= i < |events| =>
      if events[i].mark == Pending && events[i].receipt.None? then events[i].(mark := Quarantined) else events[i])
  }

  /** No unsigned row of the code is pending. */
  predicate Clear(events: seq<Event>, shared: nat) {
    forall i :: 0 <= i < |events| && events[i].shared == shared && events[i].mark == Pending ==> events[i].receipt.Some?
  }

  lemma QuarantineKeeps(events: seq<Event>, shared: nat, mark: Stage, n: nat)
    requires n <= |events| && mark != Quarantined && (mark == Pending ==> Clear(events, shared))
    ensures Rows(Quarantine(events), shared, mark, n) == Rows(events, shared, mark, n)
  {
    RowsAgree(Quarantine(events), events, shared, mark, n);
  }

  // ── the batch that a commit selects ────────────────────────────────

  /** `end` cuts off the first MAX_RECEIPTS pending rows of the code, or all of them. */
  predicate IsBatch(events: seq<Event>, shared: nat, end: nat) {
    && end <= |events|
    && |Rows(events, shared, Pending, end)| <= MAX_RECEIPTS
    && (|Rows(events, shared, Pending, end)| < MAX_RECEIPTS ==>
          forall i :: end <= i < |events| && events[i].shared == shared ==> events[i].mark != Pending)
    && (end > 0 ==> events[end - 1].shared == shared && events[end - 1].mark == Pending)
  }

  function BatchItems(events: seq<Event>, shared: nat, end: nat): seq<Item>
    requires end <= |events|
  {
    Items(Rows(events, shared, Pending, end))
  }

  /** What the loop has after the first i rows: the pending rows among them are those before `end`,
      which is just after one of them. */
  ghost predicate Gathered(events: seq<Event>, shared: nat, i: nat, end: nat, leaves: seq<Bytes32>, total: nat) {
    && end <= i <= |events|
    && (forall j :: end <= j < i && events[j].shared == shared ==> events[j].mark != Pending)
    && (end > 0 ==> events[end - 1].shared == shared && events[end - 1].mark == Pending)
    && AllSigned(BatchItems(events, shared, end))
    && leaves == Leaves(BatchItems(events, shared, end)) && total == Sum(BatchItems(events, shared, end))
  }

  lemma GatherOne(events: seq<Event>, shared: nat, i: nat, end: nat, leaves: seq<Bytes32>, total: nat)
    requires i < |events| && Gathered(events, shared, i, end, leaves, total)
    requires events[i].shared == shared && events[i].mark == Pending && events[i].receipt.Some?
    ensures Gathered(events, shared, i + 1, i + 1, leaves + [events[i].receipt.value.leaf], total + events[i].count)
  {
    var before := BatchItems(events, shared, end);
    var after := BatchItems(events, shared, i + 1);
    RowsStop(events, shared, Pending, end, i);
    assert after == before + [Item(events[i].count, events[i].receipt)];
    assert after[..|after| - 1] == before;
  }

  lemma GatherSkips(events: seq<Event>, shared: nat, i: nat, end: nat, leaves: seq<Bytes32>, total: nat)
    requires i < |events| && Gathered(events, shared, i, end, leaves, total)
    requires !(events[i].shared == shared && events[i].mark == Pending)
    ensures Gathered(events, shared, i + 1, end, leaves, total)
  {
  }

  lemma GatherEnds(events: seq<Event>, shared: nat, i: nat, end: nat, leaves: seq<Bytes32>, total: nat)
    requires Gathered(events, shared, i, end, leaves, total)
    requires |leaves| == MAX_RECEIPTS || (i == |events| && |leaves| < MAX_RECEIPTS)
    ensures IsBatch(events, shared, end)
  {
  }

  /** The loop of handleCommitTally over the selected rows: leaves, total and last id. It reads
      signed rows only; when no unsigned row is pending that is the head of the queue. */
  method Gather(events: seq<Event>, shared: nat) returns (leaves: seq<Bytes32>, total: nat, end: nat)
    requires Clear(events, shared)
    ensures IsBatch(events, shared, end) && AllSigned(BatchItems(events, shared, end))
    ensures leaves == Leaves(BatchItems(events, shared, end)) && total == Sum(BatchItems(events, shared, end))
  {
    leaves, total, end := [], 0, 0;
    var i := 0;
    while i < |events| && |leaves| < MAX_RECEIPTS
      invariant i <= |events| && |leaves| <= MAX_RECEIPTS && Gathered(events, shared, i, end, leaves, total)
      decreases |events| - i
    {
      if events[i].shared == shared && events[i].mark == Pending && events[i].receipt.Some? {
        GatherOne(events, shared, i, end, leaves, total);
        leaves, total, end := leaves + [events[i].receipt.value.leaf], total + events[i].count, i + 1;
      } else {
        GatherSkips(events, shared, i, end, leaves, total);
      }
      i := i + 1;
    }
    GatherEnds(events, shared, i, end, leaves, total);
  }
}
