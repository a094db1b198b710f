/** Whole runs of the tally pipeline: what an auditor, a creator and an operator may rely on. */
module TallyRuns {
  import opened Basics
  import opened LedgerTypes
  import opened LedgerSpec
  import opened LedgerExec
  import opened LedgerInvariant
  import opened LedgerHistory
  import opened Sums
  import opened TallyStore
  import opened TallyPipeline
  import opened TallySafety

  // ── two stores, one story ──────────────────────────────────────────

  /** A service that has indexed nothing yet: any chain history, any registered codes, and rows
      that may include unsigned ones from before receipts were signed. */
  ghost predicate Start(D: Deployment, c: Cloud) {
    && Reachable(c.chain) && CodesOk(c.codes, c.chain.ledger) && EventsOk(D, c.codes, c.events)
    && (forall i :: 0 <= i < |c.events| ==> !c.events[i].mark.In?)
    && c.tallies == map[] && c.cleared == {} && c.busy == map[]
  }

  lemma StartIsSafe(D: Deployment, c: Cloud)
    requires Start(D, c)
    ensures Safe(D, c)
  {
  }

  /** The states that runs of the service lead to. */
  ghost predicate Live(D: Deployment, c: Cloud) {
    exists start: Cloud, steps: seq<Step> :: Start(D, start) && c == Run(D, start, steps)
  }

  lemma LiveIsSafe(D: Deployment, c: Cloud)
    requires Live(D, c)
    ensures Safe(D, c)
  {
    var start: Cloud, steps: seq<Step> :| Start(D, start) && c == Run(D, start, steps);
    StartIsSafe(D, start);
    RunIsSafe(D, start, steps);
  }

  lemma {:induction false} RunAppend(D: Deployment, c: Cloud, steps: seq<Step>, last: Step)
    ensures Run(D, c, steps + [last]) == Next(D, Run(D, c, steps), last)
    decreases |steps|
  {
    if steps == [] {
      assert Run(D, Next(D, c, last), []) == Next(D, c, last);
      assert ([last])[1..] == [];
    } else {
      assert (steps + [last])[1..] == steps[1..] + [last];
      RunAppend(D, Next(D, c, steps[0]), steps[1..], last);
    }
  }

  lemma LiveNext(D: Deployment, c: Cloud, step: Step)
    requires Live(D, c)
    ensures Live(D, Next(D, c, step))
  {
    var start: Cloud, steps: seq<Step> :| Start(D, start) && c == Run(D, start, steps);
    RunAppend(D, start, steps, step);
    assert Next(D, c, step) == Run(D, start, steps + [step]);
  }

  /** Whatever interleaves and wherever the process stops: a local tally row has its twin on the
      chain, and is marked settled only if the chain has settled it, with the amount that the
      period was worth. */
  lemma RowsNeverRunAhead(D: Deployment, c: Cloud, steps: seq<Step>, k: TallyKey)
    requires Start(D, c) && k in Run(D, c, steps).tallies
    ensures var d := Run(D, c, steps);
            && k.shared < |d.codes| && ChainKey(d, k) in d.chain.ledger.tallies
            && var row := d.tallies[k];
            && var twin := d.chain.ledger.tallies[ChainKey(d, k)];
            && row.count <= U32_MAX && twin.count == row.count && twin.merkleRoot == row.root && twin.period == k.period
            && twin.perAttribution == Credits(d.codes[k.shared], row.count)
            && row.attributed == (if twin.perAttribution == [] then 0 else row.count)
            && (row.settled ==> ChainKey(d, k) in d.chain.ledger.settled)
            && PayoutOk(d.chain.ledger, ChainKey(d, k), row.payout)
  {
    StartIsSafe(D, c);
    RunIsSafe(D, c, steps);
    assert TallyOk(D, Run(D, c, steps), k);
  }

  /** Count and root of a tally are the sum and the Merkle root of exactly the events that carry
      its period, in id order; all of them are signed, and there are 1 to 10,000. */
  lemma TallyIsItsEvents(D: Deployment, c: Cloud, steps: seq<Step>, k: TallyKey)
    requires Start(D, c) && k in Run(D, c, steps).tallies
    ensures var d := Run(D, c, steps);
            var items := Stamped(d, k);
            && 1 <= |items| <= MAX_RECEIPTS && AllSigned(items)
            && d.tallies[k].count == Sum(items) && d.tallies[k].root == RootOf(D, items)
  {
    StartIsSafe(D, c);
    RunIsSafe(D, c, steps);
    assert TallyOk(D, Run(D, c, steps), k);
  }

  /** A batch always fits: at most 10^8 redemptions, so the guard against u32 overflow never fires. */
  lemma BatchesFit(D: Deployment, c: Cloud, k: TallyKey, end: nat)
    requires EventsOk(D, c.codes, c.events) && IsBatch(c.events, k.shared, end)
    ensures var items := BatchItems(c.events, k.shared, end);
            |items| <= Sum(items) <= MAX_RECEIPTS * MAX_EVENT_COUNT < MAX_TOTAL <= U32_MAX
  {
    var rows := Rows(c.events, k.shared, Pending, end);
    var items := BatchItems(c.events, k.shared, end);
    RowsFrom(c.events, k.shared, Pending, end);
    forall i | 0 <= i < |items| ensures 1 <= items[i].count <= MAX_EVENT_COUNT { assert rows[i] in c.events; }
    SumBound(items, MAX_EVENT_COUNT);
    assert |items| * MAX_EVENT_COUNT <= MAX_RECEIPTS * MAX_EVENT_COUNT;
  }

  /** There is one batch to select at a time. */
  lemma OneBatchAtATime(events: seq<Event>, shared: nat, a: nat, b: nat)
    requires IsBatch(events, shared, a) && IsBatch(events, shared, b)
    ensures a == b
  {
    if a < b { LaterRowsAdd(events, shared, a, b); }
    if b < a { LaterRowsAdd(events, shared, b, a); }
  }

  lemma {:induction false} LaterRowsAdd(events: seq<Event>, shared: nat, a: nat, b: nat)
    requires a < b <= |events|
    ensures |Rows(events, shared, Pending, b)| >= |Rows(events, shared, Pending, a)|
    ensures events[b - 1].shared == shared && events[b - 1].mark == Pending ==>
              |Rows(events, shared, Pending, b)| > |Rows(events, shared, Pending, a)|
  {
    if a < b - 1 { LaterRowsAdd(events, shared, a, b - 1); }
  }

  // ── events are never lost, changed or counted twice ────────────────

  /** An event keeps what it recorded; out of the queue it never moves again. */
  ghost predicate SameEvent(e: Event, e': Event) {
    && e'.shared == e.shared && e'.count == e.count && e'.receipt == e.receipt
    && (e.mark != Pending ==> e' == e)
  }

  ghost predicate EventsKept(a: seq<Event>, b: seq<Event>) {
    && |a| <= |b|
    && forall i :: 0 <= i < |a| ==> SameEvent(a[i], b[i])
  }

  lemma StepKeepsEvents(D: Deployment, c: Cloud, step: Step)
    ensures EventsKept(c.events, Next(D, c, step).events)
  {
  }

  /** No event is ever in two tallies: its period, once stamped, is final. */
  lemma {:induction false} EventsAreFinal(D: Deployment, c: Cloud, steps: seq<Step>)
    ensures EventsKept(c.events, Run(D, c, steps).events)
    decreases |steps|
  {
    if steps != [] {
      StepKeepsEvents(D, c, steps[0]);
      EventsAreFinal(D, Next(D, c, steps[0]), steps[1..]);
    }
  }

  // ── conservation of redemptions ────────────────────────────────────

  /** Redemptions recorded for a code among the first n rows. */
  function Recorded(events: seq<Event>, shared: nat, n: nat): nat
    requires n <= |events|
  {
    if n == 0 then 0
    else Recorded(events, shared, n - 1) + (if events[n - 1].shared == shared then events[n - 1].count else 0)
  }

  function CountIn(events: seq<Event>, shared: nat, mark: Stage, n: nat): nat
    requires n <= |events|
  {
    Sum(Items(Rows(events, shared, mark, n)))
  }

  lemma CountNext(events: seq<Event>, shared: nat, mark: Stage, n: nat)
    requires 0 < n <= |events|
    ensures CountIn(events, shared, mark, n) == CountIn(events, shared, mark, n - 1)
              + (if events[n - 1].shared == shared && events[n - 1].mark == mark then events[n - 1].count else 0)
  {
    if events[n - 1].shared == shared && events[n - 1].mark == mark {
      var items := Items(Rows(events, shared, mark, n));
      assert items[..|items| - 1] == Items(Rows(events, shared, mark, n - 1));
    } else {
      assert Rows(events, shared, mark, n) == Rows(events, shared, mark, n - 1);
    }
  }

  ghost function StampedCount(events: seq<Event>, n: nat): TallyKey -> int
    requires n <= |events|
  {
    (k: TallyKey) => CountIn(events, k.shared, In(k.period), n)
  }

  /** Rows are pending, quarantined, or under one of the keys. */
  lemma {:induction false} EachRowOnce(events: seq<Event>, shared: nat, ks: set<TallyKey>, n: nat)
    requires n <= |events| && forall k :: k in ks ==> k.shared == shared
    requires forall i :: 0 <= i < n && events[i].shared == shared && events[i].mark.In? ==>
               TallyKey(shared, events[i].mark.period) in ks
    ensures Recorded(events, shared, n)
         == CountIn(events, shared, Pending, n) + CountIn(events, shared, Quarantined, n) + SumOver(ks, StampedCount(events, n))
  {
    if n == 0 {
      SumOfZeros(ks, StampedCount(events, 0));
    } else {
      EachRowOnce(events, shared, ks, n - 1);
      var e := events[n - 1];
      CountNext(events, shared, Pending, n);
      CountNext(events, shared, Quarantined, n);
      forall k: TallyKey ensures StampedCount(events, n)(k) == StampedCount(events, n - 1)(k)
          + (if e.shared == k.shared && e.mark == In(k.period) then e.count else 0) {
        CountNext(events, k.shared, In(k.period), n);
      }
      if e.shared == shared && e.mark.In? {
        SumChange(ks, StampedCount(events, n - 1), StampedCount(events, n), TallyKey(shared, e.mark.period));
      } else {
        SumSame(ks, StampedCount(events, n - 1), StampedCount(events, n));
      }
    }
  }

  ghost function TalliesOf(c: Cloud, shared: nat): set<TallyKey> { set k | k in c.tallies && k.shared == shared }

  ghost function TallyCount(c: Cloud): TallyKey -> int {
    (k: TallyKey) => if k in c.tallies then c.tallies[k].count else 0
  }

  /** Every redemption recorded for a code is counted once: in the queue, in quarantine, or in one
      of the indexed tallies. */
  lemma RedemptionsAreConserved(D: Deployment, c: Cloud, steps: seq<Step>, shared: nat)
    requires Start(D, c)
    ensures var d := Run(D, c, steps);
            var n := |d.events|;
            Recorded(d.events, shared, n)
              == CountIn(d.events, shared, Pending, n) + CountIn(d.events, shared, Quarantined, n)
                 + SumOver(TalliesOf(d, shared), TallyCount(d))
  {
    var d := Run(D, c, steps);
    StartIsSafe(D, c);
    RunIsSafe(D, c, steps);
    EachRowOnce(d.events, shared, TalliesOf(d, shared), |d.events|);
    forall k | k in TalliesOf(d, shared) ensures StampedCount(d.events, |d.events|)(k) == TallyCount(d)(k) {
      assert TallyOk(D, d, k);
    }
    SumSame(TalliesOf(d, shared), StampedCount(d.events, |d.events|), TallyCount(d));
  }

  // ── reconciliation ─────────────────────────────────────────────────

  /** A period that somebody else settled: two steps under the lock bring the row up to date and
      touch nothing else. */
  lemma ReconciliationCatchesUp(D: Deployment, c: Cloud, k: TallyKey)
    requires k in c.tallies && k.shared < |c.codes| && c.codes[k.shared].owner !in c.busy
    requires ChainKey(c, k) in c.chain.ledger.settled
    ensures var d := Next(D, Next(D, c, SeeSettled(k)), MarkSettled(c.codes[k.shared].owner));
            d == c.(tallies := c.tallies[k := c.tallies[k].(settled := true)])
  {
    var a := c.codes[k.shared].owner;
    assert c.busy[a := PaidOut(k, None)] - {a} == c.busy;
  }
}
