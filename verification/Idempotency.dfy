/** Idempotency keys: a request under a key runs at most once in 24 hours, and retries are answered
    from the record. Requests, crashes and sweeps interleave freely; every statement on the
    database is one step. */
module Idempotency {
  import opened Basics

  const DAY: int := 86_400

  datatype Key = Key(key: string, org: nat, env: string, endpoint: string)

  /** Status 0 means: in progress. */
  datatype Answer = Answer(status: nat, contentType: string, body: string)

  const InProgress := Answer(0, "application/json", "")

  /** A row of idempotency_v2; the key is the primary key. */
  datatype Row = Row(hash: nat, answer: Answer, created: int)

  type Table = map<Key, Row>

  // ── the statements ─────────────────────────────────────────────────

  /** INSERT OR IGNORE. */
  function Insert(t: Table, k: Key, hash: nat, now: int): Table {
    if k in t then t else t[k := Row(hash, InProgress, now)]
  }

  /** UPDATE ... WHERE the key and the request hash match. */
  function Update(t: Table, k: Key, hash: nat, a: Answer): Table {
    if k in t && t[k].hash == hash then t[k := t[k].(answer := a)] else t
  }

  /** DELETE ... WHERE created_at < cutoff. */
  function Swept(t: Table, cutoff: int): Table { map k | k in t && t[k].created >= cutoff :: t[k] }

  // ── requests as a state machine ────────────────────────────────────

  datatype Phase =
    | Arrived                  // has read the clock
    | Refused                  // the key was taken: will read the row
    | Running                  // holds the reservation
    | Ran(answer: Answer)      // the handler has returned
    | Durable(answer: Answer)  // the record is stored

  datatype Request = Request(key: Key, hash: nat, now: int, phase: Phase)

  /** What happened, in order. */
  datatype Event =
    | Began(id: nat, key: Key, hash: nat, created: int, inserted: int)
    | Ended(id: nat, key: Key, hash: nat, answer: Answer)
    | Stored(id: nat, key: Key, hash: nat, answer: Answer, created: int, at: int)
    | Acked(id: nat, key: Key, hash: nat, answer: Answer)
    | Replayed(key: Key, hash: nat, answer: Answer, at: int)
    | Conflicted(key: Key, hash: nat)
    | Busy(key: Key, hash: nat)
    | Failed(key: Key, hash: nat)

  datatype System = System(clock: int, table: Table, requests: map<nat, Request>, next: nat, log: seq<Event>)

  datatype Step =
    | Tick(to: int)
    | Arrive(key: Key, hash: nat)
    | Reserve(id: nat)
    | Look(id: nat)
    | End(id: nat, status: nat, contentType: string, body: string)
    | Store(id: nat, works: bool)
    | Ack(id: nat)
    | Sweep(readAt: int)   // any request that was acknowledged sweeps, with a clock it has read
    | Drop(id: nat)        // the connection, the request or the process dies

  const DayOne := System(0, map[], map[], 0, [])

  function Gone(s: System, id: nat, e: Event): System { s.(requests := s.requests - {id}, log := s.log + [e]) }

  function Turn(s: System, id: nat, phase: Phase): System
    requires id in s.requests
  {
    s.(requests := s.requests[id := s.requests[id].(phase := phase)])
  }

  /** What a handler answered, as the recorder has it. */
  function Recorded(status: nat, contentType: string, body: string): (a: Answer)
    ensures a.status != 0 && a.contentType != ""
  {
    Answer(if status == 0 then 200 else status, if contentType == "" then "application/json" else contentType, body)
  }

  function Next(s: System, step: Step): System {
    match step
    case Tick(to) => if to >= s.clock then s.(clock := to) else s
    case Arrive(k, hash) => s.(requests := s.requests[s.next := Request(k, hash, s.clock, Arrived)], next := s.next + 1)
    case Sweep(readAt) => if readAt <= s.clock then s.(table := Swept(s.table, readAt - DAY)) else s
    case Drop(id) => s.(requests := s.requests - {id})
    case _ => if step.id in s.requests then Act(s, step, step.id, s.requests[step.id]) else s
  }

  function Act(s: System, step: Step, id: nat, r: Request): System
    requires id in s.requests && r == s.requests[id]
  {
    match (step, r.phase)
    case (Reserve(_), Arrived) =>
      if r.key in s.table then Turn(s, id, Refused)
      else
        var t := Turn(s, id, Running);
        t.(table := Insert(s.table, r.key, r.hash, r.now), log := s.log + [Began(id, r.key, r.hash, r.now, s.clock)])
    case (Look(_), Refused) =>
      if r.key !in s.table then Gone(s, id, Failed(r.key, r.hash))
      else if s.table[r.key].hash != r.hash then Gone(s, id, Conflicted(r.key, r.hash))
      else if s.table[r.key].answer.status == 0 then Gone(s, id, Busy(r.key, r.hash))
      else Gone(s, id, Replayed(r.key, r.hash, s.table[r.key].answer, s.clock))
    case (End(_, status, contentType, body), Running) =>
      var a := Recorded(status, contentType, body);
      Turn(s, id, Ran(a)).(log := s.log + [Ended(id, r.key, r.hash, a)])
    case (Store(_, works), Ran(a)) =>
      if !works || r.key !in s.table || s.table[r.key].hash != r.hash then Gone(s, id, Failed(r.key, r.hash))
      else
        var t := Turn(s, id, Durable(a));
        t.(table := Update(s.table, r.key, r.hash, a),
           log := s.log + [Stored(id, r.key, r.hash, a, r.now, s.clock)])
    case (Ack(_), Durable(a)) => Gone(s, id, Acked(id, r.key, r.hash, a))
    case _ => s
  }

  function Run(s: System, steps: seq<Step>): System
    decreases |steps|
  {
    if steps == [] then s else Run(Next(s, steps[0]), steps[1..])
  }

  // ── what each event rests on ───────────────────────────────────────

  /** The reservation that came last for a key. */
  function LastRun(log: seq<Event>, k: Key): (r: Option<Event>)
    ensures r.Some? ==> r.value in log && r.value.Began? && r.value.key == k
  {
    if log == [] then None
    else
      var e := log[|log| - 1];
      if e.Began? && e.key == k then Some(e) else LastRun(log[..|log| - 1], k)
  }

  /** `e` stored `a` for `k`, and it was the last run of that key, unless it came back to store its
      answer more than a day after it had read the clock. */
  predicate Keeps(log: seq<Event>, e: Event, k: Key, hash: nat, a: Answer) {
    && e.Stored? && e.key == k && e.hash == hash && e.answer == a
    && (e.at - e.created > DAY || (LastRun(log, k).Some? && LastRun(log, k).value.id == e.id))
  }

  /** What the history before an event guarantees about it. */
  ghost predicate Justified(past: seq<Event>, e: Event) {
    match e
    case Began(_, k, _, _, inserted) =>
      forall b :: b in past && b.Began? && b.key == k ==> inserted - b.created > DAY
    case Ended(id, k, hash, _) => exists b :: b in past && b.Began? && b.id == id && b.key == k && b.hash == hash
    case Stored(id, k, hash, a, created, at) =>
      && Ended(id, k, hash, a) in past
      && (at - created > DAY || (LastRun(past, k).Some? && LastRun(past, k).value.id == id))
    case Acked(id, k, hash, a) => exists s :: s in past && s.Stored? && s.id == id && s.key == k && s.hash == hash && s.answer == a
    case Replayed(k, hash, a, at) =>
      && (forall b :: b in past && b.Began? && b.key == k && at - b.created <= DAY ==> b.hash == hash)
      && exists s :: s in past && Keeps(past, s, k, hash, a)
    case Conflicted(k, hash) => LastRun(past, k).Some? && LastRun(past, k).value.hash != hash
    case Busy(k, hash) => LastRun(past, k).Some? && LastRun(past, k).value.hash == hash && !HasStored(past, k, LastRun(past, k).value.id)
    case Failed(_, _) => true
  }

  ghost predicate HasStored(log: seq<Event>, k: Key, id: nat) {
    exists e :: e in log && e.Stored? && e.id == id && e.key == k
  }

  ghost predicate AllJustified(log: seq<Event>) {
    forall j :: 0 <= j < |log| ==> Justified(log[..j], log[j])
  }

  /** A row is the reservation that came last, with the answer that somebody stored for it. */
  ghost predicate RowOk(s: System, k: Key)
    requires k in s.table
  {
    && LastRun(s.log, k).Some?
    && LastRun(s.log, k).value.hash == s.table[k].hash && LastRun(s.log, k).value.created == s.table[k].created
    && (s.table[k].answer.status == 0 ==> !HasStored(s.log, k, LastRun(s.log, k).value.id))
    && (s.table[k].answer.status != 0 ==> exists e :: e in s.log && Keeps(s.log, e, k, s.table[k].hash, s.table[k].answer))
  }

  ghost predicate RowsOk(s: System) { forall k :: k in s.table ==> RowOk(s, k) }

  /** For a day from the instant that it carries, a reservation keeps its row. */
  ghost predicate WindowOk(s: System) {
    forall b :: b in s.log && b.Began? ==>
      s.clock - b.created > DAY || (b.key in s.table && LastRun(s.log, b.key) == Some(b))
  }

  ghost predicate Reserved(log: seq<Event>, id: nat, r: Request) {
    exists b :: b in log && b.Began? && b.id == id && b.key == r.key && b.hash == r.hash && b.created == r.now
  }

  ghost predicate RequestOk(s: System, id: nat, r: Request) {
    && r.now <= s.clock && id < s.next
    && match r.phase
       case Arrived => forall e :: e in s.log && e.Stored? ==> e.id != id
       case Running => Reserved(s.log, id, r)
       case Ran(a) => a.status != 0 && Reserved(s.log, id, r) && Ended(id, r.key, r.hash, a) in s.log
       case Durable(a) => exists e :: e in s.log && e.Stored? && e.id == id && e.key == r.key && e.hash == r.hash && e.answer == a
       case _ => true
  }

  ghost predicate RequestsOk(s: System) {
    forall id :: id in s.requests ==> RequestOk(s, id, s.requests[id])
  }

  ghost predicate IdsOk(s: System) { forall e :: e in s.log && e.Stored? ==> e.id < s.next }

  ghost predicate Good(s: System) { AllJustified(s.log) && IdsOk(s) && RowsOk(s) && WindowOk(s) && RequestsOk(s) }

  lemma LogGrows(log: seq<Event>, e: Event)
    requires AllJustified(log) && Justified(log, e)
    ensures AllJustified(log + [e])
  {
    var l := log + [e];
    forall j | 0 <= j < |l| ensures Justified(l[..j], l[j]) {
      if j < |log| { assert l[..j] == log[..j]; } else { assert l[..j] == log; }
    }
  }

  lemma LastRunAfter(log: seq<Event>, e: Event, k: Key)
    ensures LastRun(log + [e], k) == if e.Began? && e.key == k then Some(e) else LastRun(log, k)
  {
    assert (log + [e])[..|log|] == log;
  }

  /** An event that no row depends on leaves rows, windows and other requests as good as before. */
  lemma Noted(s: System, e: Event)
    requires Good(s) && !e.Began? && !e.Stored? && Justified(s.log, e)
    ensures Good(s.(log := s.log + [e]))
  {
    var t := s.(log := s.log + [e]);
    LogGrows(s.log, e);
    forall k ensures LastRun(t.log, k) == LastRun(s.log, k) { LastRunAfter(s.log, e, k); }
    forall k | k in t.table ensures RowOk(t, k) { RowStays(s, t, k); }
    forall id | id in t.requests ensures RequestOk(t, id, t.requests[id]) { StillOk(s, t, id, s.requests[id]); }
  }

  lemma RowStays(s: System, t: System, k: Key)
    requires k in s.table && RowOk(s, k) && k in t.table && t.table[k] == s.table[k]
    requires LastRun(t.log, k) == LastRun(s.log, k) && s.log <= t.log
    requires forall e :: e in t.log && e !in s.log ==> !e.Stored? || e.key != k
    ensures RowOk(t, k)
  {
    if t.table[k].answer.status != 0 {
      var x :| x in s.log && Keeps(s.log, x, k, s.table[k].hash, s.table[k].answer);
      assert x in t.log && Keeps(t.log, x, k, t.table[k].hash, t.table[k].answer);
    }
  }

  lemma StillOk(s: System, t: System, id: nat, r: Request)
    requires RequestOk(s, id, r) && s.log <= t.log && s.clock <= t.clock && s.next <= t.next
    requires forall e :: e in t.log && e !in s.log ==> !e.Stored? || e.id != id
    ensures RequestOk(t, id, r)
  {
  }

  /** The last event of a request. */
  lemma NotedAndGone(s: System, id: nat, e: Event)
    requires Good(s) && !e.Began? && !e.Stored? && Justified(s.log, e)
    ensures Good(Gone(s, id, e))
  {
    Noted(s, e);
    RequestLeaves(s.(log := s.log + [e]), id);
  }

  lemma RequestChanges(s: System, id: nat, r: Request)
    requires Good(s) && RequestOk(s, id, r)
    ensures Good(s.(requests := s.requests[id := r]))
  {
    var t := s.(requests := s.requests[id := r]);
    forall i | i in t.requests ensures RequestOk(t, i, t.requests[i]) { StillOk(s, t, i, t.requests[i]); }
    forall k | k in t.table ensures RowOk(t, k) { RowStays(s, t, k); }
  }

  lemma NotedAndTurned(s: System, id: nat, e: Event, r: Request)
    requires Good(s) && !e.Began? && !e.Stored? && Justified(s.log, e)
    requires RequestOk(s.(log := s.log + [e]), id, r)
    ensures Good(s.(log := s.log + [e], requests := s.requests[id := r]))
  {
    Noted(s, e);
    RequestChanges(s.(log := s.log + [e]), id, r);
  }

  lemma RequestLeaves(s: System, id: nat)
    requires Good(s)
    ensures Good(s.(requests := s.requests - {id}))
  {
    var t := s.(requests := s.requests - {id});
    forall i | i in t.requests ensures RequestOk(t, i, t.requests[i]) { StillOk(s, t, i, s.requests[i]); }
    forall k | k in t.table ensures RowOk(t, k) { RowStays(s, t, k); }
  }

  // ── every step ─────────────────────────────────────────────────────

  lemma ClockMoves(s: System, to: int)
    requires Good(s) && to >= s.clock
    ensures Good(s.(clock := to))
  {
    var t := s.(clock := to);
    forall i | i in t.requests ensures RequestOk(t, i, t.requests[i]) { StillOk(s, t, i, s.requests[i]); }
    forall k | k in t.table ensures RowOk(t, k) { RowStays(s, t, k); }
  }

  lemma Arrives(s: System, k: Key, hash: nat)
    requires Good(s)
    ensures Good(Next(s, Arrive(k, hash)))
  {
    var t := s.(next := s.next + 1);
    forall i | i in t.requests ensures RequestOk(t, i, t.requests[i]) { StillOk(s, t, i, s.requests[i]); }
    forall x | x in t.table ensures RowOk(t, x) { RowStays(s, t, x); }
    RequestChanges(t, s.next, Request(k, hash, s.clock, Arrived));
  }

  /** Rows that are deleted were reserved more than a day ago. */
  lemma Sweeps(s: System, readAt: int)
    requires Good(s) && readAt <= s.clock
    ensures Good(s.(table := Swept(s.table, readAt - DAY)))
  {
    var t := s.(table := Swept(s.table, readAt - DAY));
    forall i | i in t.requests ensures RequestOk(t, i, t.requests[i]) { StillOk(s, t, i, s.requests[i]); }
    forall k | k in t.table ensures RowOk(t, k) { RowStays(s, t, k); }
    forall b | b in t.log && b.Began? && t.clock - b.created <= DAY ensures b.key in t.table && LastRun(t.log, b.key) == Some(b) {
      assert RowOk(s, b.key);
    }
  }

  /** A reservation becomes the last run of its key. */
  lemma ReservedRows(s: System, t: System, r: Request, e: Event)
    requires RowsOk(s) && WindowOk(s) && r.key !in s.table && e.Began? && e.key == r.key && e.hash == r.hash && e.created == r.now
    requires t.clock == s.clock && t.log == s.log + [e] && t.table == Insert(s.table, r.key, r.hash, r.now)
    requires forall x :: x in s.log && x.Stored? ==> x.id != e.id
    ensures e.inserted == s.clock ==> Justified(s.log, e)
    ensures RowsOk(t) && WindowOk(t)
  {
    forall k ensures LastRun(t.log, k) == if k == r.key then Some(e) else LastRun(s.log, k) { LastRunAfter(s.log, e, k); }
    forall k | k in t.table ensures RowOk(t, k) { if k != r.key { RowStays(s, t, k); } }
  }

  lemma ReservedRequests(s: System, t: System, id: nat, r: Request, e: Event)
    requires RequestsOk(s) && id in s.requests && r == s.requests[id] && t.clock == s.clock && t.next == s.next
    requires e.Began? && e.id == id && e.key == r.key && e.hash == r.hash && e.created == r.now
    requires t.log == s.log + [e] && t.requests == s.requests[id := r.(phase := Running)]
    ensures RequestsOk(t)
  {
    assert e in t.log;
    assert RequestOk(s, id, r);
    forall i | i in t.requests ensures RequestOk(t, i, t.requests[i]) { if i != id { StillOk(s, t, i, s.requests[i]); } }
  }

  lemma Reserves(s: System, id: nat)
    requires Good(s) && id in s.requests && s.requests[id].phase.Arrived? && s.requests[id].key !in s.table
    ensures Good(Act(s, Reserve(id), id, s.requests[id]))
  {
    var r := s.requests[id];
    var e := Began(id, r.key, r.hash, r.now, s.clock);
    var t := Act(s, Reserve(id), id, r);
    assert RequestOk(s, id, r);
    ReservedRows(s, t, r, e);
    ReservedRequests(s, t, id, r, e);
    LogGrows(s.log, e);
  }

  lemma Refuses(s: System, id: nat)
    requires Good(s) && id in s.requests && s.requests[id].phase.Arrived?
    ensures Good(Turn(s, id, Refused))
  {
    assert RequestOk(s, id, s.requests[id]);
    RequestChanges(s, id, s.requests[id].(phase := Refused));
  }

  lemma Looks(s: System, id: nat)
    requires Good(s) && id in s.requests && s.requests[id].phase.Refused?
    ensures Good(Act(s, Look(id), id, s.requests[id]))
  {
    var r := s.requests[id];
    var t := Act(s, Look(id), id, r);
    var e := t.log[|s.log|];
    if r.key in s.table { assert RowOk(s, r.key); }
    assert Justified(s.log, e);
    NotedAndGone(s, id, e);
  }

  lemma EndIsJustified(s: System, id: nat, r: Request, a: Answer)
    requires RequestOk(s, id, r) && r.phase.Running? && a.status != 0
    ensures var e := Ended(id, r.key, r.hash, a);
            Justified(s.log, e) && RequestOk(s.(log := s.log + [e]), id, r.(phase := Ran(a)))
  {
    var e := Ended(id, r.key, r.hash, a);
    assert e in s.log + [e];
  }

  lemma RequestIsOk(s: System, id: nat)
    requires Good(s) && id in s.requests
    ensures RequestOk(s, id, s.requests[id])
  {
  }

  lemma Ends(s: System, id: nat, a: Answer)
    requires Good(s) && id in s.requests && s.requests[id].phase.Running? && a.status != 0
    ensures var r := s.requests[id];
            Good(s.(log := s.log + [Ended(id, r.key, r.hash, a)], requests := s.requests[id := r.(phase := Ran(a))]))
  {
    var r := s.requests[id];
    RequestIsOk(s, id);
    EndIsJustified(s, id, r, a);
    NotedAndTurned(s, id, Ended(id, r.key, r.hash, a), r.(phase := Ran(a)));
  }

  /** Whoever stores within a day of its own reservation finds its own row. */
  lemma PromptStoreIsLast(s: System, id: nat, r: Request)
    requires WindowOk(s) && Reserved(s.log, id, r)
    ensures s.clock - r.now > DAY || (LastRun(s.log, r.key).Some? && LastRun(s.log, r.key).value.id == id)
  {
  }

  lemma StoredRows(s: System, t: System, id: nat, r: Request, a: Answer, e: Event)
    requires RowsOk(s) && r.key in s.table && s.table[r.key].hash == r.hash && a.status != 0
    requires e == Stored(id, r.key, r.hash, a, r.now, s.clock) && t.log == s.log + [e] && t.table == Update(s.table, r.key, r.hash, a)
    requires s.clock - r.now > DAY || (LastRun(s.log, r.key).Some? && LastRun(s.log, r.key).value.id == id)
    ensures RowsOk(t)
  {
    assert e in t.log;
    forall k ensures LastRun(t.log, k) == LastRun(s.log, k) { LastRunAfter(s.log, e, k); }
    forall k | k in t.table ensures RowOk(t, k) {
      assert RowOk(s, k);
      if k != r.key { RowStays(s, t, k); } else { assert Keeps(t.log, e, k, t.table[k].hash, t.table[k].answer); }
    }
  }

  lemma StoredWindows(s: System, t: System, e: Event)
    requires WindowOk(s) && t.clock == s.clock && t.log == s.log + [e] && e.Stored? && t.table.Keys == s.table.Keys
    ensures WindowOk(t)
  {
    forall k ensures LastRun(t.log, k) == LastRun(s.log, k) { LastRunAfter(s.log, e, k); }
  }

  lemma StoredRequests(s: System, t: System, id: nat, r: Request, a: Answer, e: Event)
    requires RequestsOk(s) && id in s.requests && r == s.requests[id] && t.clock == s.clock && t.next == s.next
    requires e.Stored? && e.id == id && e.key == r.key && e.hash == r.hash && e.answer == a
    requires t.log == s.log + [e] && t.requests == s.requests[id := r.(phase := Durable(a))]
    ensures RequestsOk(t)
  {
    assert e in t.log;
    assert RequestOk(s, id, r);
    forall i | i in t.requests ensures RequestOk(t, i, t.requests[i]) { if i != id { StillOk(s, t, i, s.requests[i]); } }
  }

  lemma RanFacts(s: System, id: nat, a: Answer)
    requires Good(s) && id in s.requests && s.requests[id].phase == Ran(a)
    ensures var r := s.requests[id]; a.status != 0 && Ended(id, r.key, r.hash, a) in s.log && id < s.next
    ensures var r := s.requests[id];
            s.clock - r.now > DAY || (LastRun(s.log, r.key).Some? && LastRun(s.log, r.key).value.id == id)
  {
    assert RequestOk(s, id, s.requests[id]);
    PromptStoreIsLast(s, id, s.requests[id]);
  }

  /** The state after the answer of a request has been stored. */
  function StoredAs(s: System, id: nat, r: Request, a: Answer): System {
    s.(requests := s.requests[id := r.(phase := Durable(a))], table := Update(s.table, r.key, r.hash, a),
       log := s.log + [Stored(id, r.key, r.hash, a, r.now, s.clock)])
  }

  lemma StoredIds(s: System, t: System, e: Event)
    requires IdsOk(s) && t.next == s.next && t.log == s.log + [e] && (e.Stored? ==> e.id < s.next)
    ensures IdsOk(t)
  {
  }

  lemma Stores(s: System, id: nat, a: Answer)
    requires Good(s) && id in s.requests && s.requests[id].phase == Ran(a)
    requires var r := s.requests[id]; r.key in s.table && s.table[r.key].hash == r.hash
    ensures Good(StoredAs(s, id, s.requests[id], a))
  {
    var r := s.requests[id];
    RanFacts(s, id, a);
    var e := Stored(id, r.key, r.hash, a, r.now, s.clock);
    var t := StoredAs(s, id, r, a);
    LogGrows(s.log, e);
    StoredIds(s, t, e);
    StoredRows(s, t, id, r, a, e);
    StoredWindows(s, t, e);
    StoredRequests(s, t, id, r, a, e);
  }

  lemma AckIsJustified(s: System, id: nat, r: Request, a: Answer)
    requires RequestOk(s, id, r) && r.phase == Durable(a)
    ensures Justified(s.log, Acked(id, r.key, r.hash, a))
  {
  }

  lemma DurableIsStored(s: System, id: nat, a: Answer)
    requires Good(s) && id in s.requests && s.requests[id].phase == Durable(a)
    ensures Justified(s.log, Acked(id, s.requests[id].key, s.requests[id].hash, a))
  {
    AckIsJustified(s, id, s.requests[id], a);
  }

  lemma Acks(s: System, id: nat, a: Answer)
    requires Good(s) && id in s.requests && s.requests[id].phase == Durable(a)
    ensures Good(Gone(s, id, Acked(id, s.requests[id].key, s.requests[id].hash, a)))
  {
    DurableIsStored(s, id, a);
    NotedAndGone(s, id, Acked(id, s.requests[id].key, s.requests[id].hash, a));
  }

  lemma Fails(s: System, id: nat, k: Key, hash: nat)
    requires Good(s)
    ensures Good(Gone(s, id, Failed(k, hash)))
  {
    NotedAndGone(s, id, Failed(k, hash));
  }

  lemma ActIsGood(s: System, step: Step, id: nat)
    requires Good(s) && id in s.requests
    ensures Good(Act(s, step, id, s.requests[id]))
  {
    var r := s.requests[id];
    match (step, r.phase)
    case (Reserve(_), Arrived) =>
      if r.key in s.table { Refuses(s, id); } else { Reserves(s, id); }
    case (Look(_), Refused) => Looks(s, id);
    case (End(_, status, contentType, body), Running) => Ends(s, id, Recorded(status, contentType, body));
    case (Store(_, works), Ran(a)) =>
      if !works || r.key !in s.table || s.table[r.key].hash != r.hash { Fails(s, id, r.key, r.hash); } else { Stores(s, id, a); }
    case (Ack(_), Durable(a)) => Acks(s, id, a);
    case _ =>
  }

  lemma NextIsGood(s: System, step: Step)
    requires Good(s)
    ensures Good(Next(s, step))
  {
    match step
    case Tick(to) => if to >= s.clock { ClockMoves(s, to); }
    case Arrive(k, hash) => Arrives(s, k, hash);
    case Sweep(readAt) => if readAt <= s.clock { Sweeps(s, readAt); }
    case Drop(id) => RequestLeaves(s, id);
    case _ => if step.id in s.requests { ActIsGood(s, step, step.id); }
  }

  lemma {:induction false} RunIsGood(s: System, steps: seq<Step>)
    requires Good(s)
    ensures Good(Run(s, steps))
    decreases |steps|
  {
    if steps != [] {
      NextIsGood(s, steps[0]);
      RunIsGood(Next(s, steps[0]), steps[1..]);
    }
  }

  // ── the protocol's promises ────────────────────────────────────────

  function History(steps: seq<Step>): seq<Event> { Run(DayOne, steps).log }

  lemma HistoryIsJustified(steps: seq<Step>, j: nat)
    requires j < |History(steps)|
    ensures Justified(History(steps)[..j], History(steps)[j])
  {
    RunIsGood(DayOne, steps);
  }

  /** Two runs under one key: the later one is inserted more than 24 hours after the instant that
      the earlier one carries in its row. */
  lemma RunsAreADayApart(steps: seq<Step>, i: nat, j: nat)
    requires i < j < |History(steps)| && History(steps)[i].Began? && History(steps)[j].Began?
    requires History(steps)[i].key == History(steps)[j].key
    ensures History(steps)[j].inserted - History(steps)[i].created > 86_400
  {
    HistoryIsJustified(steps, j);
    assert History(steps)[i] in History(steps)[..j];
  }

  /** A replay gives the status and body with which a handler run under the same key, for the same
      request, has ended; and within a day of a reservation only its own request is replayed. */
  lemma ReplaysAreRuns(steps: seq<Step>, j: nat)
    requires j < |History(steps)| && History(steps)[j].Replayed?
    ensures var e := History(steps)[j];
            var past := History(steps)[..j];
            && (exists id: nat :: Ended(id, e.key, e.hash, e.answer) in past)
            && (forall b :: b in past && b.Began? && b.key == e.key && e.at - b.created <= DAY ==> b.hash == e.hash)
  {
    HistoryIsJustified(steps, j);
    var e := History(steps)[j];
    var past := History(steps)[..j];
    var x :| x in past && Keeps(past, x, e.key, e.hash, e.answer);
    StoredHasEnded(steps, j, x);
  }

  lemma StoredHasEnded(steps: seq<Step>, j: nat, x: Event)
    requires j <= |History(steps)| && x in History(steps)[..j] && x.Stored?
    ensures Ended(x.id, x.key, x.hash, x.answer) in History(steps)[..j]
  {
    var i :| 0 <= i < j && History(steps)[i] == x;
    HistoryIsJustified(steps, i);
    assert forall y :: y in History(steps)[..i] ==> y in History(steps)[..j];
  }

  /** Success is acknowledged only after its record is stored, and a record holds what the handler
      answered. */
  lemma AcksAreStored(steps: seq<Step>, j: nat)
    requires j < |History(steps)| && History(steps)[j].Acked?
    ensures var e := History(steps)[j];
            var past := History(steps)[..j];
            && (exists x :: x in past && x.Stored? && x.id == e.id && x.key == e.key && x.hash == e.hash && x.answer == e.answer)
            && Ended(e.id, e.key, e.hash, e.answer) in past
  {
    HistoryIsJustified(steps, j);
    var e := History(steps)[j];
    var x :| x in History(steps)[..j] && x.Stored? && x.id == e.id && x.key == e.key && x.hash == e.hash && x.answer == e.answer;
    StoredHasEnded(steps, j, x);
  }

  /** Once a run has been acknowledged, nobody hears that it is still in progress. */
  lemma AckedIsNotBusy(steps: seq<Step>, i: nat, j: nat)
    requires i < j < |History(steps)| && History(steps)[i].Acked? && History(steps)[j].Busy?
    requires History(steps)[j].key == History(steps)[i].key
    ensures LastRun(History(steps)[..j], History(steps)[i].key).Some?
    ensures LastRun(History(steps)[..j], History(steps)[i].key).value.id != History(steps)[i].id
  {
    HistoryIsJustified(steps, j);
    AcksAreStored(steps, i);
    assert forall y :: y in History(steps)[..i] ==> y in History(steps)[..j];
  }

  // ── the limits of these promises, by example ───────────────────────

  lemma Unroll(s: System, step: Step, rest: seq<Step>)
    ensures Run(s, [step] + rest) == Run(Next(s, step), rest)
  {
    assert ([step] + rest)[1..] == rest;
  }

  /** A request that stalls for d seconds between reading the clock and reserving. */
  function Stalled(k: Key, hash: nat, d: nat): seq<Step> {
    var t := if d > DAY then d else DAY + 1;
    [Arrive(k, hash)] + ([Tick(d)] + ([Reserve(0)] + ([Tick(t)] + ([Sweep(t)] + ([Arrive(k, hash)] + ([Reserve(1)] + []))))))
  }

  /** The 24 hours do not hold between the reservations themselves: the gap shrinks by exactly the
      time for which the first request stalls, down to none. */
  lemma StallingShrinksTheGap(k: Key, hash: nat, d: nat)
    ensures var log := History(Stalled(k, hash, d));
            && |log| == 2 && log[0].Began? && log[1].Began? && log[0].key == log[1].key == k
            && log[0].inserted - log[0].created == d
            && log[1].inserted - log[0].inserted == if d > DAY then 0 else DAY + 1 - d
  {
    var t := if d > DAY then d else DAY + 1;
    var s1 := DayOne.(requests := map[0 := Request(k, hash, 0, Arrived)], next := 1);
    var b := Began(0, k, hash, 0, d);
    var s3 := System(d, map[k := Row(hash, InProgress, 0)], map[0 := Request(k, hash, 0, Running)], 1, [b]);
    var s5 := s3.(clock := t, table := map[]);
    Unroll(DayOne, Arrive(k, hash), [Tick(d)] + ([Reserve(0)] + ([Tick(t)] + ([Sweep(t)] + ([Arrive(k, hash)] + ([Reserve(1)] + []))))));
    Unroll(s1, Tick(d), [Reserve(0)] + ([Tick(t)] + ([Sweep(t)] + ([Arrive(k, hash)] + ([Reserve(1)] + [])))));
    assert Next(DayOne, Arrive(k, hash)) == s1;
    var s2 := s1.(clock := d);
    Unroll(s2, Reserve(0), [Tick(t)] + ([Sweep(t)] + ([Arrive(k, hash)] + ([Reserve(1)] + []))));
    assert Next(s2, Reserve(0)) == s3;
    Unroll(s3, Tick(t), [Sweep(t)] + ([Arrive(k, hash)] + ([Reserve(1)] + [])));
    Unroll(s3.(clock := t), Sweep(t), [Arrive(k, hash)] + ([Reserve(1)] + []));
    assert Next(s3.(clock := t), Sweep(t)) == s5;
    var s6 := Next(s5, Arrive(k, hash));
    Unroll(s5, Arrive(k, hash), [Reserve(1)] + []);
    Unroll(s6, Reserve(1), []);
    assert Next(s6, Reserve(1)).log == [b, Began(1, k, hash, t, t)];
  }
}
