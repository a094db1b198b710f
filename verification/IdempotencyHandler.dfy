/** The idempotency middleware around one handler: the recorder of its response, the table of
    keys, and what a client that retries can count on. */
module IdempotencyHandler {
  import opened Idempotency

  // ── the recorder ──────────────────────────────────────────

  /** What a handler does to its ResponseWriter. */
  datatype Call = Header(code: nat) | Body(bytes: string)

  /** The first header wins; a body before any header means 200. */
  function StatusOf(calls: seq<Call>): nat {
    if calls == [] then 0
    else
      var before := StatusOf(calls[..|calls| - 1]);
      if before != 0 then before
      else match calls[|calls| - 1] case Header(code) => code case Body(_) => 200
  }

  function BodyOf(calls: seq<Call>): string {
    if calls == [] then ""
    else
      BodyOf(calls[..|calls| - 1]) + match calls[|calls| - 1] case Header(_) => "" case Body(b) => b
  }

  class Recorder {
    var status: nat
    var buf: string

    constructor ()
      ensures status == 0 && buf == ""
    {
      status, buf := 0, "";
    }

    method WriteHeader(code: nat)
      modifies this
      ensures buf == old(buf) && status == if old(status) != 0 then old(status) else code
    {
      if status != 0 { return; }
      status := code;
    }

    method Write(b: string)
      modifies this
      ensures buf == old(buf) + b && status == if old(status) != 0 then old(status) else 200
    {
      if status == 0 { WriteHeader(200); }
      buf := buf + b;
    }

    /** A handler that makes these calls. */
    method Serve(calls: seq<Call>)
      requires status == 0 && buf == ""
      modifies this
      ensures status == StatusOf(calls) && buf == BodyOf(calls)
    {
      for i := 0 to |calls|
        invariant status == StatusOf(calls[..i]) && buf == BodyOf(calls[..i])
      {
        assert calls[..i + 1][..i] == calls[..i];
        match calls[i] {
          case Header(code) => WriteHeader(code);
          case Body(b) => Write(b);
        }
      }
      assert calls[..|calls|] == calls;
    }
  }

  /** Where a header is written first, it alone decides the status. */
  lemma {:induction false} FirstHeaderWins(code: nat, calls: seq<Call>)
    requires code != 0
    ensures StatusOf([Header(code)] + calls) == code
  {
    var all := [Header(code)] + calls;
    if calls == [] {
      assert all[..0] == [];
    } else {
      assert all[..|all| - 1] == [Header(code)] + calls[..|calls| - 1];
      FirstHeaderWins(code, calls[..|calls| - 1]);
    }
  }

  /** Read from the front: the first header that is not zero, or 200 if something is written before. */
  lemma {:induction false} StatusIsFirst(c: Call, rest: seq<Call>)
    ensures StatusOf([c] + rest) == if c.Body? then 200 else if c.code != 0 then c.code else StatusOf(rest)
    decreases |rest|
  {
    var all := [c] + rest;
    if rest == [] {
      assert all[..0] == [];
    } else {
      assert all[..|all| - 1] == [c] + rest[..|rest| - 1];
      StatusIsFirst(c, rest[..|rest| - 1]);
    }
  }

  /** ... and everything that is written, in order. */
  lemma {:induction false} BodyIsAll(c: Call, rest: seq<Call>)
    ensures BodyOf([c] + rest) == (if c.Body? then c.bytes else "") + BodyOf(rest)
    decreases |rest|
  {
    var all := [c] + rest;
    if rest == [] {
      assert all[..0] == [];
    } else {
      assert all[..|all| - 1] == [c] + rest[..|rest| - 1];
      BodyIsAll(c, rest[..|rest| - 1]);
    }
  }

  datatype Response = Fresh(answer: Answer) | Replay(answer: Answer) | OtherParameters | InProgressNow | ServerError

  /** What the row says to a request that was refused. */
  function Lookup(row: Row, hash: nat): Response {
    if row.hash != hash then OtherParameters
    else if row.answer.status == 0 then InProgressNow
    else Replay(row.answer)
  }

  /** One request from start to end, with nobody in between: the table it leaves and its response.
      `stored` says whether the database accepts the update. */
  function Serve(t: Table, k: Key, hash: nat, now: int, calls: seq<Call>, contentType: string, stored: bool, later: int): (Table, Response) {
    if k in t then
      (t, Lookup(t[k], hash))
    else
      var a := Recorded(StatusOf(calls), contentType, BodyOf(calls));
      if !stored then (t[k := Row(hash, InProgress, now)], ServerError)
      else (Swept(t[k := Row(hash, a, now)], later - DAY), Fresh(a))
  }

  // ── an undisturbed request as a run of the protocol ────────────────

  /** The steps that one request takes: to an answer from the row, or through the handler. */
  function RetrySteps(id: nat, k: Key, hash: nat): seq<Step> { [Arrive(k, hash)] + ([Reserve(id)] + ([Look(id)] + [])) }

  function FreshSteps(id: nat, k: Key, hash: nat, a: Answer, stored: bool, later: int): seq<Step> {
    [Arrive(k, hash)] + ([Reserve(id)] + ([End(id, a.status, a.contentType, a.body)] + ([Store(id, stored)] + AckSteps(id, stored, later))))
  }

  function AckSteps(id: nat, stored: bool, later: int): seq<Step> {
    if stored then [Ack(id)] + ([Tick(later)] + ([Sweep(later)] + [])) else []
  }

  /** The event that a response is. */
  function Said(r: Response, id: nat, k: Key, hash: nat, now: int): Event {
    match r
    case Fresh(a) => Acked(id, k, hash, a)
    case Replay(a) => Replayed(k, hash, a, now)
    case OtherParameters => Conflicted(k, hash)
    case InProgressNow => Busy(k, hash)
    case ServerError => Failed(k, hash)
  }

  /** `d` has this table, the log of `s`, and `e` as the last thing that happened. */
  ghost predicate EndsWith(d: System, s: System, t: Table, e: Event) {
    d.table == t && |d.log| > |s.log| && s.log <= d.log && d.log[|d.log| - 1] == e
  }

  /** The request `id` in a phase. */
  function With(s: System, id: nat, k: Key, hash: nat, phase: Phase): System {
    s.(requests := s.requests[id := Request(k, hash, s.clock, phase)])
  }

  lemma WithWith(s: System, id: nat, k: Key, hash: nat, p: Phase, q: Phase)
    ensures With(With(s, id, k, hash, p), id, k, hash, q) == With(s, id, k, hash, q)
  {
    assert s.requests[id := Request(k, hash, s.clock, p)][id := Request(k, hash, s.clock, q)] == s.requests[id := Request(k, hash, s.clock, q)];
  }

  function Come(s: System): System { s.(next := s.next + 1) }

  function Begun(s: System, k: Key, hash: nat): System {
    With(Come(s), s.next, k, hash, Running).(table := s.table[k := Row(hash, InProgress, s.clock)],
                                              log := s.log + [Began(s.next, k, hash, s.clock, s.clock)])
  }

  lemma ArriveThenReserve(s: System, k: Key, hash: nat, rest: seq<Step>)
    ensures Run(s, [Arrive(k, hash)] + ([Reserve(s.next)] + rest))
         == Run(if k in s.table then With(Come(s), s.next, k, hash, Refused) else Begun(s, k, hash), rest)
  {
    var a := With(Come(s), s.next, k, hash, Arrived);
    Unroll(s, Arrive(k, hash), [Reserve(s.next)] + rest);
    Unroll(a, Reserve(s.next), rest);
    WithWith(Come(s), s.next, k, hash, Arrived, Refused);
    WithWith(Come(s), s.next, k, hash, Arrived, Running);
  }

  lemma LookIs(u: System, id: nat, k: Key, hash: nat)
    requires id in u.requests && u.requests[id] == Request(k, hash, u.clock, Refused) && k in u.table
    ensures var d := Next(u, Look(id)); d.table == u.table && d.log == u.log + [Said(Lookup(u.table[k], hash), id, k, hash, u.clock)]
  {
  }

  /** A request whose key is taken. */
  lemma RetryIsARun(s: System, k: Key, hash: nat)
    requires k in s.table
    ensures EndsWith(Run(s, RetrySteps(s.next, k, hash)), s, s.table, Said(Lookup(s.table[k], hash), s.next, k, hash, s.clock))
  {
    var u := With(Come(s), s.next, k, hash, Refused);
    ArriveThenReserve(s, k, hash, [Look(s.next)] + []);
    Unroll(u, Look(s.next), []);
    LookIs(u, s.next, k, hash);
  }

  lemma EndThenStore(s: System, id: nat, k: Key, hash: nat, a: Answer, stored: bool, rest: seq<Step>)
    requires id in s.requests && s.requests[id] == Request(k, hash, s.clock, Running) && a.status != 0 && a.contentType != ""
    requires k in s.table && s.table[k] == Row(hash, InProgress, s.clock)
    ensures var e := s.log + [Ended(id, k, hash, a)];
            Run(s, [End(id, a.status, a.contentType, a.body)] + ([Store(id, stored)] + rest))
              == if !stored then Run(s.(requests := s.requests - {id}, log := e + [Failed(k, hash)]), rest)
                 else Run(With(s, id, k, hash, Durable(a)).(table := s.table[k := Row(hash, a, s.clock)],
                                                            log := e + [Stored(id, k, hash, a, s.clock, s.clock)]), rest)
  {
    var t := With(s, id, k, hash, Ran(a)).(log := s.log + [Ended(id, k, hash, a)]);
    Unroll(s, End(id, a.status, a.contentType, a.body), [Store(id, stored)] + rest);
    Unroll(t, Store(id, stored), rest);
    assert With(s, id, k, hash, Ran(a)).requests - {id} == s.requests - {id};
    WithWith(s, id, k, hash, Ran(a), Durable(a));
  }

  lemma AckThenSweep(s: System, id: nat, k: Key, hash: nat, a: Answer, later: int)
    requires id in s.requests && s.requests[id] == Request(k, hash, s.clock, Durable(a)) && later >= s.clock
    ensures var d := Run(s, AckSteps(id, true, later));
            d.table == Swept(s.table, later - DAY) && d.log == s.log + [Acked(id, k, hash, a)]
  {
    var t := Next(s, Ack(id));
    Unroll(s, Ack(id), [Tick(later)] + ([Sweep(later)] + []));
    Unroll(t, Tick(later), [Sweep(later)] + []);
    Unroll(t.(clock := later), Sweep(later), []);
  }

  /** The request after its handler has ended and its answer is stored. */
  function StoredOnce(s: System, k: Key, hash: nat, a: Answer): System {
    var b := Begun(s, k, hash);
    With(b, s.next, k, hash, Durable(a)).(table := b.table[k := Row(hash, a, s.clock)],
      log := b.log + [Ended(s.next, k, hash, a)] + [Stored(s.next, k, hash, a, s.clock, s.clock)])
  }

  function FailedOnce(s: System, k: Key, hash: nat, a: Answer): System {
    var b := Begun(s, k, hash);
    b.(requests := b.requests - {s.next}, log := b.log + [Ended(s.next, k, hash, a)] + [Failed(k, hash)])
  }

  lemma FreshUntilStored(s: System, k: Key, hash: nat, a: Answer, stored: bool, rest: seq<Step>)
    requires k !in s.table && a.status != 0 && a.contentType != ""
    ensures Run(s, [Arrive(k, hash)] + ([Reserve(s.next)] + ([End(s.next, a.status, a.contentType, a.body)] + ([Store(s.next, stored)] + rest))))
         == Run(if stored then StoredOnce(s, k, hash, a) else FailedOnce(s, k, hash, a), rest)
  {
    ArriveThenReserve(s, k, hash, [End(s.next, a.status, a.contentType, a.body)] + ([Store(s.next, stored)] + rest));
    EndThenStore(Begun(s, k, hash), s.next, k, hash, a, stored, rest);
  }

  lemma FailedEnds(s: System, k: Key, hash: nat, a: Answer)
    ensures EndsWith(FailedOnce(s, k, hash, a), s, s.table[k := Row(hash, InProgress, s.clock)], Failed(k, hash))
  {
  }

  lemma StoredEnds(s: System, k: Key, hash: nat, a: Answer, later: int)
    requires later >= s.clock
    ensures EndsWith(Run(StoredOnce(s, k, hash, a), AckSteps(s.next, true, later)), s,
                     Swept(s.table[k := Row(hash, a, s.clock)], later - DAY), Acked(s.next, k, hash, a))
  {
    var t := StoredOnce(s, k, hash, a);
    AckThenSweep(t, s.next, k, hash, a, later);
    assert t.table == s.table[k := Row(hash, a, s.clock)];
  }

  /** A request that reserves its key. */
  lemma FreshIsARun(s: System, k: Key, hash: nat, a: Answer, stored: bool, later: int)
    requires k !in s.table && later >= s.clock && a.status != 0 && a.contentType != ""
    ensures EndsWith(Run(s, FreshSteps(s.next, k, hash, a, stored, later)), s,
                     if stored then Swept(s.table[k := Row(hash, a, s.clock)], later - DAY) else s.table[k := Row(hash, InProgress, s.clock)],
                     if stored then Acked(s.next, k, hash, a) else Failed(k, hash))
  {
    FreshUntilStored(s, k, hash, a, stored, AckSteps(s.next, stored, later));
    if stored { StoredEnds(s, k, hash, a, later); } else { FailedEnds(s, k, hash, a); }
  }

  lemma ServeIs(s: System, k: Key, hash: nat, calls: seq<Call>, contentType: string, stored: bool, later: int)
    ensures var (t, r) := Serve(s.table, k, hash, s.clock, calls, contentType, stored, later);
            var a := Recorded(StatusOf(calls), contentType, BodyOf(calls));
            if k in s.table then t == s.table && r == Lookup(s.table[k], hash)
            else
              && t == (if stored then Swept(s.table[k := Row(hash, a, s.clock)], later - DAY) else s.table[k := Row(hash, InProgress, s.clock)])
              && Said(r, s.next, k, hash, s.clock) == if stored then Acked(s.next, k, hash, a) else Failed(k, hash)
  {
  }

  /** An undisturbed request is a run of the protocol: it leaves the same table, and its response is
      the last thing that happens. */
  lemma ServeIsARun(s: System, k: Key, hash: nat, calls: seq<Call>, contentType: string, stored: bool, later: int)
    requires later >= s.clock
    ensures var (t, r) := Serve(s.table, k, hash, s.clock, calls, contentType, stored, later);
            var a := Recorded(StatusOf(calls), contentType, BodyOf(calls));
            var steps := if k in s.table then RetrySteps(s.next, k, hash) else FreshSteps(s.next, k, hash, a, stored, later);
            EndsWith(Run(s, steps), s, t, Said(r, s.next, k, hash, s.clock))
  {
    ServeIs(s, k, hash, calls, contentType, stored, later);
    if k in s.table { RetryIsARun(s, k, hash); }
    else { FreshIsARun(s, k, hash, Recorded(StatusOf(calls), contentType, BodyOf(calls)), stored, later); }
  }

  // ── the middleware ─────────────────────────────────────────────────

  class IdempotencyTable {
    var rows: Table

    constructor ()
      ensures rows == map[]
    {
      rows := map[];
    }

    method Reserve(k: Key, hash: nat, now: int) returns (inserted: nat)
      modifies this
      ensures rows == Insert(old(rows), k, hash, now) && inserted == if k in old(rows) then 0 else 1
    {
      if k in rows { return 0; }
      rows := rows[k := Row(hash, InProgress, now)];
      inserted := 1;
    }

    method Persist(k: Key, hash: nat, a: Answer) returns (updated: nat)
      modifies this
      ensures rows == Update(old(rows), k, hash, a)
      ensures updated == if k in old(rows) && old(rows)[k].hash == hash then 1 else 0
    {
      if k !in rows || rows[k].hash != hash { return 0; }
      rows := rows[k := rows[k].(answer := a)];
      updated := 1;
    }

    method SweepBefore(cutoff: int)
      modifies this
      ensures rows == Swept(old(rows), cutoff)
    {
      rows := map k | k in rows && rows[k].created >= cutoff :: rows[k];
    }

    /** The middleware around a handler that makes `calls`. */
    method Idempotent(k: Key, hash: nat, now: int, calls: seq<Call>, contentType: string, stored: bool, later: int)
      returns (r: Response)
      modifies this
      ensures (rows, r) == Serve(old(rows), k, hash, now, calls, contentType, stored, later)
    {
      var inserted := Reserve(k, hash, now);
      if inserted == 0 {
        if rows[k].hash != hash { return OtherParameters; }
        if rows[k].answer.status == 0 { return InProgressNow; }
        return Replay(rows[k].answer);
      }
      var rec := new Recorder();
      rec.Serve(calls);
      var status, kind := rec.status, contentType;
      if status == 0 { status := 200; }
      if kind == "" { kind := "application/json"; }
      if !stored { return ServerError; }
      var updated := Persist(k, hash, Answer(status, kind, rec.buf));
      assert rows == old(rows)[k := Row(hash, Answer(status, kind, rec.buf), now)];
      SweepBefore(later - DAY);
      return Fresh(Answer(status, kind, rec.buf));
    }
  }

  /** A request under a new key hears what its handler has answered, with 200 and JSON where the handler
      has said nothing of them; and the row that it leaves says the same. */
  lemma FreshIsTheHandlers(t: Table, k: Key, hash: nat, now: int, calls: seq<Call>, kind: string, later: int)
    requires k !in t && later - 86_400 <= now
    ensures var (t1, r) := Serve(t, k, hash, now, calls, kind, true, later);
            && r.Fresh? && r.answer.body == BodyOf(calls)
            && r.answer.status == (if StatusOf(calls) == 0 then 200 else StatusOf(calls))
            && r.answer.contentType == (if kind == "" then "application/json" else kind)
            && k in t1 && t1[k] == Row(hash, r.answer, now)
            && (forall j :: j != k ==> (j in t1 <==> j in t && t[j].created >= later - 86_400))
            && (forall j :: j in t1 && j != k ==> t1[j] == t[j])
  {
  }

  /** A retry of a request that was answered: while the row lives, whatever the handler would do
      now, the first answer comes back and nothing changes; other parameters are turned away. */
  lemma RetriesAreReplayed(t: Table, k: Key, hash: nat, now: int, calls: seq<Call>, kind: string, later: int,
                           hash': nat, now': int, calls': seq<Call>, kind': string, stored': bool, later': int)
    requires k !in t && later - 86_400 <= now
    ensures var (t1, r1) := Serve(t, k, hash, now, calls, kind, true, later);
            var (t2, r2) := Serve(t1, k, hash', now', calls', kind', stored', later');
            && r1.Fresh? && t2 == t1
            && r2 == if hash' == hash then Replay(r1.answer) else OtherParameters
  {
  }

  /** A run whose record could not be stored is never run again while its row lives. */
  lemma UnstoredFailsClosed(t: Table, k: Key, hash: nat, now: int, calls: seq<Call>, kind: string, later: int,
                            now': int, calls': seq<Call>, kind': string, stored': bool, later': int)
    requires k !in t
    ensures var (t1, r1) := Serve(t, k, hash, now, calls, kind, false, later);
            r1 == ServerError && Serve(t1, k, hash, now', calls', kind', stored', later') == (t1, InProgressNow)
  {
  }
}
