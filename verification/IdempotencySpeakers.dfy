/** Whose answer a retry hears. A row is found by its key and request hash, not by the run that
    reserved it, so a run that outlives its row can store its answer in its successor's. */
module IdempotencySpeakers {
  import opened Basics
  import opened Idempotency

  // ── the run whose answer is on record ──────────────────────────────

  /** The answer on record for a key: the last one stored since the key was last reserved. */
  function Speaker(log: seq<Event>, k: Key): (r: Option<Event>)
    ensures r.Some? ==> r.value in log && r.value.Stored? && r.value.key == k
  {
    if log == [] then None
    else
      var e := log[|log| - 1];
      if e.Began? && e.key == k then None
      else if e.Stored? && e.key == k then Some(e)
      else Speaker(log[..|log| - 1], k)
  }

  lemma SpeakerAfter(log: seq<Event>, e: Event, k: Key)
    ensures Speaker(log + [e], k)
         == if e.Began? && e.key == k then None else if e.Stored? && e.key == k then Some(e) else Speaker(log, k)
  {
    assert (log + [e])[..|log|] == log;
  }

  predicate Says(speaker: Option<Event>, hash: nat, a: Answer) {
    if speaker.None? then a.status == 0
    else a.status != 0 && speaker.value.Stored? && speaker.value.hash == hash && speaker.value.answer == a
  }

  /** Every row holds what the history says is on record for its key. */
  ghost predicate Traced(s: System) {
    forall k :: k in s.table ==> Says(Speaker(s.log, k), s.table[k].hash, s.table[k].answer)
  }

  /** An answered row was answered by the last run of its key: whoever looks now hears that run. */
  predicate Speaks(s: System, k: Key) {
    k in s.table && s.table[k].answer.status != 0 ==>
      Speaker(s.log, k).Some? && LastRun(s.log, k).Some? && Speaker(s.log, k).value.id == LastRun(s.log, k).value.id
  }

  /** The UPDATE of a run finds a row with its key and hash. */
  predicate Storing(s: System, step: Step) {
    && step.Store? && step.works && step.id in s.requests && s.requests[step.id].phase.Ran?
    && s.requests[step.id].key in s.table && s.table[s.requests[step.id].key].hash == s.requests[step.id].hash
  }

  /** ... which a later run has reserved. */
  predicate Overtaken(s: System, step: Step, k: Key) {
    && Storing(s, step) && s.requests[step.id].key == k
    && !(LastRun(s.log, k).Some? && LastRun(s.log, k).value.id == step.id)
  }

  // ── one step ───────────────────────────────────────────────────────

  /** What a step other than an effective UPDATE does to table and log: nothing, but that rows may
      go; a note on which no row depends; or a reservation. */
  ghost predicate Moves(s: System, t: System) {
    || (t.log == s.log && forall k :: k in t.table ==> k in s.table && t.table[k] == s.table[k])
    || (exists e :: t.log == s.log + [e] && Note(s, t, e))
    || (exists e :: t.log == s.log + [e] && Reservation(s, t, e))
  }

  ghost predicate Note(s: System, t: System, e: Event) { !e.Began? && !e.Stored? && t.table == s.table }

  ghost predicate Reservation(s: System, t: System, e: Event) {
    e.Began? && e.key !in s.table && t.table == s.table[e.key := Row(e.hash, InProgress, e.created)]
  }

  lemma Noting(s: System, t: System, e: Event)
    requires t.log == s.log + [e] && !e.Began? && !e.Stored? && t.table == s.table
    ensures Moves(s, t)
  {
    assert Note(s, t, e);
  }

  lemma Reserving(s: System, step: Step)
    requires step.Reserve? && step.id in s.requests && s.requests[step.id].phase.Arrived? && s.requests[step.id].key !in s.table
    ensures Moves(s, Next(s, step))
  {
    var r := s.requests[step.id];
    assert Reservation(s, Next(s, step), Began(step.id, r.key, r.hash, r.now, s.clock));
  }

  lemma Acting(s: System, step: Step)
    requires step.Look? || step.End? || step.Ack? || step.Store?
    requires step.id in s.requests && !Storing(s, step)
    ensures Moves(s, Next(s, step))
  {
    var t := Next(s, step);
    if t.log != s.log {
      assert t.log == s.log + [t.log[|s.log|]];
      Noting(s, t, t.log[|s.log|]);
    }
  }

  lemma Moved(s: System, step: Step)
    requires !Storing(s, step)
    ensures Moves(s, Next(s, step))
  {
    match step
    case Reserve(id) => if id in s.requests && s.requests[id].phase.Arrived? && s.requests[id].key !in s.table { Reserving(s, step); }
    case Tick(_) =>
    case Arrive(_, _) =>
    case Sweep(_) =>
    case Drop(_) =>
    case _ => if step.id in s.requests { Acting(s, step); }
  }

  lemma KeepsSpeaking(s: System, t: System, k: Key)
    requires Moves(s, t) && Traced(s)
    ensures k in t.table ==> Says(Speaker(t.log, k), t.table[k].hash, t.table[k].answer)
    ensures Speaks(s, k) ==> Speaks(t, k)
  {
    if t.log != s.log {
      var e :| t.log == s.log + [e] && (Note(s, t, e) || Reservation(s, t, e));
      SpeakerAfter(s.log, e, k);
      LastRunAfter(s.log, e, k);
    }
  }

  lemma Storage(s: System, step: Step, k: Key)
    requires Good(s) && Traced(s) && Storing(s, step)
    ensures var t := Next(s, step); k in t.table ==> Says(Speaker(t.log, k), t.table[k].hash, t.table[k].answer)
    ensures Speaks(s, k) ==> (Speaks(Next(s, step), k) <==> !Overtaken(s, step, k))
  {
    var r := s.requests[step.id];
    var e := Stored(step.id, r.key, r.hash, r.phase.answer, r.now, s.clock);
    RanFacts(s, step.id, r.phase.answer);
    assert Next(s, step) == StoredAs(s, step.id, r, r.phase.answer);
    SpeakerAfter(s.log, e, k);
    LastRunAfter(s.log, e, k);
  }

  lemma TracedNext(s: System, step: Step)
    requires Good(s) && Traced(s)
    ensures Traced(Next(s, step))
  {
    var t := Next(s, step);
    forall k | k in t.table ensures Says(Speaker(t.log, k), t.table[k].hash, t.table[k].answer) {
      if Storing(s, step) { Storage(s, step, k); } else { Moved(s, step); KeepsSpeaking(s, t, k); }
    }
  }

  /** A row stops speaking for the last run of its key in exactly one way: an earlier run, whose row
      is gone, stores its answer in the row that the last one has reserved. */
  lemma SpeaksIff(s: System, step: Step, k: Key)
    requires Good(s) && Traced(s) && Speaks(s, k)
    ensures Speaks(Next(s, step), k) <==> !Overtaken(s, step, k)
  {
    if Storing(s, step) { Storage(s, step, k); } else { Moved(s, step); KeepsSpeaking(s, Next(s, step), k); }
  }

  /** An UPDATE can only be overtaken more than a day after its request has read the clock. */
  lemma OvertakenIsLate(s: System, step: Step, k: Key)
    requires Good(s) && Overtaken(s, step, k)
    ensures s.clock - s.requests[step.id].now > DAY
  {
    RanFacts(s, step.id, s.requests[step.id].phase.answer);
  }

  // ── runs ───────────────────────────────────────────────────────────

  ghost predicate AlwaysSpeaks(s: System, steps: seq<Step>, k: Key)
    decreases |steps|
  {
    Speaks(s, k) && (steps != [] ==> AlwaysSpeaks(Next(s, steps[0]), steps[1..], k))
  }

  ghost predicate NeverOvertaken(s: System, steps: seq<Step>, k: Key)
    decreases |steps|
  {
    steps != [] ==> !Overtaken(s, steps[0], k) && NeverOvertaken(Next(s, steps[0]), steps[1..], k)
  }

  /** The row of a key speaks for its last run at every moment if and only if no run of that key is
      overtaken. */
  lemma {:induction false} AlwaysSpeaksIff(s: System, steps: seq<Step>, k: Key)
    requires Good(s) && Traced(s) && Speaks(s, k)
    ensures AlwaysSpeaks(s, steps, k) <==> NeverOvertaken(s, steps, k)
    decreases |steps|
  {
    if steps != [] {
      var t := Next(s, steps[0]);
      SpeaksIff(s, steps[0], k);
      if !Overtaken(s, steps[0], k) {
        NextIsGood(s, steps[0]);
        TracedNext(s, steps[0]);
        AlwaysSpeaksIff(t, steps[1..], k);
      } else {
        assert !AlwaysSpeaks(t, steps[1..], k);
      }
    }
  }

  // ── replays ────────────────────────────────────────────────────────

  /** The store at `i` went to a row that a later run had reserved. */
  predicate OvertakenAt(log: seq<Event>, i: nat)
    requires i < |log| && log[i].Stored?
  {
    !(LastRun(log[..i], log[i].key).Some? && LastRun(log[..i], log[i].key).value.id == log[i].id)
  }

  ghost predicate NoneOvertaken(log: seq<Event>, k: Key) {
    forall i :: 0 <= i < |log| && log[i].Stored? && log[i].key == k ==> !OvertakenAt(log, i)
  }

  lemma NoneOvertakenAfter(log: seq<Event>, e: Event, k: Key)
    ensures NoneOvertaken(log + [e], k) <==>
            NoneOvertaken(log, k)
            && (e.Stored? && e.key == k ==> LastRun(log, k).Some? && LastRun(log, k).value.id == e.id)
  {
    var l := log + [e];
    assert l[..|log|] == log;
    forall i | 0 <= i < |log| ensures l[..i] == log[..i] && l[i] == log[i] { }
    if NoneOvertaken(l, k) && e.Stored? && e.key == k { assert !OvertakenAt(l, |log|); }
    forall i | 0 <= i < |log| && log[i].Stored? ensures OvertakenAt(log, i) <==> OvertakenAt(l, i) { }
  }

  lemma NothingStored(s: System, t: System, k: Key)
    requires Moves(s, t)
    ensures NoneOvertaken(t.log, k) <==> NoneOvertaken(s.log, k)
  {
    if t.log != s.log {
      var e :| t.log == s.log + [e] && (Note(s, t, e) || Reservation(s, t, e));
      if !Note(s, t, e) { assert Reservation(s, t, e) && e.key !in s.table && e.Began?; }
      NoneOvertakenAfter(s.log, e, k);
    }
  }

  lemma StepOvertakes(s: System, step: Step, k: Key)
    ensures NoneOvertaken(Next(s, step).log, k) <==> NoneOvertaken(s.log, k) && !Overtaken(s, step, k)
  {
    if Storing(s, step) {
      var r := s.requests[step.id];
      NoneOvertakenAfter(s.log, Stored(step.id, r.key, r.hash, r.phase.answer, r.now, s.clock), k);
    } else {
      Moved(s, step);
      NothingStored(s, Next(s, step), k);
    }
  }

  /** The steps that overtake are the stores of the history that do. */
  lemma {:induction false} NeverOvertakenIff(s: System, steps: seq<Step>, k: Key)
    ensures NoneOvertaken(Run(s, steps).log, k) <==> NoneOvertaken(s.log, k) && NeverOvertaken(s, steps, k)
    decreases |steps|
  {
    if steps != [] {
      StepOvertakes(s, steps[0], k);
      NeverOvertakenIff(Next(s, steps[0]), steps[1..], k);
    }
  }

  /** From the first day on: the row of a key always speaks for its last run if and only if no store
      of its history was overtaken. */
  lemma RowsSpeakForTheLastRunIff(steps: seq<Step>, k: Key)
    ensures AlwaysSpeaks(DayOne, steps, k) <==> NoneOvertaken(History(steps), k)
  {
    AlwaysSpeaksIff(DayOne, steps, k);
    NeverOvertakenIff(DayOne, steps, k);
  }

  /** What is replayed is on record. */
  ghost predicate Voiced(log: seq<Event>) {
    forall j :: 0 <= j < |log| && log[j].Replayed? ==>
      log[j].answer.status != 0 && Says(Speaker(log[..j], log[j].key), log[j].hash, log[j].answer)
  }

  lemma VoicedAfter(log: seq<Event>, e: Event)
    requires Voiced(log) && (e.Replayed? ==> e.answer.status != 0 && Says(Speaker(log, e.key), e.hash, e.answer))
    ensures Voiced(log + [e])
  {
    var l := log + [e];
    forall j | 0 <= j < |l| && l[j].Replayed?
      ensures l[j].answer.status != 0 && Says(Speaker(l[..j], l[j].key), l[j].hash, l[j].answer)
    {
      assert l[..j] == log[..j];
      if j == |log| { assert l[..j] == log; }
    }
  }

  lemma VoicedNext(s: System, step: Step)
    requires Traced(s) && Voiced(s.log)
    ensures Voiced(Next(s, step).log)
  {
    var t := Next(s, step);
    if t.log != s.log {
      var e := t.log[|s.log|];
      assert t.log == s.log + [e];
      VoicedAfter(s.log, e);
    }
  }

  lemma {:induction false} RunIsVoiced(s: System, steps: seq<Step>)
    requires Good(s) && Traced(s) && Voiced(s.log)
    ensures Traced(Run(s, steps)) && Voiced(Run(s, steps).log)
    decreases |steps|
  {
    if steps != [] {
      NextIsGood(s, steps[0]);
      TracedNext(s, steps[0]);
      VoicedNext(s, steps[0]);
      RunIsVoiced(Next(s, steps[0]), steps[1..]);
    }
  }

  /** The store of a key that is followed by no other. */
  predicate LastStore(log: seq<Event>, i: nat, k: Key) {
    && i < |log| && log[i].Stored? && log[i].key == k
    && forall x :: i < x < |log| ==> !(log[x].Stored? && log[x].key == k)
  }

  /** The store at `i` is what is on record: the last one, into the row that is still the key's. */
  predicate OnRecord(log: seq<Event>, i: nat, k: Key) {
    LastStore(log, i, k) && Speaker(log, k) == Some(log[i]) && LastRun(log[..i], k) == LastRun(log, k)
  }

  lemma StaysOnRecord(log: seq<Event>, e: Event, i: nat, k: Key)
    requires OnRecord(log, i, k) && !((e.Began? || e.Stored?) && e.key == k)
    ensures OnRecord(log + [e], i, k)
  {
    SpeakerAfter(log, e, k);
    LastRunAfter(log, e, k);
    assert (log + [e])[..i] == log[..i];
  }

  lemma ComesOnRecord(log: seq<Event>, e: Event)
    requires e.Stored?
    ensures OnRecord(log + [e], |log|, e.key)
  {
    SpeakerAfter(log, e, e.key);
    LastRunAfter(log, e, e.key);
    assert (log + [e])[..|log|] == log;
  }

  lemma {:induction false} SpeakerIsLastStore(log: seq<Event>, k: Key)
    requires Speaker(log, k).Some?
    ensures exists i: nat :: OnRecord(log, i, k)
  {
    var n := |log| - 1;
    var past, e := log[..n], log[n];
    assert log == past + [e];
    if e.Stored? && e.key == k {
      ComesOnRecord(past, e);
    } else {
      SpeakerIsLastStore(past, k);
      var i: nat :| OnRecord(past, i, k);
      StaysOnRecord(past, e, i, k);
    }
  }

  lemma {:induction false} RunHasLast(log: seq<Event>, b: Event)
    requires b in log && b.Began?
    ensures LastRun(log, b.key).Some?
  {
    if log[|log| - 1] != b { RunHasLast(log[..|log| - 1], b); }
  }

  lemma EndedHasRun(steps: seq<Step>, j: nat, id: nat, k: Key, hash: nat, a: Answer)
    requires j < |History(steps)| && Ended(id, k, hash, a) in History(steps)[..j]
    ensures LastRun(History(steps)[..j], k).Some?
  {
    var i :| 0 <= i < j && History(steps)[i] == Ended(id, k, hash, a);
    HistoryIsJustified(steps, i);
    var b :| b in History(steps)[..i] && b.Began? && b.key == k;
    assert forall y :: y in History(steps)[..i] ==> y in History(steps)[..j];
    RunHasLast(History(steps)[..j], b);
  }

  /** A replay gives the answer that was stored last for the key, and that is the answer of the
      key's last run if and only if that store was not overtaken. */
  lemma ReplayIsTheLastRunIff(steps: seq<Step>, j: nat)
    requires j < |History(steps)| && History(steps)[j].Replayed?
    ensures var e := History(steps)[j];
            var past := History(steps)[..j];
            LastRun(past, e.key).Some? &&
            exists i: nat :: LastStore(past, i, e.key) && Ended(past[i].id, e.key, e.hash, e.answer) in past &&
              (past[i].id == LastRun(past, e.key).value.id <==> !OvertakenAt(past, i))
  {
    var e := History(steps)[j];
    var past := History(steps)[..j];
    RunIsVoiced(DayOne, steps);
    SpeakerIsLastStore(past, e.key);
    var i: nat :| OnRecord(past, i, e.key);
    StoredHasEnded(steps, j, past[i]);
    HistoryIsJustified(steps, j);
    EndedHasRun(steps, j, past[i].id, e.key, e.hash, e.answer);
  }

  /** Within a day of its request's clock a store is never overtaken; so replays come from the last
      run of the key unless some run of the same request stored its answer later than that. */
  lemma ReplayIsTheLastRun(steps: seq<Step>, j: nat)
    requires j < |History(steps)| && History(steps)[j].Replayed?
    requires forall x :: x in History(steps)[..j] && x.Stored? && x.key == History(steps)[j].key ==> x.at - x.created <= DAY
    ensures var e := History(steps)[j];
            var past := History(steps)[..j];
            LastRun(past, e.key).Some? && Ended(LastRun(past, e.key).value.id, e.key, e.hash, e.answer) in past
  {
    var e := History(steps)[j];
    var past := History(steps)[..j];
    ReplayIsTheLastRunIff(steps, j);
    var i: nat :| LastStore(past, i, e.key) && Ended(past[i].id, e.key, e.hash, e.answer) in past
                  && (past[i].id == LastRun(past, e.key).value.id <==> !OvertakenAt(past, i));
    HistoryIsJustified(steps, i);
    assert past[..i] == History(steps)[..i];
  }

  // ── every run that outlives its row ────────────────────────────────

  /** Two runs of one request; the first ends d seconds after it began, when its row has been swept
      and reserved again. */
  function Outlived(k: Key, hash: nat, d: nat): seq<Step> {
    [Arrive(k, hash)] + ([Reserve(0)] + ([Tick(d)] + ([Sweep(d)] + ([Arrive(k, hash)] + ([Reserve(1)] + Late(k, hash))))))
  }

  function Late(k: Key, hash: nat): seq<Step> {
    [End(0, 200, "", "late")] + ([Store(0, true)] + ([Arrive(k, hash)] + ([Reserve(2)] + ([Look(2)] + []))))
  }

  const LateAnswer := Answer(200, "application/json", "late")

  function FirstTwo(k: Key, hash: nat, d: nat): seq<Event> { [Began(0, k, hash, 0, 0), Began(1, k, hash, d, d)] }

  /** Both requests run, the row is the second one's. */
  function BothRun(k: Key, hash: nat, d: nat): System {
    System(d, map[k := Row(hash, InProgress, d)],
           map[0 := Request(k, hash, 0, Running), 1 := Request(k, hash, d, Running)], 2, FirstTwo(k, hash, d))
  }

  /** The first one has stored its answer in that row. */
  function LateStored(k: Key, hash: nat, d: nat): System {
    System(d, map[k := Row(hash, LateAnswer, d)],
           map[0 := Request(k, hash, 0, Durable(LateAnswer)), 1 := Request(k, hash, d, Running)], 2,
           FirstTwo(k, hash, d) + [Ended(0, k, hash, LateAnswer)] + [Stored(0, k, hash, LateAnswer, 0, d)])
  }

  lemma EarlySteps(k: Key, hash: nat, d: nat)
    requires d > DAY
    ensures Run(DayOne, Outlived(k, hash, d)) == Run(BothRun(k, hash, d), Late(k, hash))
  {
    var s1 := DayOne.(requests := map[0 := Request(k, hash, 0, Arrived)], next := 1);
    var s2 := System(0, map[k := Row(hash, InProgress, 0)], map[0 := Request(k, hash, 0, Running)], 1, [Began(0, k, hash, 0, 0)]);
    var s4 := s2.(clock := d, table := map[]);
    assert Next(DayOne, Arrive(k, hash)) == s1 && Next(s1, Reserve(0)) == s2;
    assert Next(s2.(clock := d), Sweep(d)) == s4;
    assert Next(Next(s4, Arrive(k, hash)), Reserve(1)) == BothRun(k, hash, d);
    Unroll(DayOne, Arrive(k, hash), [Reserve(0)] + ([Tick(d)] + ([Sweep(d)] + ([Arrive(k, hash)] + ([Reserve(1)] + Late(k, hash))))));
    Unroll(s1, Reserve(0), [Tick(d)] + ([Sweep(d)] + ([Arrive(k, hash)] + ([Reserve(1)] + Late(k, hash)))));
    Unroll(s2, Tick(d), [Sweep(d)] + ([Arrive(k, hash)] + ([Reserve(1)] + Late(k, hash))));
    Unroll(s2.(clock := d), Sweep(d), [Arrive(k, hash)] + ([Reserve(1)] + Late(k, hash)));
    Unroll(s4, Arrive(k, hash), [Reserve(1)] + Late(k, hash));
    Unroll(Next(s4, Arrive(k, hash)), Reserve(1), Late(k, hash));
  }

  lemma LateStore(k: Key, hash: nat, d: nat)
    ensures Next(Next(BothRun(k, hash, d), End(0, 200, "", "late")), Store(0, true)) == LateStored(k, hash, d)
  {
  }

  lemma LateReplay(k: Key, hash: nat, d: nat)
    ensures Next(Next(Next(LateStored(k, hash, d), Arrive(k, hash)), Reserve(2)), Look(2)).log
         == LateStored(k, hash, d).log + [Replayed(k, hash, LateAnswer, d)]
  {
  }

  lemma LateSteps(k: Key, hash: nat, d: nat)
    ensures Run(BothRun(k, hash, d), Late(k, hash)).log == LateStored(k, hash, d).log + [Replayed(k, hash, LateAnswer, d)]
  {
    var s := BothRun(k, hash, d);
    var s1 := Next(s, End(0, 200, "", "late"));
    var s2 := Next(s1, Store(0, true));
    var s3 := Next(s2, Arrive(k, hash));
    var s4 := Next(s3, Reserve(2));
    LateStore(k, hash, d);
    LateReplay(k, hash, d);
    Unroll(s, End(0, 200, "", "late"), [Store(0, true)] + ([Arrive(k, hash)] + ([Reserve(2)] + ([Look(2)] + []))));
    Unroll(s1, Store(0, true), [Arrive(k, hash)] + ([Reserve(2)] + ([Look(2)] + [])));
    Unroll(s2, Arrive(k, hash), [Reserve(2)] + ([Look(2)] + []));
    Unroll(s3, Reserve(2), [Look(2)] + []);
    Unroll(s4, Look(2), []);
  }

  /** However little a run outlives its row: it can write into its successor's, and a retry then hears
      the old answer while the last run of the key has not even ended. */
  lemma LateRunsAnswerForTheLast(k: Key, hash: nat, d: nat)
    requires d > DAY
    ensures var log := History(Outlived(k, hash, d));
            && |log| == 5 && log[3].Stored? && log[3].at - log[3].created == d && OvertakenAt(log, 3)
            && log[4].Replayed? && log[4].key == k && log[4].answer.body == "late"
            && LastRun(log, k) == Some(Began(1, k, hash, d, d))
            && (forall a :: Ended(1, k, hash, a) !in log)
  {
    EarlySteps(k, hash, d);
    LateSteps(k, hash, d);
    var two := FirstTwo(k, hash, d);
    var stored := Stored(0, k, hash, LateAnswer, 0, d);
    assert two == [Began(0, k, hash, 0, 0)] + [Began(1, k, hash, d, d)];
    LastRunAfter([Began(0, k, hash, 0, 0)], Began(1, k, hash, d, d), k);
    LastRunAfter(two, Ended(0, k, hash, LateAnswer), k);
    LastRunAfter(two + [Ended(0, k, hash, LateAnswer)], stored, k);
    LastRunAfter(LateStored(k, hash, d).log, Replayed(k, hash, LateAnswer, d), k);
    assert History(Outlived(k, hash, d))[..3] == two + [Ended(0, k, hash, LateAnswer)];
  }
}
