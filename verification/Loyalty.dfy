/** A loyalty program: punches earn reward vouchers at a threshold, customers recorded under an old
    reference are merged into the new one. All of a program's requests hold its lock. */
module Loyalty {
  import opened Basics
  import opened Sums
  import Meter

  const MCR_PUNCH: int := 200
  const MAX_COUNT: int := 1_000

  type Ref = string

  datatype Punch = Punch(customer: Ref, count: nat)
  datatype Reward = Reward(customer: Ref, code: string)
  datatype LoyaltyEvent = LoyaltyEvent(customer: Ref, count: nat, signed: bool)

  /** The rows of one program; `minted` are the vouchers that the chain has issued for it. */
  datatype Program = Program(
    threshold: nat, punches: seq<Punch>, rewards: seq<Reward>, events: seq<LoyaltyEvent>,
    seen: set<Ref>, minted: seq<string>)

  // ── sums over rows ─────────────────────────────────────────────────

  function Total(ps: seq<Punch>, who: Ref): nat {
    if ps == [] then 0
    else Total(ps[..|ps| - 1], who) + (if ps[|ps| - 1].customer == who then ps[|ps| - 1].count else 0)
  }

  function RewardsOf(rs: seq<Reward>, who: Ref): nat {
    if rs == [] then 0
    else RewardsOf(rs[..|rs| - 1], who) + (if rs[|rs| - 1].customer == who then 1 else 0)
  }

  function Punched(ps: seq<Punch>): nat {
    if ps == [] then 0 else Punched(ps[..|ps| - 1]) + ps[|ps| - 1].count
  }

  function Anchorable(es: seq<LoyaltyEvent>): nat {
    if es == [] then 0 else Anchorable(es[..|es| - 1]) + es[|es| - 1].count
  }

  // ── merging a customer's old reference into the new one ────────────

  function Renamed(who: Ref, from: Ref, to: Ref): Ref { if who == from then to else who }

  function RenamePunches(ps: seq<Punch>, from: Ref, to: Ref): (r: seq<Punch>)
    ensures |r| == |ps| && forall i :: 0 <= i < |ps| ==> r[i] == ps[i].(customer := Renamed(ps[i].customer, from, to))
  {
    seq(|ps|, i requires 0 <= i < |ps| => ps[i].(customer := Renamed(ps[i].customer, from, to)))
  }

  function RenameRewards(rs: seq<Reward>, from: Ref, to: Ref): (r: seq<Reward>)
    ensures |r| == |rs| && forall i :: 0 <= i < |rs| ==> r[i] == rs[i].(customer := Renamed(rs[i].customer, from, to))
  {
    seq(|rs|, i requires 0 <= i < |rs| => rs[i].(customer := Renamed(rs[i].customer, from, to)))
  }

  /** What is signed cannot be rewritten. */
  function RenameEvents(es: seq<LoyaltyEvent>, from: Ref, to: Ref): (r: seq<LoyaltyEvent>)
    ensures |r| == |es|
    ensures forall i :: 0 <= i < |es| ==>
              r[i] == if es[i].signed then es[i] else es[i].(customer := Renamed(es[i].customer, from, to))
  {
    seq(|es|, i requires 0 <= i < |es| =>
      if es[i].signed then es[i] else es[i].(customer := Renamed(es[i].customer, from, to)))
  }

  function Merged(p: Program, from: Ref, to: Ref): Program {
    if from == "" || to == "" || from == to then p
    else p.(punches := RenamePunches(p.punches, from, to), rewards := RenameRewards(p.rewards, from, to),
            events := RenameEvents(p.events, from, to))
  }

  // ── a punch ────────────────────────────────────────────────────────

  /** A request after its references have been hashed: `customer` under the current key, `legacy`
      under the old one; without an event reference `event` is empty. */
  datatype Request = Request(customer: Ref, legacy: Ref, event: Ref, count: Option<int>)

  /** What may go wrong around it: the migration's transaction, the credits, the chain call (sent,
      its success reported, its ids decoded), and the final transaction. */
  datatype Luck = Luck(migrates: bool, credits: bool, sent: bool, accepted: bool, reported: bool, decoded: bool, persists: bool)

  datatype Refusal =
    | BadCount | CountTooLarge | MigrationFailed | AlreadyRecorded | TotalTooLarge | TooManyRewards
    | NoCredits | IssueFailed | IdsNotDecoded | NotPersisted

  datatype Reply = Accepted(punches: nat, rewards: seq<string>) | Refused(why: Refusal)

  /** The rows and the chain afterwards, the reply, and the part of the reservation that is kept. */
  datatype Done = Done(program: Program, reply: Reply, used: int)

  function CountOf(r: Request): int { if r.count.None? then 1 else r.count.value }

  function Due(p: Program, r: Request): int
    requires p.threshold > 0
  {
    (Total(p.punches, r.customer) + CountOf(r)) / p.threshold - RewardsOf(p.rewards, r.customer)
  }

  /** The clamp at zero. */
  function NewRewards(p: Program, r: Request): nat
    requires p.threshold > 0
  {
    if Due(p, r) < 0 then 0 else Due(p, r)
  }

  function Recorded(p: Program, r: Request, count: nat, codes: seq<string>): Program {
    p.(punches := p.punches + [Punch(r.customer, count)],
       events := p.events + [LoyaltyEvent(r.customer, count, true)],
       rewards := p.rewards + Vouchers(r.customer, codes),
       seen := if r.event == "" then p.seen else p.seen + {r.event})
  }

  function Vouchers(who: Ref, codes: seq<string>): (rs: seq<Reward>)
    ensures |rs| == |codes| && forall i :: 0 <= i < |codes| ==> rs[i] == Reward(who, codes[i])
  {
    seq(|codes|, i requires 0 <= i < |codes| => Reward(who, codes[i]))
  }

  /** `codes` are the random voucher codes; only as many as are due are used. */
  function Handle(p: Program, r: Request, codes: nat -> string, luck: Luck): Done
    requires p.threshold > 0
  {
    var count := CountOf(r);
    if count <= 0 then Done(p, Refused(BadCount), 0)
    else if count > MAX_COUNT then Done(p, Refused(CountTooLarge), 0)
    else if !luck.migrates then Done(p, Refused(MigrationFailed), 0)
    else
      var m := Merged(p, r.legacy, r.customer);
      if r.event != "" && r.event in m.seen then Done(m, Refused(AlreadyRecorded), 0)
      else if Total(m.punches, r.customer) > I64_MAX - count then Done(m, Refused(TotalTooLarge), 0)
      else if NewRewards(m, r) > MAX_BATCH then Done(m, Refused(TooManyRewards), 0)
      else if !luck.credits then Done(m, Refused(NoCredits), 0)
      else Finish(m, r, count, Codes(codes, NewRewards(m, r)), luck)
  }

  function Codes(codes: nat -> string, n: nat): (cs: seq<string>)
    ensures |cs| == n
  {
    seq(n, i requires 0 <= i < n => codes(i))
  }

  /** From the reservation on: issue the vouchers if there are any, then record everything. */
  function Finish(m: Program, r: Request, count: nat, codes: seq<string>, luck: Luck): Done {
    var issues := codes != [];
    var n := if issues && luck.sent && luck.accepted then m.(minted := m.minted + codes) else m;
    if issues && !(luck.sent && luck.accepted && luck.reported) then Done(n, Refused(IssueFailed), 0)
    else if issues && !luck.decoded then Done(n, Refused(IdsNotDecoded), |codes| * Meter.MCR_PER_CODE)
    else if !luck.persists then Done(n, Refused(NotPersisted), |codes| * Meter.MCR_PER_CODE)
    else
      var after := Total(m.punches, r.customer) + count;
      Done(Recorded(n, r, count, codes),
           Accepted(after, codes),
           count * MCR_PUNCH + |codes| * Meter.MCR_PER_CODE)
  }

  // ── sums and row changes ───────────────────────────────────────────

  lemma PunchAdded(ps: seq<Punch>, x: Punch, who: Ref)
    ensures Total(ps + [x], who) == Total(ps, who) + (if x.customer == who then x.count else 0)
    ensures Punched(ps + [x]) == Punched(ps) + x.count
  {
    assert (ps + [x])[..|ps|] == ps;
  }

  lemma {:induction false} VouchersAdded(rs: seq<Reward>, who: Ref, codes: seq<string>, other: Ref)
    ensures RewardsOf(rs + Vouchers(who, codes), other) == RewardsOf(rs, other) + (if other == who then |codes| else 0)
    decreases |codes|
  {
    if codes == [] {
      assert rs + Vouchers(who, codes) == rs;
    } else {
      var front := codes[..|codes| - 1];
      VouchersAdded(rs, who, front, other);
      var all := rs + Vouchers(who, codes);
      assert all[..|all| - 1] == rs + Vouchers(who, front);
    }
  }

  lemma {:induction false} TotalMerged(ps: seq<Punch>, from: Ref, to: Ref, who: Ref)
    requires from != to
    ensures Total(RenamePunches(ps, from, to), who)
         == if who == from then 0 else if who == to then Total(ps, to) + Total(ps, from) else Total(ps, who)
    ensures Punched(RenamePunches(ps, from, to)) == Punched(ps)
    decreases |ps|
  {
    if ps != [] {
      var front := ps[..|ps| - 1];
      TotalMerged(front, from, to, who);
      assert RenamePunches(ps, from, to)[..|ps| - 1] == RenamePunches(front, from, to);
    }
  }

  lemma {:induction false} RewardsMerged(rs: seq<Reward>, from: Ref, to: Ref, who: Ref)
    requires from != to
    ensures RewardsOf(RenameRewards(rs, from, to), who)
         == if who == from then 0 else if who == to then RewardsOf(rs, to) + RewardsOf(rs, from) else RewardsOf(rs, who)
    decreases |rs|
  {
    if rs != [] {
      var front := rs[..|rs| - 1];
      RewardsMerged(front, from, to, who);
      assert RenameRewards(rs, from, to)[..|rs| - 1] == RenameRewards(front, from, to);
    }
  }

  lemma {:induction false} EventsMerged(es: seq<LoyaltyEvent>, from: Ref, to: Ref)
    ensures Anchorable(RenameEvents(es, from, to)) == Anchorable(es)
    decreases |es|
  {
    if es != [] {
      EventsMerged(es[..|es| - 1], from, to);
      assert RenameEvents(es, from, to)[..|es| - 1] == RenameEvents(es[..|es| - 1], from, to);
    }
  }

  // ── nobody gets more rewards than punches pay for ──────────────────

  ghost predicate Earned(p: Program) {
    && p.threshold > 0
    && forall who: Ref :: RewardsOf(p.rewards, who) <= Total(p.punches, who) / p.threshold
  }

  lemma TimesMonotone(a: int, b: int, t: nat)
    requires a <= b
    ensures a * t <= b * t
  {
    assert (b - a) * t >= 0;
    assert b * t - a * t == (b - a) * t;
  }

  lemma DivAtLeast(x: nat, q: nat, t: nat)
    requires t > 0 && x >= q * t
    ensures x / t >= q
  {
    TimesMonotone(x / t + 1, if q > x / t then q else x / t + 1, t);
    assert x == x / t * t + x % t;
    assert (x / t + 1) * t == x / t * t + t;
  }

  /** Two customers who are one have earned at least what they earned apart. */
  lemma FloorsAdd(a: nat, b: nat, t: nat)
    requires t > 0
    ensures a / t + b / t <= (a + b) / t
  {
    assert a == a / t * t + a % t && b == b / t * t + b % t;
    assert (a / t + b / t) * t == a / t * t + b / t * t;
    DivAtLeast(a + b, a / t + b / t, t);
  }

  lemma MergeKeepsEarned(p: Program, from: Ref, to: Ref)
    requires Earned(p)
    ensures Earned(Merged(p, from, to))
  {
    var m := Merged(p, from, to);
    if m != p {
      forall who: Ref ensures RewardsOf(m.rewards, who) <= Total(m.punches, who) / m.threshold {
        TotalMerged(p.punches, from, to, who);
        RewardsMerged(p.rewards, from, to, who);
        if who == to { FloorsAdd(Total(p.punches, to), Total(p.punches, from), p.threshold); }
      }
    }
  }

  lemma Monotone(a: nat, b: nat, t: nat)
    requires t > 0 && a <= b
    ensures a / t <= b / t
  {
    assert a == a / t * t + a % t;
    DivAtLeast(b, a / t, t);
  }

  /** The clamp never fires: what is due is never negative, and after it nothing is owed. */
  lemma NothingIsTakenBack(p: Program, r: Request)
    requires Earned(p) && CountOf(r) > 0
    ensures Due(p, r) >= 0 && NewRewards(p, r) == Due(p, r)
  {
    Monotone(Total(p.punches, r.customer), Total(p.punches, r.customer) + CountOf(r), p.threshold);
  }

  lemma RecordTotals(m: Program, r: Request, count: nat, codes: seq<string>, minted: seq<string>, who: Ref)
    ensures var d := Recorded(m.(minted := minted), r, count, codes);
            && Total(d.punches, who) == Total(m.punches, who) + (if who == r.customer then count else 0)
            && RewardsOf(d.rewards, who) == RewardsOf(m.rewards, who) + (if who == r.customer then |codes| else 0)
            && d.threshold == m.threshold
  {
    PunchAdded(m.punches, Punch(r.customer, count), who);
    VouchersAdded(m.rewards, r.customer, codes, who);
  }

  lemma RecordKeepsEarned(m: Program, r: Request, count: nat, codes: seq<string>, minted: seq<string>)
    requires Earned(m) && count == CountOf(r) && |codes| == NewRewards(m, r) && count > 0
    ensures var d := Recorded(m.(minted := minted), r, count, codes);
            Earned(d) && RewardsOf(d.rewards, r.customer) == Total(d.punches, r.customer) / d.threshold
  {
    var d := Recorded(m.(minted := minted), r, count, codes);
    NothingIsTakenBack(m, r);
    RecordTotals(m, r, count, codes, minted, r.customer);
    forall who: Ref ensures RewardsOf(d.rewards, who) <= Total(d.punches, who) / d.threshold {
      RecordTotals(m, r, count, codes, minted, who);
    }
  }

  /** Everybody is within what they have earned; whoever was accepted has exactly that. */
  ghost predicate Fair(d: Done, r: Request) {
    && Earned(d.program)
    && (d.reply.Accepted? ==>
          var total := Total(d.program.punches, r.customer);
          && RewardsOf(d.program.rewards, r.customer) == total / d.program.threshold
          && d.reply.punches == total)
  }

  lemma FinishIsFair(m: Program, r: Request, count: nat, codes: seq<string>, luck: Luck)
    requires Earned(m) && count == CountOf(r) && |codes| == NewRewards(m, r) && count > 0
    ensures Fair(Finish(m, r, count, codes, luck), r)
  {
    RecordKeepsEarned(m, r, count, codes, m.minted);
    RecordKeepsEarned(m, r, count, codes, m.minted + codes);
    PunchAdded(m.punches, Punch(r.customer, count), r.customer);
  }

  /** One request: customers stay within what they have earned, and the one whose punch is accepted
      then has exactly that. */
  lemma HandleIsFair(p: Program, r: Request, codes: nat -> string, luck: Luck)
    requires Earned(p)
    ensures Fair(Handle(p, r, codes, luck), r)
  {
    MergeKeepsEarned(p, r.legacy, r.customer);
    var m := Merged(p, r.legacy, r.customer);
    var d := Handle(p, r, codes, luck);
    if CountOf(r) > 0 {
      var cs := Codes(codes, NewRewards(m, r));
      FinishIsFair(m, r, CountOf(r), cs, luck);
      assert d == Finish(m, r, CountOf(r), cs, luck) || (d.reply.Refused? && d.program in {p, m});
    }
  }

  // ── whole runs ─────────────────────────────────────────────────────

  datatype Visit = Visit(request: Request, codes: nat -> string, luck: Luck)

  /** The rows after some visits, and the event references of those that were accepted. */
  datatype History = History(program: Program, accepted: seq<Ref>)

  function Visited(h: History, v: Visit): History
    requires h.program.threshold > 0
    ensures Visited(h, v).program.threshold == h.program.threshold
  {
    var d := Handle(h.program, v.request, v.codes, v.luck);
    History(d.program, if d.reply.Accepted? && v.request.event != "" then h.accepted + [v.request.event] else h.accepted)
  }

  function Run(h: History, vs: seq<Visit>): (r: History)
    requires h.program.threshold > 0
    ensures r.program.threshold == h.program.threshold
    decreases |vs|
  {
    if vs == [] then h else Run(Visited(h, vs[0]), vs[1..])
  }

  /** Recorded vouchers exist on the chain. */
  ghost predicate Minted(p: Program) {
    && |p.rewards| <= |p.minted|
    && forall i :: 0 <= i < |p.rewards| ==> p.rewards[i].code in p.minted
  }

  ghost predicate Good(h: History) {
    && Earned(h.program) && Minted(h.program)
    && Punched(h.program.punches) == Anchorable(h.program.events)
    && Distinct(h.accepted) && forall i :: 0 <= i < |h.accepted| ==> h.accepted[i] in h.program.seen
  }

  lemma FinishMints(m: Program, r: Request, count: nat, codes: seq<string>, luck: Luck)
    requires Minted(m)
    ensures Minted(Finish(m, r, count, codes, luck).program)
  {
    if codes != [] && luck.sent && luck.accepted {
      var d := Finish(m, r, count, codes, luck).program;
      forall i | 0 <= i < |d.rewards| ensures d.rewards[i].code in d.minted {
        if i >= |m.rewards| { assert d.rewards[i] == Vouchers(r.customer, codes)[i - |m.rewards|]; }
      }
    }
  }

  lemma FinishAnchors(m: Program, r: Request, count: nat, codes: seq<string>, luck: Luck)
    requires Punched(m.punches) == Anchorable(m.events)
    ensures var d := Finish(m, r, count, codes, luck).program; Punched(d.punches) == Anchorable(d.events)
  {
    PunchAdded(m.punches, Punch(r.customer, count), r.customer);
    var es := m.events + [LoyaltyEvent(r.customer, count, true)];
    assert es[..|es| - 1] == m.events;
  }

  lemma MergeKeepsRest(p: Program, from: Ref, to: Ref)
    requires Minted(p) && Punched(p.punches) == Anchorable(p.events)
    ensures var m := Merged(p, from, to); Minted(m) && Punched(m.punches) == Anchorable(m.events)
  {
    if from != to {
      TotalMerged(p.punches, from, to, from);
      EventsMerged(p.events, from, to);
    }
  }

  lemma FinishSeen(m: Program, r: Request, count: nat, codes: seq<string>, luck: Luck)
    ensures var d := Finish(m, r, count, codes, luck);
            && m.seen <= d.program.seen && (d.reply.Accepted? && r.event != "" ==> r.event in d.program.seen)
  {
  }

  lemma HandleKeepsRest(p: Program, r: Request, codes: nat -> string, luck: Luck)
    requires p.threshold > 0 && Minted(p) && Punched(p.punches) == Anchorable(p.events)
    ensures var d := Handle(p, r, codes, luck);
            && Minted(d.program) && Punched(d.program.punches) == Anchorable(d.program.events)
            && p.seen <= d.program.seen
            && (d.reply.Accepted? && r.event != "" ==> r.event !in p.seen && r.event in d.program.seen)
  {
    var m := Merged(p, r.legacy, r.customer);
    MergeKeepsRest(p, r.legacy, r.customer);
    if CountOf(r) > 0 {
      var cs := Codes(codes, NewRewards(m, r));
      FinishMints(m, r, CountOf(r), cs, luck);
      FinishAnchors(m, r, CountOf(r), cs, luck);
      FinishSeen(m, r, CountOf(r), cs, luck);
      var f := Finish(m, r, CountOf(r), cs, luck);
      assert Handle(p, r, codes, luck) == f || (Handle(p, r, codes, luck).reply.Refused? && Handle(p, r, codes, luck).program in {p, m});
    }
  }

  lemma VisitKeeps(h: History, v: Visit)
    requires Good(h)
    ensures Good(Visited(h, v))
  {
    HandleIsFair(h.program, v.request, v.codes, v.luck);
    HandleKeepsRest(h.program, v.request, v.codes, v.luck);
  }

  /** After any run of punches and merges: recorded rewards are at most punches over threshold and
      all on the chain; no event reference is accepted twice; and what is queued for anchoring is
      exactly what was punched. */
  lemma {:induction false} ProgramsStayGood(h: History, vs: seq<Visit>)
    requires Good(h)
    ensures Good(Run(h, vs))
    decreases |vs|
  {
    if vs != [] {
      VisitKeeps(h, vs[0]);
      ProgramsStayGood(Visited(h, vs[0]), vs[1..]);
    }
  }

  // ── vouchers on the chain and vouchers on record ───────────────────

  /** The request gets as far as the reservation. */
  predicate Reaches(p: Program, r: Request, luck: Luck)
    requires p.threshold > 0
  {
    var m := Merged(p, r.legacy, r.customer);
    && 0 < CountOf(r) <= MAX_COUNT && luck.migrates && luck.credits
    && !(r.event != "" && r.event in m.seen)
    && Total(m.punches, r.customer) <= I64_MAX - CountOf(r) && NewRewards(m, r) <= MAX_BATCH
  }

  lemma HandleIs(p: Program, r: Request, codes: nat -> string, luck: Luck)
    requires p.threshold > 0
    ensures var m := Merged(p, r.legacy, r.customer);
            var d := Handle(p, r, codes, luck);
            if Reaches(p, r, luck) then d == Finish(m, r, CountOf(r), Codes(codes, NewRewards(m, r)), luck)
            else d.reply.Refused? && d.used == 0 && (d.program == p || d.program == m)
  {
  }

  /** Vouchers are minted, and the request fails before they are on record: the answer is lost, the
      ids are not decoded, or the final transaction fails. */
  predicate LosesVouchers(p: Program, r: Request, luck: Luck)
    requires p.threshold > 0
  {
    && Reaches(p, r, luck) && NewRewards(Merged(p, r.legacy, r.customer), r) > 0
    && luck.sent && luck.accepted && !(luck.reported && luck.decoded && luck.persists)
  }

  function CodesOf(rs: seq<Reward>): (cs: seq<string>)
    ensures |cs| == |rs| && forall i :: 0 <= i < |rs| ==> cs[i] == rs[i].code
  {
    seq(|rs|, i requires 0 <= i < |rs| => rs[i].code)
  }

  /** The chain has minted exactly the vouchers that are on record, in their order. */
  ghost predicate InStep(p: Program) { p.minted == CodesOf(p.rewards) }

  lemma MergeKeepsCodes(p: Program, from: Ref, to: Ref)
    ensures var m := Merged(p, from, to); m.minted == p.minted && CodesOf(m.rewards) == CodesOf(p.rewards)
  {
    assert CodesOf(Merged(p, from, to).rewards) == CodesOf(p.rewards);
  }

  lemma FinishVouchers(m: Program, r: Request, count: nat, codes: seq<string>, luck: Luck)
    ensures var d := Finish(m, r, count, codes, luck).program;
            var loses := codes != [] && luck.sent && luck.accepted && !(luck.reported && luck.decoded && luck.persists);
            && |d.minted| - |d.rewards| == |m.minted| - |m.rewards| + (if loses then |codes| else 0)
            && (InStep(m) && !loses ==> InStep(d))
  {
    assert CodesOf(m.rewards + Vouchers(r.customer, codes)) == CodesOf(m.rewards) + codes;
    assert m.minted + [] == m.minted;
  }

  /** One request keeps the vouchers on the chain and on record in step if and only if it does not
      lose any; the difference never shrinks. */
  lemma VouchersStayInStepIff(p: Program, r: Request, codes: nat -> string, luck: Luck)
    requires p.threshold > 0
    ensures var d := Handle(p, r, codes, luck).program;
            && (|d.minted| - |d.rewards| == |p.minted| - |p.rewards| <==> !LosesVouchers(p, r, luck))
            && |d.minted| - |d.rewards| >= |p.minted| - |p.rewards|
            && (InStep(p) && !LosesVouchers(p, r, luck) ==> InStep(d))
  {
    var m := Merged(p, r.legacy, r.customer);
    HandleIs(p, r, codes, luck);
    MergeKeepsCodes(p, r.legacy, r.customer);
    if Reaches(p, r, luck) { FinishVouchers(m, r, CountOf(r), Codes(codes, NewRewards(m, r)), luck); }
  }

  /** No visit of the run loses vouchers. */
  predicate Careful(h: History, vs: seq<Visit>)
    requires h.program.threshold > 0
    decreases |vs|
  {
    vs != [] ==> !LosesVouchers(h.program, vs[0].request, vs[0].luck) && Careful(Visited(h, vs[0]), vs[1..])
  }

  /** After a run that starts in step, chain and rows are in step if and only if no visit has lost
      vouchers. */
  lemma {:induction false} InStepIff(h: History, vs: seq<Visit>)
    requires h.program.threshold > 0
    ensures var d := Run(h, vs).program;
            && |d.minted| - |d.rewards| >= |h.program.minted| - |h.program.rewards|
            && (|d.minted| - |d.rewards| == |h.program.minted| - |h.program.rewards| <==> Careful(h, vs))
            && (InStep(h.program) ==> (InStep(d) <==> Careful(h, vs)))
    decreases |vs|
  {
    if vs != [] {
      VouchersStayInStepIff(h.program, vs[0].request, vs[0].codes, vs[0].luck);
      InStepIff(Visited(h, vs[0]), vs[1..]);
    }
  }

  // ── so the bound holds on the chain ────────────────────────────────

  ghost function Customers(p: Program): set<Ref> {
    (set i | 0 <= i < |p.punches| :: p.punches[i].customer) + (set i | 0 <= i < |p.rewards| :: p.rewards[i].customer)
  }

  ghost function TotalOf(ps: seq<Punch>): Ref -> int { (who: Ref) => Total(ps, who) }

  ghost function RewardCount(rs: seq<Reward>): Ref -> int { (who: Ref) => RewardsOf(rs, who) }

  lemma {:induction false} PunchesByCustomer(ps: seq<Punch>, cs: set<Ref>)
    requires forall i :: 0 <= i < |ps| ==> ps[i].customer in cs
    ensures SumOver(cs, TotalOf(ps)) == Punched(ps)
    decreases |ps|
  {
    if ps == [] {
      SumOfZeros(cs, TotalOf(ps));
    } else {
      var front := ps[..|ps| - 1];
      assert forall i :: 0 <= i < |front| ==> front[i] == ps[i];
      PunchesByCustomer(front, cs);
      SumChange(cs, TotalOf(front), TotalOf(ps), ps[|ps| - 1].customer);
    }
  }

  lemma {:induction false} RewardsByCustomer(rs: seq<Reward>, cs: set<Ref>)
    requires forall i :: 0 <= i < |rs| ==> rs[i].customer in cs
    ensures SumOver(cs, RewardCount(rs)) == |rs|
    decreases |rs|
  {
    if rs == [] {
      SumOfZeros(cs, RewardCount(rs));
    } else {
      var front := rs[..|rs| - 1];
      assert forall i :: 0 <= i < |front| ==> front[i] == rs[i];
      RewardsByCustomer(front, cs);
      SumChange(cs, RewardCount(front), RewardCount(rs), rs[|rs| - 1].customer);
    }
  }

  lemma DivTimes(x: nat, q: nat, t: nat)
    requires t > 0 && q <= x / t
    ensures q * t <= x
  {
    TimesMonotone(q, x / t, t);
    assert x == x / t * t + x % t;
  }

  lemma {:induction false} SumOfShares(cs: set<Ref>, rewards: Ref -> int, totals: Ref -> int, t: nat)
    requires forall who :: who in cs ==> rewards(who) * t <= totals(who)
    ensures SumOver(cs, rewards) * t <= SumOver(cs, totals)
    decreases |cs|
  {
    if cs != {} {
      var who :| who in cs;
      SumWithout(cs, rewards, who);
      SumWithout(cs, totals, who);
      SumOfShares(cs - {who}, rewards, totals, t);
      Distributes(rewards(who), SumOver(cs - {who}, rewards), t);
    }
  }

  lemma Distributes(a: int, b: int, t: nat)
    ensures (a + b) * t == a * t + b * t
  {
  }

  /** All customers together have no more rewards than all punches together earn. */
  lemma AllEarned(p: Program)
    requires Earned(p)
    ensures |p.rewards| <= Punched(p.punches) / p.threshold
  {
    var cs := Customers(p);
    PunchesByCustomer(p.punches, cs);
    RewardsByCustomer(p.rewards, cs);
    forall who | who in cs ensures RewardCount(p.rewards)(who) * p.threshold <= TotalOf(p.punches)(who) {
      DivTimes(Total(p.punches, who), RewardsOf(p.rewards, who), p.threshold);
    }
    SumOfShares(cs, RewardCount(p.rewards), TotalOf(p.punches), p.threshold);
    DivAtLeast(Punched(p.punches), |p.rewards|, p.threshold);
  }

  /** Along every run that loses no vouchers, those on the chain are exactly those on record, so they
      are bounded by what the punches earn. */
  lemma CarefulRunsAreBoundedOnChain(h: History, vs: seq<Visit>)
    requires Good(h) && InStep(h.program) && Careful(h, vs)
    ensures var d := Run(h, vs).program; InStep(d) && |d.minted| <= Punched(d.punches) / h.program.threshold
  {
    ProgramsStayGood(h, vs);
    InStepIff(h, vs);
    AllEarned(Run(h, vs).program);
  }

  /** A request that loses its vouchers is followed by one that mints as many again: at each of the
      three exits. */
  lemma LostVouchersAreIssuedAgain(p: Program, r: Request, codes: nat -> string, codes': nat -> string, luck: Luck, luck': Luck)
    requires Earned(p) && LosesVouchers(p, r, luck)
    requires luck'.migrates && luck'.credits && luck'.sent && luck'.accepted && luck'.reported && luck'.decoded && luck'.persists
    ensures var lost := Handle(p, r, codes, luck);
            var again := Handle(lost.program, r, codes', luck');
            var due := Due(Merged(p, r.legacy, r.customer), r);
            && lost.reply.Refused? && again.reply.Accepted? && due > 0
            && |again.program.minted| == |p.minted| + 2 * due
            && |again.program.rewards| == |p.rewards| + due
  {
    var m := Merged(p, r.legacy, r.customer);
    MergeKeepsEarned(p, r.legacy, r.customer);
    NothingIsTakenBack(m, r);
    HandleIs(p, r, codes, luck);
    var lost := Handle(p, r, codes, luck).program;
    assert lost == m.(minted := m.minted + Codes(codes, NewRewards(m, r)));
    MergedTwice(p, r.legacy, r.customer, lost.minted);
    HandleIs(lost, r, codes', luck');
  }

  /** The second merge finds nothing left to merge. */
  lemma MergedTwice(p: Program, from: Ref, to: Ref, minted: seq<string>)
    ensures var m := Merged(p, from, to).(minted := minted); Merged(m, from, to) == m
  {
    var m := Merged(p, from, to).(minted := minted);
    if !(from == "" || to == "" || from == to) {
      assert RenamePunches(m.punches, from, to) == m.punches;
      assert RenameRewards(m.rewards, from, to) == m.rewards;
      assert RenameEvents(m.events, from, to) == m.events;
    }
  }

  // ── charges ────────────────────────────────────────────────────────

  lemma FinishCharges(m: Program, r: Request, count: nat, codes: seq<string>, luck: Luck)
    ensures var d := Finish(m, r, count, codes, luck);
            var lost := codes != [] && luck.sent && luck.accepted && !luck.reported;
            && d.used == MCR_PUNCH * (Punched(d.program.punches) - Punched(m.punches))
                         + Meter.MCR_PER_CODE * (|d.program.minted| - |m.minted| - (if lost then |codes| else 0))
            && 0 <= d.used <= count * MCR_PUNCH + |codes| * Meter.MCR_PER_CODE
  {
    PunchAdded(m.punches, Punch(r.customer, count), r.customer);
  }

  /** What a request reserves. */
  function Reserved(p: Program, r: Request): int
    requires p.threshold > 0
  {
    CountOf(r) * MCR_PUNCH + NewRewards(Merged(p, r.legacy, r.customer), r) * Meter.MCR_PER_CODE
  }

  lemma MergePunchesNobody(p: Program, from: Ref, to: Ref)
    ensures Punched(Merged(p, from, to).punches) == Punched(p.punches) && Merged(p, from, to).minted == p.minted
  {
    if from != to { TotalMerged(p.punches, from, to, from); }
  }

  /** The price of what a request has done: each punch recorded and each voucher minted. */
  function Price(p: Program, d: Program): int {
    200 * (Punched(d.punches) - Punched(p.punches)) + 2_000 * (|d.minted| - |p.minted|)
  }

  /** A request never costs more than what it has done, nor than it has reserved; and it costs less if
      and only if the chain minted vouchers and the answer was lost. */
  lemma ChargedForWhatHappened(p: Program, r: Request, codes: nat -> string, luck: Luck)
    requires p.threshold > 0 && CountOf(r) > 0
    ensures var d := Handle(p, r, codes, luck);
            && (d.used == Price(p, d.program) <==> !(LosesVouchers(p, r, luck) && !luck.reported))
            && 0 <= d.used <= Price(p, d.program) && d.used <= Reserved(p, r)
            && Meter.Cost(Meter.Hold(true, "punch", Reserved(p, r), true), Meter.CommitUsed(d.used, true)) == d.used
  {
    var m := Merged(p, r.legacy, r.customer);
    HandleIs(p, r, codes, luck);
    MergePunchesNobody(p, r.legacy, r.customer);
    FinishCharges(m, r, CountOf(r), Codes(codes, NewRewards(m, r)), luck);
  }

  // ── each answer, by the state before ───────────────────────────────

  /** Merging takes effect for two different references: then what the old one has is the new one's,
      in punches and in rewards; events are renamed unless they are signed; nothing else changes. */
  lemma MergedIs(p: Program, from: Ref, to: Ref, who: Ref)
    ensures var m := Merged(p, from, to);
            var merges := from != "" && to != "" && from != to;
            && Total(m.punches, who) == (if !merges then Total(p.punches, who) else if who == from then 0
                                         else Total(p.punches, who) + if who == to then Total(p.punches, from) else 0)
            && RewardsOf(m.rewards, who) == (if !merges then RewardsOf(p.rewards, who) else if who == from then 0
                                             else RewardsOf(p.rewards, who) + if who == to then RewardsOf(p.rewards, from) else 0)
            && m == p.(punches := m.punches, rewards := m.rewards, events := m.events) && |m.events| == |p.events|
            && forall i :: 0 <= i < |p.events| ==>
                 m.events[i] == if merges && !p.events[i].signed && p.events[i].customer == from then p.events[i].(customer := to)
                                else p.events[i]
  {
    if from != "" && to != "" && from != to {
      TotalMerged(p.punches, from, to, who);
      RewardsMerged(p.rewards, from, to, who);
    }
  }

  /** What the customer has had so far with this request's punches, over the threshold, less the
      vouchers already given. */
  ghost function Owed(m: Program, r: Request): int
    requires m.threshold > 0
  {
    var owed := (Total(m.punches, r.customer) + CountOf(r)) / m.threshold - RewardsOf(m.rewards, r.customer);
    if owed < 0 then 0 else owed
  }

  /** The request is one that can be recorded. */
  ghost predicate Fits(p: Program, r: Request, luck: Luck)
    requires p.threshold > 0
  {
    var m := Merged(p, r.legacy, r.customer);
    && 1 <= CountOf(r) <= 1_000 && luck.migrates && (r.event == "" || r.event !in p.seen)
    && Total(m.punches, r.customer) + CountOf(r) <= 0x7FFF_FFFF_FFFF_FFFF && Owed(m, r) <= 100
  }

  /** A punch is accepted exactly if it fits, can be paid for, its vouchers, if it earns any, are issued
      and come back, and the rows are written. The others say why not. */
  lemma AcceptedIff(p: Program, r: Request, codes: nat -> string, luck: Luck)
    requires p.threshold > 0
    ensures var m := Merged(p, r.legacy, r.customer);
            var reply := Handle(p, r, codes, luck).reply;
            var fits := Fits(p, r, luck) && luck.credits;
            var issued := Owed(m, r) == 0 || (luck.sent && luck.accepted && luck.reported);
            && (reply.Accepted? <==> fits && issued && (Owed(m, r) == 0 || luck.decoded) && luck.persists)
            && (reply == Refused(BadCount) <==> CountOf(r) <= 0)
            && (reply == Refused(CountTooLarge) <==> CountOf(r) > 1_000)
            && (reply == Refused(NoCredits) <==> Fits(p, r, luck) && !luck.credits)
            && (reply == Refused(IssueFailed) <==> fits && !issued)
            && (reply == Refused(IdsNotDecoded) <==> fits && issued && Owed(m, r) > 0 && !luck.decoded)
            && (reply == Refused(NotPersisted) <==> fits && issued && (Owed(m, r) == 0 || luck.decoded) && !luck.persists)
  {
    MergedIs(p, r.legacy, r.customer, r.customer);
  }

  lemma RefusedBefore(p: Program, r: Request, codes: nat -> string, luck: Luck)
    requires p.threshold > 0 && 1 <= CountOf(r) <= 1_000
    ensures var m := Merged(p, r.legacy, r.customer);
            var reply := Handle(p, r, codes, luck).reply;
            var known := r.event != "" && r.event in p.seen;
            var full := Total(m.punches, r.customer) + CountOf(r) > 0x7FFF_FFFF_FFFF_FFFF;
            && (reply == Refused(MigrationFailed) <==> !luck.migrates)
            && (reply == Refused(AlreadyRecorded) <==> luck.migrates && known)
            && (reply == Refused(TotalTooLarge) <==> luck.migrates && !known && full)
            && (reply == Refused(TooManyRewards) <==> luck.migrates && !known && !full && Owed(m, r) > 100)
  {
    MergedIs(p, r.legacy, r.customer, r.customer);
  }

  /** What an accepted punch puts on record, and answers: the customer's punches so far, and the
      vouchers that they have earned and did not have yet. */
  lemma AcceptedRecords(p: Program, r: Request, codes: nat -> string, luck: Luck)
    requires p.threshold > 0 && Handle(p, r, codes, luck).reply.Accepted?
    ensures CountOf(r) > 0
    ensures var m := Merged(p, r.legacy, r.customer);
            var d := Handle(p, r, codes, luck);
            var count: nat := CountOf(r);
            && d.reply.punches == Total(m.punches, r.customer) + count
            && |d.reply.rewards| == Owed(m, r) && (forall i :: 0 <= i < |d.reply.rewards| ==> d.reply.rewards[i] == codes(i))
            && d.program.punches == m.punches + [Punch(r.customer, count)]
            && d.program.events == m.events + [LoyaltyEvent(r.customer, count, true)]
            && |d.program.rewards| == |m.rewards| + Owed(m, r) && m.rewards <= d.program.rewards
            && (forall i :: 0 <= i < Owed(m, r) ==> d.program.rewards[|m.rewards| + i] == Reward(r.customer, codes(i)))
            && d.program.seen == (if r.event == "" then p.seen else p.seen + {r.event})
            && d.program.minted == m.minted + d.reply.rewards
  {
    HandleIs(p, r, codes, luck);
    MergedIs(p, r.legacy, r.customer, r.customer);
    var m := Merged(p, r.legacy, r.customer);
    assert m.minted + [] == m.minted;
  }

  // ── the program's rows, in place ───────────────────────────────────

  class Books {
    const threshold: nat
    var punches: seq<Punch>
    var rewards: seq<Reward>
    var events: seq<LoyaltyEvent>
    var seen: set<Ref>
    var minted: seq<string>

    ghost function Now(): Program
      reads this
    {
      Program(threshold, punches, rewards, events, seen, minted)
    }

    constructor (threshold: nat)
      ensures Now() == Program(threshold, [], [], [], {}, [])
    {
      this.threshold := threshold;
      punches, rewards, events, seen, minted := [], [], [], {}, [];
    }

    /** migrateLegacyLoyaltyCustomer: three updates in one transaction. */
    method Migrate(from: Ref, to: Ref, works: bool)
      modifies this
      ensures Now() == if works then Merged(old(Now()), from, to) else old(Now())
    {
      if from == "" || to == "" || from == to || !works { return; }
      punches := RenamePunches(punches, from, to);
      rewards := RenameRewards(rewards, from, to);
      events := RenameEvents(events, from, to);
    }

    /** SELECT SUM(count) and SELECT COUNT(*). */
    method Balance(who: Ref) returns (total: nat, owned: nat)
      ensures total == Total(punches, who) && owned == RewardsOf(rewards, who)
    {
      total, owned := 0, 0;
      for i := 0 to |punches|
        invariant total == Total(punches[..i], who)
      {
        assert punches[..i + 1][..i] == punches[..i];
        if punches[i].customer == who { total := total + punches[i].count; }
      }
      for i := 0 to |rewards|
        invariant owned == RewardsOf(rewards[..i], who)
      {
        assert rewards[..i + 1][..i] == rewards[..i];
        if rewards[i].customer == who { owned := owned + 1; }
      }
      assert punches[..|punches|] == punches && rewards[..|rewards|] == rewards;
    }

    /** handlePunch, under the program's lock. */
    method HandlePunch(r: Request, codes: nat -> string, luck: Luck) returns (reply: Reply, used: int)
      requires threshold > 0
      modifies this
      ensures Done(Now(), reply, used) == Handle(old(Now()), r, codes, luck)
    {
      var count := CountOf(r);
      if count <= 0 { return Refused(BadCount), 0; }
      if count > MAX_COUNT { return Refused(CountTooLarge), 0; }
      Migrate(r.legacy, r.customer, luck.migrates);
      if !luck.migrates { return Refused(MigrationFailed), 0; }
      if r.event != "" && r.event in seen { return Refused(AlreadyRecorded), 0; }
      var before, owned := Balance(r.customer);
      if before > I64_MAX - count { return Refused(TotalTooLarge), 0; }
      var after := before + count;
      var due := after / threshold - owned;
      if due < 0 { due := 0; }
      if due > MAX_BATCH { return Refused(TooManyRewards), 0; }
      if !luck.credits { return Refused(NoCredits), 0; }
      reply, used := IssueAndRecord(r, count, Codes(codes, due), luck);
    }

    method IssueAndRecord(r: Request, count: nat, codes: seq<string>, luck: Luck) returns (reply: Reply, used: int)
      modifies this
      ensures Done(Now(), reply, used) == Finish(old(Now()), r, count, codes, luck)
    {
      used := 0;
      var before, _ := Balance(r.customer);
      if codes != [] {
        if luck.sent && luck.accepted { minted := minted + codes; }
        if !(luck.sent && luck.accepted && luck.reported) { return Refused(IssueFailed), used; }
        used := |codes| * Meter.MCR_PER_CODE;
        if !luck.decoded { return Refused(IdsNotDecoded), used; }
      }
      if !luck.persists { return Refused(NotPersisted), used; }
      if r.event != "" { seen := seen + {r.event}; }
      punches := punches + [Punch(r.customer, count)];
      events := events + [LoyaltyEvent(r.customer, count, true)];
      ghost var earlier := rewards;
      for i := 0 to |codes|
        invariant rewards == earlier + Vouchers(r.customer, codes)[..i]
        invariant minted == if codes != [] then old(minted) + codes else old(minted)
        invariant seen == if r.event == "" then old(seen) else old(seen) + {r.event}
        invariant punches == old(punches) + [Punch(r.customer, count)]
        invariant events == old(events) + [LoyaltyEvent(r.customer, count, true)]
      {
        rewards := rewards + [Reward(r.customer, codes[i])];
      }
      used := count * MCR_PUNCH + |codes| * Meter.MCR_PER_CODE;
      reply := Accepted(before + count, codes);
    }
  }
}
