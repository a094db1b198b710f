/** Execution of a call tree. The payout token is arbitrary code: while it answers `settle` it may
    call any entry point again, to any depth. A failing frame is rolled back by itself. */
module LedgerExec {
  import opened Basics
  import opened LedgerTypes
  import opened LedgerSpec

  datatype Done = Done(world: World, reply: Reply)

  /** One contract call, with everything that happens inside it. */
  function Exec(w: World, f: Frame): Done
    decreases f, 3
  {
    if f.call.Settle? then
      match PlanSettle(w.ledger, f.call.owner, f.call.campaign, f.call.code, f.call.period)
      case Err(e) => Done(w, Err(e))
      case Ok(plan) =>
        // the guard is written before the token hears anything
        match Pay(World(Mark(w.ledger, plan.key), w.transfers), plan, f.call.token)
        case Err(e) => Done(w, Err(e))
        case Ok(w') => Done(w', Ok(Paid(plan.payouts)))
    else
      var o := Apply(w.ledger, f.ctx, f.call);
      Done(World(o.state, w.transfers), o.reply)
  }

  /** Frames one after the other; the caller goes on whether they succeed or not. */
  function ExecAll(w: World, fs: seq<Frame>): World
    decreases fs, 0
  {
    if fs == [] then w else ExecAll(Exec(w, fs[0]).world, fs[1..])
  }

  /** The part of `settle` that talks to the token: allowance, balance, then each transfer. */
  function Pay(w: World, plan: Plan, token: TokenBehaviour): Result<World, Error>
    decreases token, 2
  {
    var w1 := ExecAll(w, token.allowance.reentry);
    if token.allowance.answer.None? then Err(TokenTrap)
    else if token.allowance.answer.value < plan.total then Err(InvalidSettlement)
    else
      var w2 := ExecAll(w1, token.balance.reentry);
      if token.balance.answer.None? then Err(TokenTrap)
      else if token.balance.answer.value < plan.total then Err(InvalidSettlement)
      else PayEach(w2, plan, plan.payouts, token.transfers)
  }

  /** Each transfer in turn. A token that gave no answer for one of them accepts it silently. */
  function PayEach(w: World, plan: Plan, payouts: seq<Payout>, replies: seq<TokenReply>): Result<World, Error>
    decreases replies, |payouts|, 1
  {
    if payouts == [] then Ok(w)
    else if replies == [] then PayEach(Record(w, plan, payouts[0]), plan, payouts[1..], [])
    else
      var w1 := ExecAll(w, replies[0].reentry);
      if replies[0].answer.None? then Err(TokenTrap)
      else PayEach(Record(w1, plan, payouts[0]), plan, payouts[1..], replies[1..])
  }

  function Record(w: World, plan: Plan, p: Payout): World {
    w.(transfers := w.transfers + [Transfer(plan.key, plan.token, plan.owner, p)])
  }

  // ── induction over call trees ──────────────────────────────────────

  // The writes that entry points perform, and when they perform them.

  predicate CanAdd(s: State, c: Campaign) {
    && s.campCtr < U64_MAX && Get(s.ownerCount, c.owner, 0) < U64_MAX
    && c.id == s.campCtr + 1 && c.minted == 0 && c.burned == 0
  }

  predicate CanMint(s: State, campaign: u64, code: string) {
    && campaign in s.campaigns && s.campaigns[campaign].minted < s.campaigns[campaign].totalSupply
    && MintError(s, campaign, code).None?
  }

  predicate CanBurn(s: State, id: u64) {
    && id in s.tokens && !s.tokens[id].isBurned
    && s.tokens[id].campaignId in s.campaigns && s.campaigns[s.tokens[id].campaignId].burned < U32_MAX
  }

  predicate CanRegister(s: State, k: CodeKey, sc: SharedCode) {
    k !in s.shared && k.campaign in s.campaigns && CodeError(k.code).None? && GoodTerms(sc.attributedTo, sc.payoutToken, sc.payoutRate)
  }

  predicate CanCommit(s: State, k: PeriodKey, t: Tally) {
    && k !in s.tallies && k.code in s.shared && t.period == k.period
    && AttributionError(s.shared[k.code].attributedTo, t.perAttribution, t.count).None?
  }

  predicate CanMark(s: State, k: PeriodKey) {
    k in s.tallies && k.code in s.shared && s.shared[k.code].payoutToken.Some? && k !in s.settled
  }

  /** P survives each single storage write of the entry points other than `settle`. */
  ghost predicate ClosedUnderCalls(P: State -> bool) {
    && (forall s, c {:trigger AddCampaign(s, c)} :: P(s) && CanAdd(s, c) ==> P(AddCampaign(s, c)))
    && (forall s, d {:trigger WriteDelegates(s, d)} :: P(s) ==> P(WriteDelegates(s, d)))
    && (forall s, campaign, code, now {:trigger MintOne(s, campaign, code, now)} ::
          P(s) && CanMint(s, campaign, code) ==> P(MintOne(s, campaign, code, now)))
    && (forall s, id, ref, now {:trigger BurnToken(s, id, ref, now)} ::
          P(s) && CanBurn(s, id) ==> P(BurnToken(s, id, ref, now)))
    && (forall s, k, sc {:trigger WriteShared(s, k, sc)} :: P(s) && CanRegister(s, k, sc) ==> P(WriteShared(s, k, sc)))
    && (forall s, k, t {:trigger WriteTally(s, k, t)} :: P(s) && CanCommit(s, k, t) ==> P(WriteTally(s, k, t)))
  }

  /** ... and the guard that `settle` writes. */
  ghost predicate ClosedUnderWrites(P: State -> bool) {
    && ClosedUnderCalls(P)
    && (forall s, k {:trigger Mark(s, k)} :: P(s) && CanMark(s, k) ==> P(Mark(s, k)))
  }

  lemma {:induction false} MintAllKeeps(P: State -> bool, s: State, campaign: u64, codes: seq<string>, now: u64)
    requires ClosedUnderCalls(P) && P(s) && campaign in s.campaigns
    requires s.campaigns[campaign].minted + |codes| <= s.campaigns[campaign].totalSupply
    requires MintAll(s, campaign, codes, now).Ok?
    ensures P(MintAll(s, campaign, codes, now).value)
    decreases |codes|
  {
    if codes != [] {
      assert P(MintOne(s, campaign, codes[0], now));
      MintAllKeeps(P, MintOne(s, campaign, codes[0], now), campaign, codes[1..], now);
    }
  }

  /** What every storage write keeps, every entry point keeps. */
  lemma {:induction false} ApplyKeeps(P: State -> bool, s: State, ctx: Ctx, call: Call)
    requires ClosedUnderCalls(P) && P(s) && !call.Settle?
    ensures P(Apply(s, ctx, call).state)
  {
    if call.IssueUnique? && Apply(s, ctx, call).reply.Ok? {
      MintAllKeeps(P, s, call.campaign, call.codes, ctx.now);
    }
  }

  /** What every single storage step keeps, every call tree keeps. */
  lemma {:induction false} ExecKeeps(P: State -> bool, w: World, f: Frame)
    requires ClosedUnderWrites(P) && P(w.ledger)
    ensures P(Exec(w, f).world.ledger)
    decreases f, 3
  {
    if f.call.Settle? {
      var plan := PlanSettle(w.ledger, f.call.owner, f.call.campaign, f.call.code, f.call.period);
      if plan.Ok? {
        PayKeeps(P, World(Mark(w.ledger, plan.value.key), w.transfers), plan.value, f.call.token);
      }
    } else {
      ApplyKeeps(P, w.ledger, f.ctx, f.call);
    }
  }

  lemma {:induction false} ExecAllKeeps(P: State -> bool, w: World, fs: seq<Frame>)
    requires ClosedUnderWrites(P) && P(w.ledger)
    ensures P(ExecAll(w, fs).ledger)
    decreases fs, 0
  {
    if fs != [] {
      ExecKeeps(P, w, fs[0]);
      ExecAllKeeps(P, Exec(w, fs[0]).world, fs[1..]);
    }
  }

  lemma {:induction false} PayKeeps(P: State -> bool, w: World, plan: Plan, token: TokenBehaviour)
    requires ClosedUnderWrites(P) && P(w.ledger)
    ensures Pay(w, plan, token).Ok? ==> P(Pay(w, plan, token).value.ledger)
    decreases token, 2
  {
    if Pay(w, plan, token).Ok? {
      ExecAllKeeps(P, w, token.allowance.reentry);
      var w1 := ExecAll(w, token.allowance.reentry);
      ExecAllKeeps(P, w1, token.balance.reentry);
      PayEachKeeps(P, ExecAll(w1, token.balance.reentry), plan, plan.payouts, token.transfers);
    }
  }

  lemma {:induction false} PayEachKeeps(P: State -> bool, w: World, plan: Plan, ps: seq<Payout>, replies: seq<TokenReply>)
    requires ClosedUnderWrites(P) && P(w.ledger)
    ensures PayEach(w, plan, ps, replies).Ok? ==> P(PayEach(w, plan, ps, replies).value.ledger)
    decreases replies, |ps|, 1
  {
    if ps != [] && PayEach(w, plan, ps, replies).Ok? {
      if replies == [] {
        PayEachKeeps(P, Record(w, plan, ps[0]), plan, ps[1..], []);
      } else {
        ExecAllKeeps(P, w, replies[0].reentry);
        PayEachKeeps(P, Record(ExecAll(w, replies[0].reentry), plan, ps[0]), plan, ps[1..], replies[1..]);
      }
    }
  }
}
