/** Redemptions counted over whole call trees, those that a payout token makes while it is called
    back included: a code is redeemed at most once in any run. */
module LedgerRedemptions {
  import opened Basics
  import opened LedgerTypes
  import opened LedgerSpec
  import opened LedgerExec
  import opened LedgerInvariant
  import opened LedgerHistory

  // ── the successful redemptions that survive ────────────────────────

  /** How many redemptions of `k` succeed in one call and everything inside it; what is rolled back
      does not count. */
  function Redeems(w: World, f: Frame, k: CodeKey): nat
    decreases f, 3
  {
    if f.call.Settle? then
      match PlanSettle(w.ledger, f.call.owner, f.call.campaign, f.call.code, f.call.period)
      case Err(_) => 0
      case Ok(plan) =>
        var marked := World(Mark(w.ledger, plan.key), w.transfers);
        if Pay(marked, plan, f.call.token).Err? then 0 else RedeemsInPay(marked, plan, f.call.token, k)
    else if f.call.RedeemUnique? && CodeKey(f.call.campaign, f.call.code) == k && Exec(w, f).reply.Ok? then 1
    else 0
  }

  function RedeemsInAll(w: World, fs: seq<Frame>, k: CodeKey): nat
    decreases fs, 0
  {
    if fs == [] then 0 else Redeems(w, fs[0], k) + RedeemsInAll(Exec(w, fs[0]).world, fs[1..], k)
  }

  function RedeemsInPay(w: World, plan: Plan, token: TokenBehaviour, k: CodeKey): nat
    decreases token, 2
  {
    var w1 := ExecAll(w, token.allowance.reentry);
    var w2 := ExecAll(w1, token.balance.reentry);
    RedeemsInAll(w, token.allowance.reentry, k) + RedeemsInAll(w1, token.balance.reentry, k)
    + RedeemsInEach(w2, plan, plan.payouts, token.transfers, k)
  }

  function RedeemsInEach(w: World, plan: Plan, ps: seq<Payout>, replies: seq<TokenReply>, k: CodeKey): nat
    decreases replies, |ps|, 1
  {
    if ps == [] then 0
    else if replies == [] then RedeemsInEach(Record(w, plan, ps[0]), plan, ps[1..], [], k)
    else
      var w1 := ExecAll(w, replies[0].reentry);
      RedeemsInAll(w, replies[0].reentry, k) + RedeemsInEach(Record(w1, plan, ps[0]), plan, ps[1..], replies[1..], k)
  }

  /** 1 if the code is on record as redeemed. */
  function Redeemed(s: State, k: CodeKey): nat {
    if k in s.codeIndex && s.codeIndex[k] in s.tokens && s.tokens[s.codeIndex[k]].isBurned then 1 else 0
  }

  // ── one call without calls inside ──────────────────────────────────

  lemma BurnRedeems(s: State, ctx: Ctx, who: Address, campaign: u64, code: string, ref: Bytes32, k: CodeKey)
    requires TokensOk(s)
    ensures var o := Burn(s, ctx, who, campaign, code, ref);
            Redeemed(o.state, k) == Redeemed(s, k) + (if CodeKey(campaign, code) == k && o.reply.Ok? then 1 else 0)
  {
  }

  lemma MintRedeemsNone(s: State, campaign: u64, code: string, now: u64, k: CodeKey)
    requires TokensOk(s) && CanMint(s, campaign, code)
    ensures Redeemed(MintOne(s, campaign, code, now), k) == Redeemed(s, k)
  {
  }

  lemma {:induction false} MintAllRedeemsNone(s: State, campaign: u64, codes: seq<string>, now: u64, k: CodeKey)
    requires Inv(s) && campaign in s.campaigns && s.campaigns[campaign].minted + |codes| <= s.campaigns[campaign].totalSupply
    requires MintAll(s, campaign, codes, now).Ok?
    ensures Redeemed(MintAll(s, campaign, codes, now).value, k) == Redeemed(s, k)
    decreases |codes|
  {
    if codes != [] {
      MintRedeemsNone(s, campaign, codes[0], now, k);
      MintKeeps(s, campaign, codes[0], now);
      MintAllRedeemsNone(MintOne(s, campaign, codes[0], now), campaign, codes[1..], now, k);
    }
  }

  lemma IssueRedeemsNone(s: State, ctx: Ctx, owner: Address, campaign: u64, codes: seq<string>, k: CodeKey)
    requires Inv(s)
    ensures Redeemed(Issue(s, ctx, owner, campaign, codes).state, k) == Redeemed(s, k)
  {
    if IssueGuard(s, ctx, owner, campaign, |codes|).None? && MintAll(s, campaign, codes, ctx.now).Ok? {
      MintAllRedeemsNone(s, campaign, codes, ctx.now, k);
    }
  }

  lemma OthersRedeemNone(s: State, ctx: Ctx, call: Call, k: CodeKey)
    requires !call.Settle? && !call.RedeemUnique? && !call.IssueUnique?
    ensures Redeemed(Apply(s, ctx, call).state, k) == Redeemed(s, k)
  {
  }

  lemma RedeemCallRedeems(s: State, ctx: Ctx, call: Call, k: CodeKey)
    requires Inv(s) && call.RedeemUnique?
    ensures var o := Apply(s, ctx, call);
            Redeemed(o.state, k) == Redeemed(s, k) + (if CodeKey(call.campaign, call.code) == k && o.reply.Ok? then 1 else 0)
  {
    BurnRedeems(s, ctx, call.authorizer, call.campaign, call.code, call.redeemerRef, k);
  }

  lemma CallIs(w: World, f: Frame, k: CodeKey)
    requires !f.call.Settle?
    ensures var o := Apply(w.ledger, f.ctx, f.call);
            && Exec(w, f).world.ledger == o.state
            && Redeems(w, f, k) == if f.call.RedeemUnique? && CodeKey(f.call.campaign, f.call.code) == k && o.reply.Ok? then 1 else 0
  {
  }

  lemma CallRedeems(w: World, f: Frame, k: CodeKey)
    requires Inv(w.ledger) && !f.call.Settle?
    ensures Redeemed(Exec(w, f).world.ledger, k) == Redeemed(w.ledger, k) + Redeems(w, f, k)
  {
    CallIs(w, f, k);
    if f.call.RedeemUnique? { RedeemCallRedeems(w.ledger, f.ctx, f.call, k); }
    else if f.call.IssueUnique? { IssueRedeemsNone(w.ledger, f.ctx, f.call.owner, f.call.campaign, f.call.codes, k); }
    else { OthersRedeemNone(w.ledger, f.ctx, f.call, k); }
  }

  // ── whole call trees ───────────────────────────────────────────────

  /** In the states of P, calls without calls inside change the record by their own redemption. */
  ghost predicate Counts(P: State -> bool, k: CodeKey) {
    && ClosedUnderWrites(P)
    && forall w: World, f: Frame {:trigger Redeems(w, f, k)} :: P(w.ledger) && !f.call.Settle? ==>
         Redeemed(Exec(w, f).world.ledger, k) == Redeemed(w.ledger, k) + Redeems(w, f, k)
  }

  lemma InvCounts(k: CodeKey)
    ensures Counts(s => Inv(s), k)
  {
    InvClosed();
    forall w: World, f: Frame {:trigger Redeems(w, f, k)} | Inv(w.ledger) && !f.call.Settle?
      ensures Redeemed(Exec(w, f).world.ledger, k) == Redeemed(w.ledger, k) + Redeems(w, f, k)
    {
      CallRedeems(w, f, k);
    }
  }

  /** The record of a code changes by exactly the redemptions that survive. */
  lemma {:induction false} ExecRedeems(P: State -> bool, w: World, f: Frame, k: CodeKey)
    requires Counts(P, k) && P(w.ledger)
    ensures Redeemed(Exec(w, f).world.ledger, k) == Redeemed(w.ledger, k) + Redeems(w, f, k)
    decreases f, 3
  {
    if f.call.Settle? {
      var p := PlanSettle(w.ledger, f.call.owner, f.call.campaign, f.call.code, f.call.period);
      if p.Ok? { PayRedeems(P, World(Mark(w.ledger, p.value.key), w.transfers), p.value, f.call.token, k); }
    }
  }

  lemma {:induction false} AllRedeem(P: State -> bool, w: World, fs: seq<Frame>, k: CodeKey)
    requires Counts(P, k) && P(w.ledger)
    ensures Redeemed(ExecAll(w, fs).ledger, k) == Redeemed(w.ledger, k) + RedeemsInAll(w, fs, k)
    ensures P(ExecAll(w, fs).ledger)
    decreases fs, 0
  {
    if fs != [] {
      ExecRedeems(P, w, fs[0], k);
      ExecKeeps(P, w, fs[0]);
      AllRedeem(P, Exec(w, fs[0]).world, fs[1..], k);
    }
  }

  lemma {:induction false} PayRedeems(P: State -> bool, w: World, plan: Plan, token: TokenBehaviour, k: CodeKey)
    requires Counts(P, k) && P(w.ledger)
    ensures Pay(w, plan, token).Ok? ==>
              Redeemed(Pay(w, plan, token).value.ledger, k) == Redeemed(w.ledger, k) + RedeemsInPay(w, plan, token, k)
    decreases token, 2
  {
    var w1 := ExecAll(w, token.allowance.reentry);
    AllRedeem(P, w, token.allowance.reentry, k);
    AllRedeem(P, w1, token.balance.reentry, k);
    EachRedeems(P, ExecAll(w1, token.balance.reentry), plan, plan.payouts, token.transfers, k);
  }

  lemma {:induction false} EachRedeems(P: State -> bool, w: World, plan: Plan, ps: seq<Payout>, replies: seq<TokenReply>, k: CodeKey)
    requires Counts(P, k) && P(w.ledger)
    ensures PayEach(w, plan, ps, replies).Ok? ==>
              Redeemed(PayEach(w, plan, ps, replies).value.ledger, k) == Redeemed(w.ledger, k) + RedeemsInEach(w, plan, ps, replies, k)
    decreases replies, |ps|, 1
  {
    if ps != [] {
      if replies == [] {
        EachRedeems(P, Record(w, plan, ps[0]), plan, ps[1..], [], k);
      } else {
        AllRedeem(P, w, replies[0].reentry, k);
        EachRedeems(P, Record(ExecAll(w, replies[0].reentry), plan, ps[0]), plan, ps[1..], replies[1..], k);
      }
    }
  }

  /** In every run, calls made by payout tokens included, a code is redeemed at most once, and
      exactly once if it is on record as redeemed. */
  lemma RedeemedAtMostOnce(run: seq<Frame>, k: CodeKey)
    ensures RedeemsInAll(EmptyWorld, run, k) == Redeemed(ExecAll(EmptyWorld, run).ledger, k) <= 1
  {
    ReachableInv([]);
    assert ExecAll(EmptyWorld, []) == EmptyWorld;
    InvCounts(k);
    AllRedeem(s => Inv(s), EmptyWorld, run, k);
  }

  /** Whoever redeemed it, in whatever call: the commitment and the time on record never change. */
  lemma RecordIsFinal(w: World, run: seq<Frame>, k: CodeKey, ref: Bytes32, when: u64)
    requires Reachable(w) && RedeemedAs(w.ledger, k, ref, when)
    ensures RedeemedAs(ExecAll(w, run).ledger, k, ref, when) && RedeemsInAll(w, run, k) == 0
  {
    ReachableIsFresh(w);
    ReachableIsGood(w);
    HistoryOnlyGrows(w, run);
    RecordStays(w.ledger, ExecAll(w, run).ledger, k, ref, when);
    InvCounts(k);
    AllRedeem(s => Inv(s), w, run, k);
  }
}
