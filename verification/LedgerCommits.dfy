/** Commits counted over whole call trees, those that a payout token makes while it is called back
    included: a period of a code is committed at most once in any run. */
module LedgerCommits {
  import opened Basics
  import opened LedgerTypes
  import opened LedgerSpec
  import opened LedgerExec
  import opened LedgerInvariant

  // ── the successful commits that survive ────────────────────────────

  predicate IsCommitOf(call: Call, k: PeriodKey) {
    call.CommitTally? && PeriodKey(CodeKey(call.campaign, call.code), call.period) == k
  }

  /** How many commits of `k` succeed in one call and everything inside it; what is rolled back does
      not count. */
  function Commits(w: World, f: Frame, k: PeriodKey): nat
    decreases f, 3
  {
    if f.call.Settle? then
      match PlanSettle(w.ledger, f.call.owner, f.call.campaign, f.call.code, f.call.period)
      case Err(_) => 0
      case Ok(plan) =>
        var marked := World(Mark(w.ledger, plan.key), w.transfers);
        if Pay(marked, plan, f.call.token).Err? then 0 else CommitsInPay(marked, plan, f.call.token, k)
    else if IsCommitOf(f.call, k) && Exec(w, f).reply.Ok? then 1
    else 0
  }

  function CommitsInAll(w: World, fs: seq<Frame>, k: PeriodKey): nat
    decreases fs, 0
  {
    if fs == [] then 0 else Commits(w, fs[0], k) + CommitsInAll(Exec(w, fs[0]).world, fs[1..], k)
  }

  function CommitsInPay(w: World, plan: Plan, token: TokenBehaviour, k: PeriodKey): nat
    decreases token, 2
  {
    var w1 := ExecAll(w, token.allowance.reentry);
    var w2 := ExecAll(w1, token.balance.reentry);
    CommitsInAll(w, token.allowance.reentry, k) + CommitsInAll(w1, token.balance.reentry, k)
    + CommitsInEach(w2, plan, plan.payouts, token.transfers, k)
  }

  function CommitsInEach(w: World, plan: Plan, ps: seq<Payout>, replies: seq<TokenReply>, k: PeriodKey): nat
    decreases replies, |ps|, 1
  {
    if ps == [] then 0
    else if replies == [] then CommitsInEach(Record(w, plan, ps[0]), plan, ps[1..], [], k)
    else
      var w1 := ExecAll(w, replies[0].reentry);
      CommitsInAll(w, replies[0].reentry, k) + CommitsInEach(Record(w1, plan, ps[0]), plan, ps[1..], replies[1..], k)
  }

  /** 1 if the period has a tally. */
  function Has(s: State, k: PeriodKey): nat { if k in s.tallies then 1 else 0 }

  // ── one call without calls inside ──────────────────────────────────

  lemma {:induction false} MintAllKeepsTallies(s: State, campaign: u64, codes: seq<string>, now: u64)
    requires campaign in s.campaigns && s.campaigns[campaign].minted + |codes| <= U32_MAX
    ensures MintAll(s, campaign, codes, now).Ok? ==> MintAll(s, campaign, codes, now).value.tallies == s.tallies
    decreases |codes|
  {
    if codes != [] && MintError(s, campaign, codes[0]).None? {
      MintAllKeepsTallies(MintOne(s, campaign, codes[0], now), campaign, codes[1..], now);
    }
  }

  lemma IssueCommitsNone(s: State, ctx: Ctx, call: Call)
    requires call.IssueUnique?
    ensures Apply(s, ctx, call).state.tallies == s.tallies
  {
    if IssueGuard(s, ctx, call.owner, call.campaign, |call.codes|).None? {
      MintAllKeepsTallies(s, call.campaign, call.codes, ctx.now);
    }
  }

  lemma OthersCommitNone(s: State, ctx: Ctx, call: Call)
    requires !call.Settle? && !call.CommitTally? && !call.IssueUnique?
    ensures Apply(s, ctx, call).state.tallies == s.tallies
  {
  }

  lemma CommitCounts(s: State, ctx: Ctx, call: Call, k: PeriodKey)
    requires call.CommitTally?
    ensures var o := Apply(s, ctx, call); Has(o.state, k) == Has(s, k) + (if IsCommitOf(call, k) && o.reply.Ok? then 1 else 0)
  {
  }

  lemma CallCommits(w: World, f: Frame, k: PeriodKey)
    requires !f.call.Settle?
    ensures Has(Exec(w, f).world.ledger, k) == Has(w.ledger, k) + Commits(w, f, k)
  {
    if f.call.CommitTally? { CommitCounts(w.ledger, f.ctx, f.call, k); }
    else if f.call.IssueUnique? { IssueCommitsNone(w.ledger, f.ctx, f.call); }
    else { OthersCommitNone(w.ledger, f.ctx, f.call); }
  }

  // ── whole call trees ───────────────────────────────────────────────

  /** The tallies grow by exactly the commits that survive, from any state whatever. */
  lemma {:induction false} ExecCommits(w: World, f: Frame, k: PeriodKey)
    ensures Has(Exec(w, f).world.ledger, k) == Has(w.ledger, k) + Commits(w, f, k)
    decreases f, 3
  {
    if f.call.Settle? {
      var p := PlanSettle(w.ledger, f.call.owner, f.call.campaign, f.call.code, f.call.period);
      if p.Ok? { PayCommits(World(Mark(w.ledger, p.value.key), w.transfers), p.value, f.call.token, k); }
    } else {
      CallCommits(w, f, k);
    }
  }

  lemma {:induction false} AllCommit(w: World, fs: seq<Frame>, k: PeriodKey)
    ensures Has(ExecAll(w, fs).ledger, k) == Has(w.ledger, k) + CommitsInAll(w, fs, k)
    decreases fs, 0
  {
    if fs != [] {
      ExecCommits(w, fs[0], k);
      AllCommit(Exec(w, fs[0]).world, fs[1..], k);
    }
  }

  lemma {:induction false} PayCommits(w: World, plan: Plan, token: TokenBehaviour, k: PeriodKey)
    ensures Pay(w, plan, token).Ok? ==> Has(Pay(w, plan, token).value.ledger, k) == Has(w.ledger, k) + CommitsInPay(w, plan, token, k)
    decreases token, 2
  {
    var w1 := ExecAll(w, token.allowance.reentry);
    AllCommit(w, token.allowance.reentry, k);
    AllCommit(w1, token.balance.reentry, k);
    EachCommits(ExecAll(w1, token.balance.reentry), plan, plan.payouts, token.transfers, k);
  }

  lemma {:induction false} EachCommits(w: World, plan: Plan, ps: seq<Payout>, replies: seq<TokenReply>, k: PeriodKey)
    ensures PayEach(w, plan, ps, replies).Ok? ==>
              Has(PayEach(w, plan, ps, replies).value.ledger, k) == Has(w.ledger, k) + CommitsInEach(w, plan, ps, replies, k)
    decreases replies, |ps|, 1
  {
    if ps != [] {
      if replies == [] {
        EachCommits(Record(w, plan, ps[0]), plan, ps[1..], [], k);
      } else {
        AllCommit(w, replies[0].reentry, k);
        EachCommits(Record(ExecAll(w, replies[0].reentry), plan, ps[0]), plan, ps[1..], replies[1..], k);
      }
    }
  }

  /** In every run, calls made by payout tokens included, a period of a code is committed at most
      once, and exactly once if the chain has a tally for it. */
  lemma CommittedAtMostOnce(run: seq<Frame>, k: PeriodKey)
    ensures CommitsInAll(EmptyWorld, run, k) == Has(ExecAll(EmptyWorld, run).ledger, k) <= 1
  {
    AllCommit(EmptyWorld, run, k);
  }

  // ── where commits come from ────────────────────────────────────────

  /** Neither the call nor any call that tokens make inside it is a commit of `k`. */
  predicate CommitFree(f: Frame, k: PeriodKey)
    decreases f, 2
  {
    if f.call.Settle? then TokenFree(f.call.token, k) else !IsCommitOf(f.call, k)
  }

  predicate AllFree(fs: seq<Frame>, k: PeriodKey)
    decreases fs, 0
  {
    fs != [] ==> CommitFree(fs[0], k) && AllFree(fs[1..], k)
  }

  predicate TokenFree(token: TokenBehaviour, k: PeriodKey)
    decreases token, 1
  {
    AllFree(token.allowance.reentry, k) && AllFree(token.balance.reentry, k) && RepliesFree(token.transfers, k)
  }

  predicate RepliesFree(replies: seq<TokenReply>, k: PeriodKey)
    decreases replies, 0
  {
    replies != [] ==> AllFree(replies[0].reentry, k) && RepliesFree(replies[1..], k)
  }

  /** Without a commit of the period somewhere in its tree, a call commits nothing; in particular a
      settlement whose token does not call back. */
  lemma {:induction false} FreeCommitsNothing(w: World, f: Frame, k: PeriodKey)
    requires CommitFree(f, k)
    ensures Commits(w, f, k) == 0
    decreases f, 3
  {
    if f.call.Settle? {
      var p := PlanSettle(w.ledger, f.call.owner, f.call.campaign, f.call.code, f.call.period);
      if p.Ok? { TokenCommitsNothing(World(Mark(w.ledger, p.value.key), w.transfers), p.value, f.call.token, k); }
    }
  }

  lemma {:induction false} AllCommitNothing(w: World, fs: seq<Frame>, k: PeriodKey)
    requires AllFree(fs, k)
    ensures CommitsInAll(w, fs, k) == 0
    decreases fs, 0
  {
    if fs != [] {
      FreeCommitsNothing(w, fs[0], k);
      AllCommitNothing(Exec(w, fs[0]).world, fs[1..], k);
    }
  }

  lemma {:induction false} TokenCommitsNothing(w: World, plan: Plan, token: TokenBehaviour, k: PeriodKey)
    requires TokenFree(token, k)
    ensures CommitsInPay(w, plan, token, k) == 0
    decreases token, 2
  {
    var w1 := ExecAll(w, token.allowance.reentry);
    AllCommitNothing(w, token.allowance.reentry, k);
    AllCommitNothing(w1, token.balance.reentry, k);
    EachCommitsNothing(ExecAll(w1, token.balance.reentry), plan, plan.payouts, token.transfers, k);
  }

  lemma {:induction false} EachCommitsNothing(w: World, plan: Plan, ps: seq<Payout>, replies: seq<TokenReply>, k: PeriodKey)
    requires RepliesFree(replies, k)
    ensures CommitsInEach(w, plan, ps, replies, k) == 0
    decreases replies, |ps|, 1
  {
    if ps != [] {
      if replies == [] {
        EachCommitsNothing(Record(w, plan, ps[0]), plan, ps[1..], [], k);
      } else {
        AllCommitNothing(w, replies[0].reentry, k);
        EachCommitsNothing(Record(ExecAll(w, replies[0].reentry), plan, ps[0]), plan, ps[1..], replies[1..], k);
      }
    }
  }
}
