/** Call trees laid out flat: what survives of a run, calls made by payout tokens included, is one
    sequence of plain writes. Read off it: who may redeem for a campaign. */
module LedgerLeaves {
  import opened Basics
  import opened LedgerTypes
  import opened LedgerSpec
  import opened LedgerExec
  import opened LedgerInvariant
  import opened LedgerHistory

  /** A call that talks to nobody, or the guard that a settlement writes. */
  datatype Leaf = Called(frame: Frame) | Marked(key: PeriodKey)

  function After(s: State, leaf: Leaf): State {
    match leaf
    case Called(f) => if f.call.Settle? then s else Apply(s, f.ctx, f.call).state
    case Marked(key) => Mark(s, key)
  }

  function Replay(s: State, leaves: seq<Leaf>): State
    decreases |leaves|
  {
    if leaves == [] then s else Replay(After(s, leaves[0]), leaves[1..])
  }

  /** What survives of one call, in the order in which it happened. */
  function Leaves(w: World, f: Frame): seq<Leaf>
    decreases f, 3
  {
    if f.call.Settle? then
      match PlanSettle(w.ledger, f.call.owner, f.call.campaign, f.call.code, f.call.period)
      case Err(_) => []
      case Ok(plan) =>
        var marked := World(Mark(w.ledger, plan.key), w.transfers);
        if Pay(marked, plan, f.call.token).Err? then [] else [Marked(plan.key)] + LeavesInPay(marked, plan, f.call.token)
    else [Called(f)]
  }

  function LeavesInAll(w: World, fs: seq<Frame>): seq<Leaf>
    decreases fs, 0
  {
    if fs == [] then [] else Leaves(w, fs[0]) + LeavesInAll(Exec(w, fs[0]).world, fs[1..])
  }

  function LeavesInPay(w: World, plan: Plan, token: TokenBehaviour): seq<Leaf>
    decreases token, 2
  {
    var w1 := ExecAll(w, token.allowance.reentry);
    var w2 := ExecAll(w1, token.balance.reentry);
    LeavesInAll(w, token.allowance.reentry)
    + (LeavesInAll(w1, token.balance.reentry) + LeavesInEach(w2, plan, plan.payouts, token.transfers))
  }

  function LeavesInEach(w: World, plan: Plan, ps: seq<Payout>, replies: seq<TokenReply>): seq<Leaf>
    decreases replies, |ps|, 1
  {
    if ps == [] then []
    else if replies == [] then LeavesInEach(Record(w, plan, ps[0]), plan, ps[1..], [])
    else
      var w1 := ExecAll(w, replies[0].reentry);
      LeavesInAll(w, replies[0].reentry) + LeavesInEach(Record(w1, plan, ps[0]), plan, ps[1..], replies[1..])
  }

  lemma {:induction false} ReplayJoins(s: State, a: seq<Leaf>, b: seq<Leaf>)
    ensures Replay(s, a + b) == Replay(Replay(s, a), b)
    decreases |a|
  {
    if a == [] {
      assert [] + b == b;
    } else {
      assert (a + b)[1..] == a[1..] + b;
      ReplayJoins(After(s, a[0]), a[1..], b);
    }
  }

  lemma ReplayOne(s: State, leaf: Leaf)
    ensures Replay(s, [leaf]) == After(s, leaf)
  {
    assert [leaf][1..] == [];
  }

  /** A call tree does to the storage what its surviving leaves do, one after the other. */
  lemma {:induction false} ExecReplays(w: World, f: Frame)
    ensures Exec(w, f).world.ledger == Replay(w.ledger, Leaves(w, f))
    decreases f, 3
  {
    if f.call.Settle? {
      var p := PlanSettle(w.ledger, f.call.owner, f.call.campaign, f.call.code, f.call.period);
      if p.Ok? {
        var marked := World(Mark(w.ledger, p.value.key), w.transfers);
        PayReplays(marked, p.value, f.call.token);
        ReplayJoins(w.ledger, [Marked(p.value.key)], LeavesInPay(marked, p.value, f.call.token));
        ReplayOne(w.ledger, Marked(p.value.key));
      }
    } else {
      ReplayOne(w.ledger, Called(f));
    }
  }

  lemma {:induction false} AllReplay(w: World, fs: seq<Frame>)
    ensures ExecAll(w, fs).ledger == Replay(w.ledger, LeavesInAll(w, fs))
    decreases fs, 0
  {
    if fs != [] {
      var w1 := Exec(w, fs[0]).world;
      ExecReplays(w, fs[0]);
      AllReplay(w1, fs[1..]);
      ReplayJoins(w.ledger, Leaves(w, fs[0]), LeavesInAll(w1, fs[1..]));
    }
  }

  lemma {:induction false} PayReplays(w: World, plan: Plan, token: TokenBehaviour)
    ensures Pay(w, plan, token).Ok? ==> Pay(w, plan, token).value.ledger == Replay(w.ledger, LeavesInPay(w, plan, token))
    decreases token, 2
  {
    var w1 := ExecAll(w, token.allowance.reentry);
    var w2 := ExecAll(w1, token.balance.reentry);
    AllReplay(w, token.allowance.reentry);
    AllReplay(w1, token.balance.reentry);
    EachReplays(w2, plan, plan.payouts, token.transfers);
    var each := LeavesInEach(w2, plan, plan.payouts, token.transfers);
    ReplayJoins(w.ledger, LeavesInAll(w, token.allowance.reentry), LeavesInAll(w1, token.balance.reentry) + each);
    ReplayJoins(w1.ledger, LeavesInAll(w1, token.balance.reentry), each);
  }

  lemma {:induction false} EachReplays(w: World, plan: Plan, ps: seq<Payout>, replies: seq<TokenReply>)
    ensures PayEach(w, plan, ps, replies).Ok? ==>
              PayEach(w, plan, ps, replies).value.ledger == Replay(w.ledger, LeavesInEach(w, plan, ps, replies))
    decreases replies, |ps|, 1
  {
    if ps != [] {
      if replies == [] {
        EachReplays(Record(w, plan, ps[0]), plan, ps[1..], []);
      } else {
        var w1 := Record(ExecAll(w, replies[0].reentry), plan, ps[0]);
        AllReplay(w, replies[0].reentry);
        EachReplays(w1, plan, ps[1..], replies[1..]);
        ReplayJoins(w.ledger, LeavesInAll(w, replies[0].reentry), LeavesInEach(w1, plan, ps[1..], replies[1..]));
      }
    }
  }

  // ── delegates ──────────────────────────────────────────────────────

  /** Whether a leaf, in the state it meets, turns the delegate on or off: a call signed by the
      campaign's owner. */
  ghost function Toggle(s: State, leaf: Leaf, d: DelegateKey): Option<bool> {
    if leaf.Marked? then None
    else
      match leaf.frame.call
      case AddDelegate(owner, campaign, who) =>
        if DelegateKey(campaign, who) == d && SignedByOwner(s, leaf.frame.ctx, owner, campaign) then Some(true) else None
      case RemoveDelegate(owner, campaign, who) =>
        if DelegateKey(campaign, who) == d && SignedByOwner(s, leaf.frame.ctx, owner, campaign) then Some(false) else None
      case _ => None
  }

  /** The last time that happened. */
  ghost function LastToggle(s: State, leaves: seq<Leaf>, d: DelegateKey): Option<bool>
    decreases |leaves|
  {
    if leaves == [] then None
    else
      var later := LastToggle(After(s, leaves[0]), leaves[1..], d);
      if later.Some? then later else Toggle(s, leaves[0], d)
  }

  /** `add_delegate` and `remove_delegate` succeed exactly for the campaign's owner, and change nothing
      but that one delegate. */
  lemma DelegationIff(s: State, ctx: Ctx, owner: Address, campaign: u64, who: Address, on: bool)
    ensures var o := SetDelegate(s, ctx, owner, campaign, who, on);
            var d := DelegateKey(campaign, who);
            && (o.reply.Ok? <==> SignedByOwner(s, ctx, owner, campaign))
            && o.state == if o.reply.Ok? then s.(delegates := if on then s.delegates + {d} else s.delegates - {d}) else s
  {
  }

  lemma {:induction false} MintAllKeepsDelegates(s: State, campaign: u64, codes: seq<string>, now: u64)
    requires campaign in s.campaigns && s.campaigns[campaign].minted + |codes| <= U32_MAX
    ensures MintAll(s, campaign, codes, now).Ok? ==> MintAll(s, campaign, codes, now).value.delegates == s.delegates
    decreases |codes|
  {
    if codes != [] && MintError(s, campaign, codes[0]).None? {
      MintAllKeepsDelegates(MintOne(s, campaign, codes[0], now), campaign, codes[1..], now);
    }
  }

  lemma IssueKeepsDelegates(s: State, ctx: Ctx, call: Call)
    requires call.IssueUnique?
    ensures Apply(s, ctx, call).state.delegates == s.delegates
  {
    if IssueGuard(s, ctx, call.owner, call.campaign, |call.codes|).None? {
      MintAllKeepsDelegates(s, call.campaign, call.codes, ctx.now);
    }
  }

  lemma OthersKeepDelegates(s: State, ctx: Ctx, call: Call)
    requires !call.Settle? && !call.IssueUnique? && !call.AddDelegate? && !call.RemoveDelegate?
    ensures Apply(s, ctx, call).state.delegates == s.delegates
  {
  }

  lemma DelegatesSet(s: State, ctx: Ctx, owner: Address, campaign: u64, who: Address, on: bool, d: DelegateKey)
    ensures d in SetDelegate(s, ctx, owner, campaign, who, on).state.delegates <==>
            if DelegateKey(campaign, who) == d && SignedByOwner(s, ctx, owner, campaign) then on else d in s.delegates
  {
    DelegationIff(s, ctx, owner, campaign, who, on);
    var t := SetDelegate(s, ctx, owner, campaign, who, on).state;
    assert t.delegates == if !SignedByOwner(s, ctx, owner, campaign) then s.delegates
                          else if on then s.delegates + {DelegateKey(campaign, who)} else s.delegates - {DelegateKey(campaign, who)};
  }

  lemma TogglesOnly(s: State, leaf: Leaf, d: DelegateKey)
    ensures d in After(s, leaf).delegates <==> if Toggle(s, leaf, d).Some? then Toggle(s, leaf, d).value else d in s.delegates
  {
    if leaf.Called? {
      var ctx, call := leaf.frame.ctx, leaf.frame.call;
      match call
      case AddDelegate(owner, campaign, who) => DelegatesSet(s, ctx, owner, campaign, who, true, d);
      case RemoveDelegate(owner, campaign, who) => DelegatesSet(s, ctx, owner, campaign, who, false, d);
      case IssueUnique(_, _, _) => IssueKeepsDelegates(s, ctx, call);
      case Settle(_, _, _, _, _) =>
      case _ => OthersKeepDelegates(s, ctx, call);
    }
  }

  lemma {:induction false} LastToggleDecides(s: State, leaves: seq<Leaf>, d: DelegateKey)
    ensures d in Replay(s, leaves).delegates <==>
            if LastToggle(s, leaves, d).Some? then LastToggle(s, leaves, d).value else d in s.delegates
    decreases |leaves|
  {
    if leaves != [] {
      TogglesOnly(s, leaves[0], d);
      LastToggleDecides(After(s, leaves[0]), leaves[1..], d);
    }
  }

  /** In every run, whatever tokens do in it: somebody other than the owner can redeem a live code
      exactly if the campaign's owner last made them a delegate of it, and did not unmake them. */
  lemma DelegatesRedeemIff(run: seq<Frame>, ctx: Ctx, who: Address, campaign: u64, code: string, ref: Bytes32)
    requires who in ctx.signed
    requires var s := ExecAll(EmptyWorld, run).ledger;
             IsValid(s, ctx.now, campaign, code) && campaign in s.campaigns && who != s.campaigns[campaign].owner
    ensures Burn(ExecAll(EmptyWorld, run).ledger, ctx, who, campaign, code, ref).reply.Ok? <==>
            LastToggle(EmptyState, LeavesInAll(EmptyWorld, run), DelegateKey(campaign, who)) == Some(true)
  {
    var w := ExecAll(EmptyWorld, run);
    assert Reachable(w);
    RedemptionFailures(w, ctx, who, campaign, code, ref);
    AllReplay(EmptyWorld, run);
    LastToggleDecides(EmptyState, LeavesInAll(EmptyWorld, run), DelegateKey(campaign, who));
  }
}
