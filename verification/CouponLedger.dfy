/** The contract as it is written: entry points that read and write storage one entry at a time and
    may fail with writes behind them, and a host that restores the storage when they do. */
module CouponLedgerContract {
  import opened Basics
  import opened LedgerTypes
  import opened LedgerSpec
  import opened LedgerExec
  import opened LedgerIndex

  class CouponLedger {
    /** The contract's storage, one map per kind of key. */
    var store: State
    /** The transfers that payout tokens have accepted; the host rolls them back with the storage. */
    var transfers: seq<Transfer>

    ghost function Here(): World
      reads this
    {
      World(store, transfers)
    }

    constructor ()
      ensures Here() == EmptyWorld
    {
      store, transfers := EmptyState, [];
    }

    // ── the host ─────────────────────────────────────────────────────

    /** Runs one call to completion and rolls everything back if it fails. */
    method Invoke(f: Frame) returns (r: Reply)
      modifies this
      ensures Here() == Exec(old(Here()), f).world
      ensures r == Exec(old(Here()), f).reply
      decreases f, 4
    {
      var before, accepted := store, transfers;
      if f.call.Settle? {
        r := SettlePeriod(f.call.owner, f.call.campaign, f.call.code, f.call.period, f.call.token);
      } else {
        r := Enter(f.ctx, f.call);
      }
      if r.Err? { store, transfers := before, accepted; }
    }

    method Enter(ctx: Ctx, call: Call) returns (r: Reply)
      requires !call.Settle?
      modifies this
      ensures r == Apply(old(store), ctx, call).reply
      ensures r.Ok? ==> store == Apply(old(store), ctx, call).state
      ensures transfers == old(transfers)
    {
      match call {
        case CreateCampaign(owner, name, dt, dv, supply, until) =>
          r := Create(ctx, owner, name, dt, dv, supply, until);
        case AddDelegate(owner, campaign, who) => r := SetDelegate(ctx, owner, campaign, who, true);
        case RemoveDelegate(owner, campaign, who) => r := SetDelegate(ctx, owner, campaign, who, false);
        case IssueUnique(owner, campaign, codes) => r := Issue(ctx, owner, campaign, codes);
        case RedeemUnique(who, campaign, code, ref) => r := Redeem(ctx, who, campaign, code, ref);
        case RegisterShared(owner, campaign, code, at, tok, rate) =>
          r := Register(ctx, owner, campaign, code, at, tok, rate);
        case CommitTally(owner, campaign, code, period, count, root, m) =>
          r := Commit(ctx, owner, campaign, code, period, count, root, m);
      }
    }

    /** The calls a token makes back into the contract, one after the other. */
    method InvokeAll(fs: seq<Frame>)
      modifies this
      ensures Here() == ExecAll(old(Here()), fs)
      decreases fs, 0
    {
      if fs != [] {
        var _ := Invoke(fs[0]);
        InvokeAll(fs[1..]);
      }
    }

    // ── entry points; after an error the storage may be half written ─

    method Create(ctx: Ctx, owner: Address, name: string, discountType: string, discountValue: u64,
                  totalSupply: u32, validUntil: u64) returns (r: Reply)
      modifies this
      ensures var o := LedgerSpec.Create(old(store), ctx, owner, name, discountType, discountValue, totalSupply, validUntil);
              r == o.reply && (r.Ok? ==> store == o.state)
      ensures transfers == old(transfers)
    {
      if owner !in ctx.signed { return Err(AuthTrap); }
      if totalSupply == 0 || |name| == 0 || |name| > MAX_NAME_LEN
         || |discountType| == 0 || |discountType| > MAX_DISCOUNT_TYPE_LEN { return Err(InvalidTerms); }
      if validUntil <= ctx.now { return Err(InvalidTerms); }
      if store.campCtr == U64_MAX { return Err(OverflowTrap); }
      var id: u64 := store.campCtr + 1;
      store := store.(campCtr := id);
      store := store.(campaigns := store.campaigns[id := Campaign(id, owner, name, discountType, discountValue, totalSupply, 0, 0, validUntil)]);
      var count := Get(store.ownerCount, owner, 0);
      if count == U64_MAX { return Err(InvalidTerms); }
      store := store.(ownerCampaign := store.ownerCampaign[SlotKey(owner, count) := id]);
      store := store.(ownerSlot := store.ownerSlot[id := count]);
      store := store.(ownerCount := store.ownerCount[owner := count + 1]);
      return Ok(CampaignId(id));
    }

    method RequireOwner(campaign: u64, caller: Address) returns (e: Option<Error>)
      ensures e == OwnerError(store, campaign, caller)
    {
      if campaign !in store.campaigns { return Some(CampaignNotFound); }
      if caller != store.campaigns[campaign].owner { return Some(Unauthorized); }
      return None;
    }

    method SetDelegate(ctx: Ctx, owner: Address, campaign: u64, who: Address, on: bool) returns (r: Reply)
      modifies this
      ensures var o := LedgerSpec.SetDelegate(old(store), ctx, owner, campaign, who, on);
              r == o.reply && (r.Ok? ==> store == o.state)
      ensures transfers == old(transfers)
    {
      if owner !in ctx.signed { return Err(AuthTrap); }
      var e := RequireOwner(campaign, owner);
      if e.Some? { return Err(e.value); }
      if on { store := store.(delegates := store.delegates + {DelegateKey(campaign, who)}); }
      else { store := store.(delegates := store.delegates - {DelegateKey(campaign, who)}); }
      return Ok(Unit);
    }

    /** The batch loop writes tokens as it goes and stops at the first bad code; the campaign's own
        counter is written once, after the loop. */
    method Issue(ctx: Ctx, owner: Address, campaign: u64, codes: seq<string>) returns (r: Reply)
      modifies this
      ensures var o := LedgerSpec.Issue(old(store), ctx, owner, campaign, codes);
              r == o.reply && (r.Ok? ==> store == o.state)
      ensures transfers == old(transfers)
    {
      if owner !in ctx.signed { return Err(AuthTrap); }
      var e := RequireOwner(campaign, owner);
      if e.Some? { return Err(e.value); }
      var camp := store.campaigns[campaign];
      if ctx.now > camp.validUntil { return Err(CampaignExpired); }
      if |codes| == 0 { return Err(InvalidCode); }
      if |codes| > MAX_BATCH { return Err(BatchTooLarge); }
      if camp.minted + |codes| > U32_MAX { return Err(SupplyExhausted); }
      var newMinted: u32 := camp.minted + |codes|;
      if newMinted > camp.totalSupply { return Err(SupplyExhausted); }
      var ids := IssueLoop(campaign, codes, ctx.now);
      if ids.Err? { return Err(ids.error); }
      store := store.(campaigns := store.campaigns[campaign := camp.(minted := newMinted)]);
      return Ok(TokenIds(ids.value));
    }

    method IssueLoop(campaign: u64, codes: seq<string>, now: u64) returns (r: Result<seq<u64>, Error>)
      requires campaign in store.campaigns && store.campaigns[campaign].minted + |codes| <= U32_MAX
      modifies this`store
      ensures store.campaigns == old(store.campaigns)
      ensures var o := MintAll(old(store), campaign, codes, now);
              && (r.Err? <==> o.Err?) && (r.Err? ==> r.error == o.error)
              && (r.Ok? ==> o == Ok(Counted(store, campaign, |codes|)))
              && (r.Ok? ==> r.value == NewIds(old(store.tokenCtr), store.tokenCtr))
    {
      var ids: seq<u64> := [];
      ghost var goal := MintAll(store, campaign, codes, now);
      NothingCounted(store, campaign);
      assert codes[0..] == codes;
      for i := 0 to |codes|
        invariant store.campaigns == old(store.campaigns)
        invariant old(store.tokenCtr) <= store.tokenCtr && ids == NewIds(old(store.tokenCtr), store.tokenCtr)
        invariant goal == MintAll(Counted(store, campaign, i), campaign, codes[i..], now)
      {
        OneRound(store, campaign, codes, now, i);
        var e := CheckCode(campaign, codes[i]);
        if e.Some? { return Err(e.value); }
        var id := MintToken(campaign, codes[i], now);
        ids := ids + [id];
      }
      assert codes[|codes|..] == [];
      return Ok(ids);
    }

    method CheckCode(campaign: u64, code: string) returns (e: Option<Error>)
      ensures e == MintError(store, campaign, code)
    {
      if |code| == 0 { return Some(InvalidCode); }
      if |code| > MAX_CODE_LEN { return Some(CodeTooLong); }
      if CodeKey(campaign, code) in store.codeIndex { return Some(DuplicateCode); }
      if store.tokenCtr == U64_MAX { return Some(OverflowTrap); }
      return None;
    }

    /** The three writes for one code. */
    method MintToken(campaign: u64, code: string, now: u64) returns (id: u64)
      requires store.tokenCtr < U64_MAX
      modifies this`store
      ensures store == WithToken(old(store), campaign, code, now) && id == store.tokenCtr == old(store.tokenCtr) + 1
    {
      id := store.tokenCtr + 1;
      store := store.(tokenCtr := id);
      store := store.(tokens := store.tokens[id := Token(id, campaign, code, false, now, 0, 0)]);
      store := store.(codeIndex := store.codeIndex[CodeKey(campaign, code) := id]);
    }

    static ghost function WithToken(s: State, campaign: u64, code: string, now: u64): State
      requires s.tokenCtr < U64_MAX
    {
      var id := s.tokenCtr + 1;
      s.(tokenCtr := id, tokens := s.tokens[id := Token(id, campaign, code, false, now, 0, 0)],
         codeIndex := s.codeIndex[CodeKey(campaign, code) := id])
    }

    /** One round of the loop is one step of the specification. */
    static lemma OneRound(s: State, campaign: u64, codes: seq<string>, now: u64, i: nat)
      requires i < |codes| && campaign in s.campaigns && s.campaigns[campaign].minted + |codes| <= U32_MAX
      ensures var goal := MintAll(Counted(s, campaign, i), campaign, codes[i..], now);
              match MintError(s, campaign, codes[i])
              case Some(e) => goal == Err(e)
              case None => s.tokenCtr < U64_MAX
                           && goal == MintAll(Counted(WithToken(s, campaign, codes[i], now), campaign, i + 1), campaign, codes[i + 1..], now)
    {
      assert codes[i..][0] == codes[i] && codes[i..][1..] == codes[i + 1..];
      SameMintError(s, campaign, codes[i], i);
      if MintError(s, campaign, codes[i]).None? { CountOneMore(s, campaign, codes[i], now, i); }
    }

    static lemma SameMintError(s: State, campaign: u64, code: string, done: nat)
      requires campaign in s.campaigns && s.campaigns[campaign].minted + done < U32_MAX
      ensures MintError(Counted(s, campaign, done), campaign, code) == MintError(s, campaign, code)
    {
    }

    /** The storage as it would be if the campaign's counter had moved with each token. */
    static ghost function Counted(s: State, campaign: u64, done: nat): State
      requires campaign in s.campaigns && s.campaigns[campaign].minted + done <= U32_MAX
    {
      s.(campaigns := s.campaigns[campaign := s.campaigns[campaign].(minted := s.campaigns[campaign].minted + done)])
    }

    static lemma NothingCounted(s: State, campaign: u64)
      requires campaign in s.campaigns
      ensures Counted(s, campaign, 0) == s
    {
      assert s.campaigns[campaign].(minted := s.campaigns[campaign].minted + 0) == s.campaigns[campaign];
      assert s.campaigns[campaign := s.campaigns[campaign]] == s.campaigns;
    }

    static lemma CountOneMore(s: State, campaign: u64, code: string, now: u64, done: nat)
      requires campaign in s.campaigns && s.campaigns[campaign].minted + done < U32_MAX && s.tokenCtr < U64_MAX
      ensures Counted(WithToken(s, campaign, code, now), campaign, done + 1) == MintOne(Counted(s, campaign, done), campaign, code, now)
    {
    }

    method Redeem(ctx: Ctx, authorizer: Address, campaign: u64, code: string, ref: Bytes32) returns (r: Reply)
      modifies this
      ensures var o := Burn(old(store), ctx, authorizer, campaign, code, ref);
              r == o.reply && (r.Ok? ==> store == o.state)
      ensures transfers == old(transfers)
    {
      if authorizer !in ctx.signed { return Err(AuthTrap); }
      if CodeKey(campaign, code) !in store.codeIndex { return Err(CouponNotFound); }
      var id := store.codeIndex[CodeKey(campaign, code)];
      if id !in store.tokens { return Err(CouponNotFound); }
      var token := store.tokens[id];
      if token.isBurned { return Err(AlreadyRedeemed); }
      if token.campaignId !in store.campaigns { return Err(CampaignNotFound); }
      var camp := store.campaigns[token.campaignId];
      if authorizer != camp.owner && DelegateKey(token.campaignId, authorizer) !in store.delegates { return Err(Unauthorized); }
      if ctx.now > camp.validUntil { return Err(CampaignExpired); }
      token := token.(isBurned := true, redeemerRef := ref, burnedAt := ctx.now);
      store := store.(tokens := store.tokens[id := token]);
      if camp.burned == U32_MAX { return Err(OverflowTrap); }
      camp := camp.(burned := camp.burned + 1);
      store := store.(campaigns := store.campaigns[token.campaignId := camp]);
      return Ok(Redeemed(Receipt(id, code, camp.id, camp.name, camp.discountType, camp.discountValue,
                                 ref, ctx.now, ctx.seqNo)));
    }

    method Register(ctx: Ctx, owner: Address, campaign: u64, code: string, attributedTo: Option<Address>,
                    payoutToken: Option<Address>, payoutRate: i128) returns (r: Reply)
      modifies this
      ensures var o := LedgerSpec.Register(old(store), ctx, owner, campaign, code, attributedTo, payoutToken, payoutRate);
              r == o.reply && (r.Ok? ==> store == o.state)
      ensures transfers == old(transfers)
    {
      if owner !in ctx.signed { return Err(AuthTrap); }
      var e := RequireOwner(campaign, owner);
      if e.Some? { return Err(e.value); }
      if ctx.now > store.campaigns[campaign].validUntil { return Err(CampaignExpired); }
      if |code| == 0 { return Err(InvalidCode); }
      if |code| > MAX_CODE_LEN { return Err(CodeTooLong); }
      if attributedTo.None? && payoutToken.Some? { return Err(InvalidSettlement); }
      if payoutToken.Some? {
        if payoutRate <= 0 { return Err(InvalidSettlement); }
      } else if payoutRate != 0 { return Err(InvalidSettlement); }
      var key := CodeKey(campaign, code);
      if key in store.shared { return Err(AlreadyRegistered); }
      store := store.(shared := store.shared[key := SharedCode(campaign, code, attributedTo, payoutToken, payoutRate, ctx.now)]);
      return Ok(Unit);
    }

    /** The loop adds up the credits and stops at the first foreign address. Its overflow check never
        fires: credits to the one registered target stand in a single entry. */
    method Commit(ctx: Ctx, owner: Address, campaign: u64, code: string, period: u64, count: u32,
                  root: Bytes32, m: Attribution) returns (r: Reply)
      modifies this
      ensures var o := LedgerSpec.Commit(old(store), ctx, owner, campaign, code, period, count, root, m);
              r == o.reply && (r.Ok? ==> store == o.state)
      ensures transfers == old(transfers)
    {
      if owner !in ctx.signed { return Err(AuthTrap); }
      var e := RequireOwner(campaign, owner);
      if e.Some? { return Err(e.value); }
      var ck := CodeKey(campaign, code);
      if ck !in store.shared { return Err(SharedNotFound); }
      var key := PeriodKey(ck, period);
      if key in store.tallies { return Err(PeriodCommitted); }
      var target := store.shared[ck].attributedTo;
      if target.None? && |m| != 0 { return Err(AttributionMismatch); }
      var attributed: u32 := 0;
      for i := 0 to |m|
        invariant target.Some? ==> forall j :: 0 <= j < i ==> m[j].addr == target.value
        invariant i <= 1 || target.None?
        invariant target.Some? ==> attributed == if i == 0 then 0 else m[0].count
        invariant store == old(store) && transfers == old(transfers)
      {
        assert i == 1 ==> m[0].addr < m[1].addr;
        if target.Some? && m[i].addr != target.value { return Err(AttributionMismatch); }
        if attributed + m[i].count > U32_MAX { return Err(InvalidTally); }
        attributed := attributed + m[i].count;
      }
      if target.Some? && |m| == 1 { assert m == [Entry(target.value, attributed)]; }
      if target.Some? && attributed != count { return Err(InvalidTally); }
      store := store.(tallies := store.tallies[key := Tally(period, count, root, m)]);
      return Ok(Unit);
    }

    /** Checks, then the guard, then the token. */
    method SettlePeriod(owner: Address, campaign: u64, code: string, period: u64, token: TokenBehaviour) returns (r: Reply)
      modifies this
      ensures r == SettleSpec(old(Here()), owner, campaign, code, period, token).reply
      ensures r.Ok? ==> Here() == SettleSpec(old(Here()), owner, campaign, code, period, token).world
      decreases token, 3
    {
      var p := CheckSettle(owner, campaign, code, period);
      if p.Err? { return Err(p.error); }
      store := store.(settled := store.settled + {p.value.key});
      var e := CallToken(p.value, token);
      if e.Some? { return Err(e.value); }
      return Ok(Paid(p.value.payouts));
    }

    ghost function SettleSpec(w: World, owner: Address, campaign: u64, code: string, period: u64, token: TokenBehaviour): Done {
      Exec(w, Frame(Ctx(0, 0, {}), Settle(owner, campaign, code, period, token)))
    }

    method CheckSettle(owner: Address, campaign: u64, code: string, period: u64) returns (r: Result<Plan, Error>)
      ensures r == PlanSettle(store, owner, campaign, code, period)
    {
      var e := RequireOwner(campaign, owner);
      if e.Some? { return Err(e.value); }
      var ck := CodeKey(campaign, code);
      if ck !in store.shared { return Err(SharedNotFound); }
      var sc := store.shared[ck];
      if sc.payoutToken.None? { return Err(InvalidSettlement); }
      if sc.payoutRate <= 0 { return Err(InvalidSettlement); }
      var key := PeriodKey(ck, period);
      if key !in store.tallies { return Err(TallyNotFound); }
      if key in store.settled { return Err(AlreadySettled); }
      var amounts := Amounts(store.tallies[key].perAttribution, sc.payoutRate);
      if amounts.Err? { return Err(amounts.error); }
      return Ok(Plan(key, sc.payoutToken.value, owner, amounts.value.0, amounts.value.1));
    }

    /** Allowance, balance, and one transfer per payout; the token may re-enter at each of them. */
    method CallToken(plan: Plan, token: TokenBehaviour) returns (e: Option<Error>)
      modifies this
      ensures var o := Pay(old(Here()), plan, token);
              if e.None? then o == Ok(Here()) else o == Err(e.value)
      decreases token, 2
    {
      InvokeAll(token.allowance.reentry);
      if token.allowance.answer.None? { return Some(TokenTrap); }
      if token.allowance.answer.value < plan.total { return Some(InvalidSettlement); }
      InvokeAll(token.balance.reentry);
      if token.balance.answer.None? { return Some(TokenTrap); }
      if token.balance.answer.value < plan.total { return Some(InvalidSettlement); }
      var out, replies := plan.payouts, token.transfers;
      ghost var goal := PayEach(Here(), plan, out, replies);
      assert replies[0..] == replies;
      for i := 0 to |out|
        invariant goal == PayEach(Here(), plan, out[i..], replies[Min(i, |replies|)..])
      {
        assert out[i..][0] == out[i] && out[i..][1..] == out[i + 1..];
        if i < |replies| {
          assert replies[i..][0] == replies[i] && replies[i..][1..] == replies[i + 1..];
          InvokeAll(replies[i].reentry);
          if replies[i].answer.None? { return Some(TokenTrap); }
        }
        transfers := transfers + [Transfer(plan.key, plan.token, plan.owner, out[i])];
      }
      assert out[|out|..] == [];
      return None;
    }

    // ── read-only entry points ───────────────────────────────────────

    /** The payout loop of `settle`: every entry times the rate, checked, positive amounts only. */
    static method Amounts(m: Attribution, rate: i128) returns (r: Result<(seq<Payout>, i128), Error>)
      ensures match Payouts(m, rate)
              case Err(e) => r == Err(e)
              case Ok(ps) =>
                if Total(Positive(ps)) > I128_MAX then r == Err(InvalidSettlement)
                else r == Ok((Positive(ps), Total(Positive(ps))))
    {
      var out: seq<Payout> := [];
      var total: i128 := 0;
      ghost var goal := Payouts(m, rate);
      OnlyOneError(m, rate);
      assert m[0..] == m;
      for i := 0 to |m|
        invariant total == Total(out) && AllPositive(out)
        invariant StillToPay(goal, Payouts(m[i..], rate), out)
      {
        assert m[i..][0] == m[i] && m[i..][1..] == m[i + 1..];
        OnlyOneError(m[i + 1..], rate);
        var next := Bill(m[i], rate, out, total, goal, Payouts(m[i + 1..], rate));
        if next.None? { return Err(InvalidSettlement); }
        out, total := next.value.0, next.value.1;
      }
      Finished(goal, m[|m|..], rate, out);
      return Ok((out, total));
    }

    static lemma Finished(goal: Result<seq<Payout>, Error>, rest: seq<Entry>, rate: i128, out: seq<Payout>)
      requires rest == [] && StillToPay(goal, Payouts(rest, rate), out)
      ensures goal.Ok? && Positive(goal.value) == out
    {
      assert Positive([]) == [];
    }

    /** One round of the loop: the checked product, and the checked running total. */
    static method Bill(e: Entry, rate: i128, out: seq<Payout>, total: i128,
                       ghost goal: Result<seq<Payout>, Error>, ghost rest: Result<seq<Payout>, Error>)
      returns (r: Option<(seq<Payout>, i128)>)
      requires total == Total(out) && AllPositive(out)
      requires StillToPay(goal, Charge(e, rate, rest), out)
      ensures r.None? ==> goal.Err? || Total(Positive(goal.value)) > I128_MAX
      ensures r.Some? ==> r.value.1 == Total(r.value.0) && AllPositive(r.value.0) && StillToPay(goal, rest, r.value.0)
    {
      var product := e.count * rate;
      if !(I128_MIN <= product <= I128_MAX) { return None; }
      var p := Payout(e.addr, product);
      OneMore(goal, rest, out, p);
      if p.amount <= 0 { return Some((out, total)); }
      OneMoreToPay(out, p);
      AtLeast(goal, rest, out + [p]);
      if total + p.amount > I128_MAX { return None; }
      return Some((out + [p], total + p.amount));
    }

    static lemma OneMoreToPay(out: seq<Payout>, p: Payout)
      requires AllPositive(out) && p.amount > 0
      ensures AllPositive(out + [p]) && Total(out + [p]) == Total(out) + p.amount
    {
      TotalAppend(out, [p]);
      assert [p][1..] == [];
    }

    static ghost predicate AllPositive(ps: seq<Payout>) { forall j :: 0 <= j < |ps| ==> ps[j].amount > 0 }

    /** `out` is what has been collected of `goal`; the rest of it lies in `rest`. */
    static ghost predicate StillToPay(goal: Result<seq<Payout>, Error>, rest: Result<seq<Payout>, Error>, out: seq<Payout>) {
      if goal.Err? then rest == goal else rest.Ok? && Positive(goal.value) == out + Positive(rest.value)
    }

    static lemma OneMore(goal: Result<seq<Payout>, Error>, rest: Result<seq<Payout>, Error>, out: seq<Payout>, p: Payout)
      requires StillToPay(goal, if rest.Err? then rest else Ok([p] + rest.value), out)
      ensures StillToPay(goal, rest, if p.amount > 0 then out + [p] else out)
    {
      if rest.Ok? {
        PositiveCons(p, rest.value);
        Regroup(out, if p.amount > 0 then [p] else [], Positive(rest.value));
        assert out + [] == out;
      }
    }

    static lemma PositiveCons(p: Payout, rest: seq<Payout>)
      ensures Positive([p] + rest) == (if p.amount > 0 then [p] else []) + Positive(rest)
    {
      assert ([p] + rest)[1..] == rest;
    }

    static lemma AtLeast(goal: Result<seq<Payout>, Error>, rest: Result<seq<Payout>, Error>, out: seq<Payout>)
      requires StillToPay(goal, rest, out)
      ensures goal.Ok? ==> Total(Positive(goal.value)) >= Total(out)
    {
      if goal.Ok? { TotalAppend(out, Positive(rest.value)); }
    }

    static lemma {:induction false} TotalAppend(a: seq<Payout>, b: seq<Payout>)
      ensures Total(a + b) == Total(a) + Total(b)
    {
      if a == [] {
        assert a + b == b;
      } else {
        assert (a + b)[1..] == a[1..] + b;
        TotalAppend(a[1..], b);
      }
    }

    method CampaignsOf(owner: Address) returns (out: seq<u64>)
      ensures out == LedgerIndex.CampaignsOf(store, owner)
    {
      out := SlotLoop(owner, 0, Get(store.ownerCount, owner, 0));
    }

    method CampaignsPage(owner: Address, cursor: u64, limit: u32) returns (r: Result<seq<u64>, Error>)
      ensures r == LedgerIndex.CampaignsPage(store, owner, cursor, limit)
    {
      if limit == 0 || limit > MAX_BATCH { return Err(BatchTooLarge); }
      var count := Get(store.ownerCount, owner, 0);
      var end := SaturatingAdd(cursor, limit);
      if end >= count { end := count; }
      var out := SlotLoop(owner, cursor, end);
      return Ok(out);
    }

    /** The loop that both listings run. */
    method SlotLoop(owner: Address, from: u64, to: u64) returns (out: seq<u64>)
      ensures out == Slots(store, owner, from, to)
    {
      out := [];
      var slot: u64 := from;
      while slot < to
        invariant Slots(store, owner, from, to) == out + Slots(store, owner, slot, to)
        decreases U64_MAX - slot
      {
        if SlotKey(owner, slot) in store.ownerCampaign { out := out + [store.ownerCampaign[SlotKey(owner, slot)]]; }
        slot := slot + 1;
      }
    }

    method CampaignStats(now: u64, campaign: u64) returns (r: Result<Stats, Error>)
      ensures r == LedgerSpec.CampaignStats(store, now, campaign)
    {
      if campaign !in store.campaigns { return Err(CampaignNotFound); }
      var camp := store.campaigns[campaign];
      var available := if camp.minted < camp.burned then 0 else camp.minted - camp.burned;
      return Ok(Stats(camp.totalSupply, camp.minted, camp.burned, available, now > camp.validUntil));
    }

    method IsValid(now: u64, campaign: u64, code: string) returns (ok: bool)
      ensures ok == LedgerSpec.IsValid(store, now, campaign, code)
    {
      if CodeKey(campaign, code) !in store.codeIndex { return false; }
      var id := store.codeIndex[CodeKey(campaign, code)];
      if id !in store.tokens || store.tokens[id].isBurned || store.tokens[id].campaignId !in store.campaigns { return false; }
      return now <= store.campaigns[store.tokens[id].campaignId].validUntil;
    }
  }
}
