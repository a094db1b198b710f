/** Money: the preview against the payment, what a code has been paid over its lifetime, and
    conservation with an honest token and keepers that settle whenever they like. */
module LedgerMoney {
  import opened Basics
  import opened LedgerTypes
  import opened LedgerSpec
  import opened LedgerExec
  import opened LedgerInvariant
  import opened LedgerSettlement
  import opened LedgerExactlyOnce
  import opened Sums

  // ── preview and payment ────────────────────────────────────────────

  /** What must be on record for `owner` to be able to pay period `k`. */
  ghost predicate Payable(s: State, owner: Address, k: PeriodKey) {
    && k.code.campaign in s.campaigns && owner == s.campaigns[k.code.campaign].owner
    && k.code in s.shared && s.shared[k.code].payoutToken.Some?
    && k in s.tallies && k !in s.settled
    && s.tallies[k].count * s.shared[k.code].payoutRate <= I128_MAX
  }

  ghost function Due(s: State, k: PeriodKey): int
    requires k in s.tallies && k.code in s.shared
  {
    s.tallies[k].count * s.shared[k.code].payoutRate
  }

  lemma TotalOfAttribution(m: Attribution, target: Address, n: u32, rate: i128)
    requires CreditsOnly(m, target, n) && rate > 0
    ensures Payouts(m, rate).Ok? <==> n * rate <= I128_MAX
    ensures Payouts(m, rate).Ok? ==> Total(Payouts(m, rate).value) == n * rate
    ensures Payouts(m, rate).Ok? ==> Total(Positive(Payouts(m, rate).value)) == n * rate
  {
    PayoutsOfOne(target, n, rate, m);
    assert 0 <= n * rate;
    if m != [] && n * rate <= I128_MAX { PositiveOfOne(Payout(target, n * rate)); }
  }

  lemma PlanIff(s: State, owner: Address, k: PeriodKey)
    requires TalliesOk(s)
    ensures var p := PlanSettle(s, owner, k.code.campaign, k.code.code, k.period);
            && (p.Ok? <==> Payable(s, owner, k))
            && (p.Ok? ==> p.value.total == Due(s, k) && Settleable(s, k))
            && (p.Ok? ==> p.value.key == k && p.value.owner == owner)
            && (p.Ok? ==> p.value.token == s.shared[k.code].payoutToken.value)
            && (p.Ok? ==> p.value.payouts == Positive(Payouts(s.tallies[k].perAttribution, s.shared[k.code].payoutRate).value))
  {
    assert PeriodKey(CodeKey(k.code.campaign, k.code.code), k.period) == k;
    if k in s.tallies && k.code in s.shared && s.shared[k.code].payoutToken.Some? {
      assert Attributed(s, k);
      TotalOfAttribution(s.tallies[k].perAttribution, s.shared[k.code].attributedTo.value, s.tallies[k].count,
                         s.shared[k.code].payoutRate);
    }
  }

  /** Whatever the token does, a successful `settle` returns exactly the positive part of what
      `compute_payouts` announced for that period, and the totals agree. */
  lemma PreviewIsPaid(w: World, f: Frame)
    requires TalliesOk(w.ledger) && f.call.Settle? && Exec(w, f).reply.Ok?
    ensures var k := PeriodKey(CodeKey(f.call.campaign, f.call.code), f.call.period);
            var preview := ComputePayouts(w.ledger, k);
            && preview.Ok?
            && Exec(w, f).reply.value == Paid(Positive(preview.value))
            && Total(Positive(preview.value)) == Total(preview.value) == Due(w.ledger, k)
  {
    var k := PeriodKey(CodeKey(f.call.campaign, f.call.code), f.call.period);
    PlanIff(w.ledger, f.call.owner, k);
    assert Attributed(w.ledger, k);
    TotalOfAttribution(w.ledger.tallies[k].perAttribution, w.ledger.shared[k.code].attributedTo.value,
                       w.ledger.tallies[k].count, w.ledger.shared[k.code].payoutRate);
  }

  /** The preview answers for every committed period whose payment fits i128, with count x rate in all. */
  lemma PreviewIff(s: State, k: PeriodKey)
    requires TalliesOk(s) && k.code in s.shared && s.shared[k.code].payoutToken.Some?
    ensures ComputePayouts(s, k).Ok? <==> k in s.tallies && Due(s, k) <= I128_MAX
    ensures k !in s.tallies ==> ComputePayouts(s, k) == Err(TallyNotFound)
    ensures ComputePayouts(s, k).Ok? ==> Total(ComputePayouts(s, k).value) == Due(s, k) >= 0
  {
    if k in s.tallies {
      assert Attributed(s, k);
      var n, rate := s.tallies[k].count, s.shared[k.code].payoutRate;
      TotalOfAttribution(s.tallies[k].perAttribution, s.shared[k.code].attributedTo.value, n, rate);
      assert n * rate >= 0;
    }
  }

  // ── lifetime of a code ─────────────────────────────────────────────

  /** Everything that surviving transfers have moved for one code. */
  ghost function PaidFor(ts: seq<Transfer>, code: CodeKey): int {
    if ts == [] then 0
    else PaidFor(ts[..|ts| - 1], code) + (if ts[|ts| - 1].key.code == code then ts[|ts| - 1].payout.amount else 0)
  }

  ghost function MovedFor(ts: seq<Transfer>): PeriodKey -> int { k => Moved(For(ts, k)) }

  lemma MovedForLast(ts: seq<Transfer>, k: PeriodKey)
    requires ts != []
    ensures MovedFor(ts)(k) == MovedFor(ts[..|ts| - 1])(k)
                               + (if ts[|ts| - 1].key == k then ts[|ts| - 1].payout.amount else 0)
  {
    var before := For(ts[..|ts| - 1], k);
    var t := ts[|ts| - 1];
    if t.key == k {
      assert (before + [t])[..|before|] == before;
      assert Moved(before + [t]) == Moved(before) + t.payout.amount;
    } else {
      assert before + [] == before;
    }
  }

  /** The transfers of the code are all of these periods. */
  ghost predicate Covered(ts: seq<Transfer>, code: CodeKey, ks: set<PeriodKey>) {
    forall k: PeriodKey :: k.code == code && k !in ks ==> For(ts, k) == []
  }

  lemma CoveredBefore(ts: seq<Transfer>, code: CodeKey, ks: set<PeriodKey>)
    requires ts != [] && Covered(ts, code, ks)
    ensures Covered(ts[..|ts| - 1], code, ks) && (ts[|ts| - 1].key.code == code ==> ts[|ts| - 1].key in ks)
  {
    var t := ts[|ts| - 1];
    forall k: PeriodKey | k.code == code && k !in ks ensures For(ts[..|ts| - 1], k) == [] && k != t.key { assert For(ts, k) == []; }
  }

  lemma SumMovesOn(ts: seq<Transfer>, ks: set<PeriodKey>)
    requires ts != []
    ensures var t := ts[|ts| - 1];
            SumOver(ks, MovedFor(ts)) == SumOver(ks, MovedFor(ts[..|ts| - 1])) + (if t.key in ks then t.payout.amount else 0)
  {
    var init, t := ts[..|ts| - 1], ts[|ts| - 1];
    forall k ensures MovedFor(ts)(k) == MovedFor(init)(k) + (if t.key == k then t.payout.amount else 0) { MovedForLast(ts, k); }
    if t.key in ks { SumChange(ks, MovedFor(init), MovedFor(ts), t.key); } else { SumSame(ks, MovedFor(init), MovedFor(ts)); }
  }

  lemma {:induction false} PaidByPeriod(ts: seq<Transfer>, code: CodeKey, ks: set<PeriodKey>)
    requires forall k :: k in ks ==> k.code == code
    requires Covered(ts, code, ks)
    ensures PaidFor(ts, code) == SumOver(ks, MovedFor(ts))
  {
    if ts == [] {
      SumScale(ks, MovedFor(ts), MovedFor(ts), 0);
    } else {
      CoveredBefore(ts, code, ks);
      PaidByPeriod(ts[..|ts| - 1], code, ks);
      SumMovesOn(ts, ks);
    }
  }

  ghost function CountOf(s: State): PeriodKey -> int { k => if k in s.tallies then s.tallies[k].count else 0 }

  ghost function SettledPeriods(s: State, code: CodeKey): set<PeriodKey> {
    set k | k in s.settled && k.code == code
  }

  /** Lifetime conservation: the transfers that survive for a code move exactly its rate times the
      redemptions counted in its settled periods, in any run and with any token. */
  lemma LifetimePaid(w: World, code: CodeKey)
    requires Reachable(w)
    ensures PaidFor(w.transfers, code)
         == if code in w.ledger.shared
            then SumOver(SettledPeriods(w.ledger, code), CountOf(w.ledger)) * w.ledger.shared[code].payoutRate
            else 0
  {
    ReachableIsPaid(w);
    var ks := SettledPeriods(w.ledger, code);
    PaidByPeriod(w.transfers, code, ks);
    if code in w.ledger.shared {
      forall k | k in ks
        ensures MovedFor(w.transfers)(k) == CountOf(w.ledger)(k) * w.ledger.shared[code].payoutRate
      {
        BatchShape(w.ledger, k);
      }
      SumScale(ks, CountOf(w.ledger), MovedFor(w.transfers), w.ledger.shared[code].payoutRate);
    } else {
      assert ks == {};
    }
  }

  // ── an honest token ────────────────────────────────────────────────

  datatype Holding = Holding(token: Address, who: Address)

  /** Balances, the allowances given to the contract, and all approvals ever given to it. */
  datatype Bank = Bank(balances: map<Holding, nat>, allowances: map<Holding, nat>, approved: map<Holding, nat>)

  function Honest(allowance: int, balance: int): TokenBehaviour {
    TokenBehaviour(TokenReply([], Some(allowance)), TokenReply([], Some(balance)), [])
  }

  function TransferFrom(b: Bank, t: Transfer): Bank
    requires 0 <= t.payout.amount <= Get(b.balances, Holding(t.token, t.from), 0)
    requires t.payout.amount <= Get(b.allowances, Holding(t.token, t.from), 0)
  {
    var from := Holding(t.token, t.from);
    var b1 := b.(allowances := b.allowances[from := Get(b.allowances, from, 0) - t.payout.amount]);
    Move(b1, t.token, t.from, t.payout.to, t.payout.amount)
  }

  function Move(b: Bank, token: Address, from: Address, to: Address, amount: int): Bank
    requires 0 <= amount <= Get(b.balances, Holding(token, from), 0)
  {
    var f := Holding(token, from);
    var t := Holding(token, to);
    var debited := b.balances[f := Get(b.balances, f, 0) - amount];
    b.(balances := debited[t := Get(debited, t, 0) + amount])
  }

  datatype HonestWorld = HonestWorld(world: World, bank: Bank)

  /** What can happen around the contract: any of its calls, an approval by an owner, movements of
      the token among holders, and a settlement triggered by anybody at all. */
  datatype Step =
    | Other(frame: Frame)
    | Approve(token: Address, owner: Address, amount: nat)
    | MoveElsewhere(token: Address, from: Address, to: Address, amount: nat)
    | Keeper(ctx: Ctx, owner: Address, key: PeriodKey)

  function Next(h: HonestWorld, step: Step): HonestWorld {
    match step
    case Other(f) => if f.call.Settle? then h else h.(world := Exec(h.world, f).world)
    case Approve(token, owner, amount) =>
      var k := Holding(token, owner);
      h.(bank := h.bank.(allowances := h.bank.allowances[k := amount],
                         approved := h.bank.approved[k := Get(h.bank.approved, k, 0) + amount]))
    case MoveElsewhere(token, from, to, amount) =>
      if amount > Get(h.bank.balances, Holding(token, from), 0) then h
      else h.(bank := Move(h.bank, token, from, to, amount))
    case Keeper(ctx, owner, key) => KeeperSettles(h, ctx, owner, key)
  }

  /** A settlement in which the token answers from its own books and then keeps them. */
  function KeeperSettles(h: HonestWorld, ctx: Ctx, owner: Address, key: PeriodKey): HonestWorld {
    if key.code !in h.world.ledger.shared || h.world.ledger.shared[key.code].payoutToken.None? then h
    else
      var token := h.world.ledger.shared[key.code].payoutToken.value;
      var k := Holding(token, owner);
      var d := SettleWith(h.world, ctx, owner, key, Get(h.bank.allowances, k, 0), Get(h.bank.balances, k, 0));
      HonestWorld(d.world, KeepBooks(h.bank, d.world.transfers[Min(|h.world.transfers|, |d.world.transfers|)..]))
  }

  function SettleWith(w: World, ctx: Ctx, owner: Address, key: PeriodKey, allowance: int, balance: int): Done {
    Exec(w, Frame(ctx, Settle(owner, key.code.campaign, key.code.code, key.period, Honest(allowance, balance))))
  }

  /** The books after each transfer the token was asked for and could make. */
  function KeepBooks(b: Bank, ts: seq<Transfer>): Bank
    decreases |ts|
  {
    if ts == [] then b
    else
      var h := Holding(ts[0].token, ts[0].from);
      if 0 <= ts[0].payout.amount <= Get(b.balances, h, 0) && ts[0].payout.amount <= Get(b.allowances, h, 0)
      then KeepBooks(TransferFrom(b, ts[0]), ts[1..])
      else KeepBooks(b, ts[1..])
  }

  function Run(h: HonestWorld, steps: seq<Step>): HonestWorld
    decreases |steps|
  {
    if steps == [] then h else Run(Next(h, steps[0]), steps[1..])
  }

  lemma {:induction false} SilentTransfers(w: World, plan: Plan, ps: seq<Payout>)
    ensures PayEach(w, plan, ps, []) ==
            Ok(World(w.ledger, w.transfers + AsTransfers(plan.key, plan.token, plan.owner, ps)))
    decreases |ps|
  {
    if ps != [] {
      SilentTransfers(Record(w, plan, ps[0]), plan, ps[1..]);
      var rest := AsTransfers(plan.key, plan.token, plan.owner, ps[1..]);
      var t := Transfer(plan.key, plan.token, plan.owner, ps[0]);
      assert w.transfers + [t] + rest == w.transfers + ([t] + rest);
    } else {
      assert w.transfers + [] == w.transfers;
    }
  }

  lemma HonestPay(w: World, plan: Plan, allowance: int, balance: int)
    ensures Pay(w, plan, Honest(allowance, balance)) ==
            if plan.total <= allowance && plan.total <= balance
            then Ok(World(w.ledger, w.transfers + AsTransfers(plan.key, plan.token, plan.owner, plan.payouts)))
            else Err(InvalidSettlement)
  {
    SilentTransfers(w, plan, plan.payouts);
    assert ExecAll(w, []) == w;
  }

  /** With an honest token, `settle` pays exactly when the caller named the owner, settlement is
      configured, the tally is there and unsettled, count x rate fits i128, and both the allowance
      and the balance cover it; it then records the mark and the period's batch, and otherwise
      changes nothing. */
  lemma HonestSettleIff(w: World, ctx: Ctx, owner: Address, k: PeriodKey, allowance: int, balance: int)
    requires TalliesOk(w.ledger)
    ensures var d := SettleWith(w, ctx, owner, k, allowance, balance);
            && (d.reply.Ok? <==> Payable(w.ledger, owner, k) && Due(w.ledger, k) <= allowance && Due(w.ledger, k) <= balance)
            && (d.reply.Err? ==> d.world == w)
            && (d.reply.Ok? ==> Settleable(w.ledger, k))
            && (d.reply.Ok? ==> d.world == World(Mark(w.ledger, k), w.transfers + BatchOf(w.ledger, k)))
  {
    PlanIff(w.ledger, owner, k);
    assert PeriodKey(CodeKey(k.code.campaign, k.code.code), k.period) == k;
    var p := PlanSettle(w.ledger, owner, k.code.campaign, k.code.code, k.period);
    if p.Ok? {
      var marked := World(Mark(w.ledger, k), w.transfers);
      HonestPay(marked, p.value, allowance, balance);
    }
  }

  // ── conservation ───────────────────────────────────────────────────

  /** Everything paid out of `who`'s holdings of `token`. */
  ghost function Outflow(ts: seq<Transfer>, h: Holding): int {
    if ts == [] then 0
    else Outflow(ts[..|ts| - 1], h)
         + (if Holding(ts[|ts| - 1].token, ts[|ts| - 1].from) == h then ts[|ts| - 1].payout.amount else 0)
  }

  ghost function AmountIn(m: map<Holding, nat>): Holding -> int { h => Get(m, h, 0) }

  ghost function HoldingsOf(m: map<Holding, nat>, token: Address): set<Holding> {
    set h | h in m && h.token == token
  }

  /** The units of a token in existence. */
  ghost function Supply(b: Bank, token: Address): int {
    SumOver(HoldingsOf(b.balances, token), AmountIn(b.balances))
  }

  ghost predicate WithinApprovals(h: HonestWorld) {
    forall k :: Outflow(h.world.transfers, k) + Get(h.bank.allowances, k, 0) <= Get(h.bank.approved, k, 0)
  }

  lemma SetOne(m: map<Holding, nat>, x: Holding, v: nat, token: Address)
    ensures SumOver(HoldingsOf(m[x := v], token), AmountIn(m[x := v]))
         == SumOver(HoldingsOf(m, token), AmountIn(m)) + (if x.token == token then v - Get(m, x, 0) else 0)
  {
    var m' := m[x := v];
    var ks := HoldingsOf(m, token);
    if x.token != token {
      assert HoldingsOf(m', token) == ks;
      SumSame(ks, AmountIn(m), AmountIn(m'));
    } else if x in m {
      assert HoldingsOf(m', token) == ks;
      SumChange(ks, AmountIn(m), AmountIn(m'), x);
    } else {
      assert HoldingsOf(m', token) == ks + {x};
      SumWithout(ks + {x}, AmountIn(m'), x);
      assert ks + {x} - {x} == ks;
      SumSame(ks, AmountIn(m), AmountIn(m'));
    }
  }

  lemma MoveKeepsSupply(b: Bank, token: Address, from: Address, to: Address, amount: int, any: Address)
    requires 0 <= amount <= Get(b.balances, Holding(token, from), 0)
    ensures Supply(Move(b, token, from, to, amount), any) == Supply(b, any)
  {
    var f := Holding(token, from);
    var t := Holding(token, to);
    var less: nat := Get(b.balances, f, 0) - amount;
    SetOne(b.balances, f, less, any);
    var m1 := b.balances[f := less];
    var more: nat := Get(m1, t, 0) + amount;
    SetOne(m1, t, more, any);
    assert Move(b, token, from, to, amount).balances == m1[t := more];
  }

  /** The transfer that a settlement of `k` by its owner amounts to. */
  ghost function SettlementTransfer(s: State, k: PeriodKey): Transfer
    requires Settleable(s, k) && s.shared[k.code].attributedTo.Some?
    requires I128_MIN <= Due(s, k) <= I128_MAX
  {
    Transfer(k, s.shared[k.code].payoutToken.value, s.campaigns[k.code.campaign].owner,
             Payout(s.shared[k.code].attributedTo.value, Due(s, k)))
  }

  ghost predicate Affordable(b: Bank, t: Transfer) {
    && 0 <= t.payout.amount <= Get(b.balances, Holding(t.token, t.from), 0)
    && t.payout.amount <= Get(b.allowances, Holding(t.token, t.from), 0)
  }

  /** What a successful settlement does to ledger and books: the mark, and count x rate moved once
      out of the owner's balance and allowance, to the attributed address. */
  ghost predicate Settlement(h: HonestWorld, h': HonestWorld, k: PeriodKey) {
    && Settleable(h.world.ledger, k) && h.world.ledger.shared[k.code].attributedTo.Some?
    && 0 <= Due(h.world.ledger, k) <= I128_MAX
    && var t := SettlementTransfer(h.world.ledger, k);
    && h'.world.ledger == Mark(h.world.ledger, k)
    && if t.payout.amount == 0 then h'.bank == h.bank && h'.world.transfers == h.world.transfers
       else && Affordable(h.bank, t)
            && h'.bank == TransferFrom(h.bank, t) && h'.world.transfers == h.world.transfers + [t]
  }

  lemma KeepOne(b: Bank, t: Transfer)
    requires Affordable(b, t)
    ensures KeepBooks(b, [t]) == TransferFrom(b, t)
  {
    assert [t][1..] == [];
  }

  /** A keeper's settlement either changes nothing or is one settlement. */
  lemma KeeperEffect(h: HonestWorld, ctx: Ctx, owner: Address, k: PeriodKey)
    requires TalliesOk(h.world.ledger)
    ensures KeeperSettles(h, ctx, owner, k) == h || Settlement(h, KeeperSettles(h, ctx, owner, k), k)
  {
    if k.code in h.world.ledger.shared && h.world.ledger.shared[k.code].payoutToken.Some? {
      var hold := Holding(h.world.ledger.shared[k.code].payoutToken.value, owner);
      var a := Get(h.bank.allowances, hold, 0);
      var b := Get(h.bank.balances, hold, 0);
      HonestSettleIff(h.world, ctx, owner, k, a, b);
      var d := SettleWith(h.world, ctx, owner, k, a, b);
      var new_ := d.world.transfers[Min(|h.world.transfers|, |d.world.transfers|)..];
      if d.reply.Err? {
        assert new_ == [];
      } else {
        BatchShape(h.world.ledger, k);
        assert new_ == BatchOf(h.world.ledger, k);
        if h.world.ledger.tallies[k].count != 0 {
          assert Due(h.world.ledger, k) > 0;
          KeepOne(h.bank, SettlementTransfer(h.world.ledger, k));
        } else {
          assert h.world.transfers + [] == h.world.transfers;
        }
      }
    }
  }

  lemma NextIsReachable(h: HonestWorld, step: Step)
    requires Reachable(h.world)
    ensures Reachable(Next(h, step).world)
  {
    match step
    case Other(f) => ReachableThen(h.world, f);
    case Approve(_, _, _) =>
    case MoveElsewhere(_, _, _, _) =>
    case Keeper(ctx, owner, k) =>
      if k.code in h.world.ledger.shared && h.world.ledger.shared[k.code].payoutToken.Some? {
        var hold := Holding(h.world.ledger.shared[k.code].payoutToken.value, owner);
        ReachableThen(h.world, Frame(ctx, Settle(owner, k.code.campaign, k.code.code, k.period,
                                                 Honest(Get(h.bank.allowances, hold, 0), Get(h.bank.balances, hold, 0)))));
      }
  }

  lemma OtherCallsDoNotPay(w: World, f: Frame)
    requires !f.call.Settle?
    ensures Exec(w, f).world.transfers == w.transfers
  {
  }

  lemma SettlementWithinApprovals(h: HonestWorld, h': HonestWorld, k: PeriodKey)
    requires WithinApprovals(h) && Settlement(h, h', k)
    ensures WithinApprovals(h')
  {
    var t := SettlementTransfer(h.world.ledger, k);
    if t.payout.amount != 0 {
      forall x ensures Outflow(h'.world.transfers, x) + Get(h'.bank.allowances, x, 0) <= Get(h'.bank.approved, x, 0) {
        assert (h.world.transfers + [t])[..|h.world.transfers|] == h.world.transfers;
        assert Outflow(h.world.transfers, x) + Get(h.bank.allowances, x, 0) <= Get(h.bank.approved, x, 0);
      }
    }
  }

  lemma SettlementKeepsSupply(h: HonestWorld, h': HonestWorld, k: PeriodKey, token: Address)
    requires Settlement(h, h', k)
    ensures Supply(h'.bank, token) == Supply(h.bank, token)
  {
    var t := SettlementTransfer(h.world.ledger, k);
    if t.payout.amount != 0 {
      var own := Holding(t.token, t.from);
      var b1 := h.bank.(allowances := h.bank.allowances[own := h.bank.allowances[own] - t.payout.amount]);
      MoveKeepsSupply(b1, t.token, t.from, t.payout.to, t.payout.amount, token);
    }
  }

  lemma NextConserves(h: HonestWorld, step: Step, token: Address)
    requires TalliesOk(h.world.ledger) && WithinApprovals(h)
    ensures WithinApprovals(Next(h, step)) && Supply(Next(h, step).bank, token) == Supply(h.bank, token)
  {
    match step
    case Other(f) => if !f.call.Settle? { OtherCallsDoNotPay(h.world, f); }
    case Approve(_, _, _) =>
    case MoveElsewhere(t, from, to, amount) =>
      if amount <= Get(h.bank.balances, Holding(t, from), 0) { MoveKeepsSupply(h.bank, t, from, to, amount, token); }
    case Keeper(ctx, owner, k) =>
      var h' := KeeperSettles(h, ctx, owner, k);
      KeeperEffect(h, ctx, owner, k);
      if h' != h {
        SettlementWithinApprovals(h, h', k);
        SettlementKeepsSupply(h, h', k, token);
      }
  }

  /** Conservation over whole runs with an honest token, keepers interleaved: the token's supply is
      what it was, and no holder ever pays out more than it approved in total. */
  lemma {:induction false} Conservation(h: HonestWorld, steps: seq<Step>, k: Holding)
    requires Reachable(h.world) && WithinApprovals(h)
    ensures var h' := Run(h, steps);
            && Reachable(h'.world)
            && Outflow(h'.world.transfers, k) + Get(h'.bank.allowances, k, 0) <= Get(h'.bank.approved, k, 0)
            && Supply(h'.bank, k.token) == Supply(h.bank, k.token)
    decreases |steps|
  {
    if steps != [] {
      ReachableIsPaid(h.world);
      NextIsReachable(h, steps[0]);
      NextConserves(h, steps[0], k.token);
      Conservation(Next(h, steps[0]), steps[1..], k);
    }
  }
}
