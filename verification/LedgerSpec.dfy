/** What each entry point of the contract does to the storage, as one function per entry point.
    A call that fails leaves no trace, because the host rolls its writes back. */
module LedgerSpec {
  import opened Basics
  import opened LedgerTypes

  datatype Outcome = Outcome(state: State, reply: Reply)

  function Fail(s: State, e: Error): Outcome { Outcome(s, Err(e)) }

  function Get<K, V>(m: map<K, V>, k: K, default: V): V { if k in m then m[k] else default }

  predicate Expired(c: Campaign, now: u64) { now > c.validUntil }

  // ── campaigns ──────────────────────────────────────────────────────

  predicate ValidTerms(name: string, discountType: string, totalSupply: u32, validUntil: u64, now: u64) {
    && totalSupply > 0
    && 0 < |name| <= MAX_NAME_LEN
    && 0 < |discountType| <= MAX_DISCOUNT_TYPE_LEN
    && validUntil > now
  }

  function Create(s: State, ctx: Ctx, owner: Address, name: string, discountType: string, discountValue: u64,
                  totalSupply: u32, validUntil: u64): Outcome
  {
    if owner !in ctx.signed then Fail(s, AuthTrap)
    else if !ValidTerms(name, discountType, totalSupply, validUntil, ctx.now) then Fail(s, InvalidTerms)
    else if s.campCtr == U64_MAX then Fail(s, OverflowTrap)
    else if Get(s.ownerCount, owner, 0) == U64_MAX then Fail(s, InvalidTerms)
    else Outcome(AddCampaign(s, Campaign(s.campCtr + 1, owner, name, discountType, discountValue,
                                         totalSupply, 0, 0, validUntil)),
                 Ok(CampaignId(s.campCtr + 1)))
  }

  function AddCampaign(s: State, c: Campaign): State
    requires s.campCtr < U64_MAX && Get(s.ownerCount, c.owner, 0) < U64_MAX
  {
    var slot := Get(s.ownerCount, c.owner, 0);
    s.(campCtr := s.campCtr + 1,
       campaigns := s.campaigns[c.id := c],
       ownerCampaign := s.ownerCampaign[SlotKey(c.owner, slot) := c.id],
       ownerSlot := s.ownerSlot[c.id := slot],
       ownerCount := s.ownerCount[c.owner := slot + 1])
  }

  function OwnerError(s: State, campaign: u64, caller: Address): Option<Error> {
    if campaign !in s.campaigns then Some(CampaignNotFound)
    else if caller != s.campaigns[campaign].owner then Some(Unauthorized)
    else None
  }

  function SetDelegate(s: State, ctx: Ctx, owner: Address, campaign: u64, who: Address, on: bool): Outcome {
    if owner !in ctx.signed then Fail(s, AuthTrap)
    else match OwnerError(s, campaign, owner)
      case Some(e) => Fail(s, e)
      case None =>
        var d := DelegateKey(campaign, who);
        Outcome(WriteDelegates(s, if on then s.delegates + {d} else s.delegates - {d}), Ok(Unit))
  }

  function WriteDelegates(s: State, d: set<DelegateKey>): State { s.(delegates := d) }

  // ── unique codes ───────────────────────────────────────────────────

  function CodeError(code: string): Option<Error> {
    if |code| == 0 then Some(InvalidCode)
    else if |code| > MAX_CODE_LEN then Some(CodeTooLong)
    else None
  }

  /** One more token of `campaign`; the campaign's own counter moves with it. */
  function MintOne(s: State, campaign: u64, code: string, now: u64): State
    requires campaign in s.campaigns && s.campaigns[campaign].minted < U32_MAX && s.tokenCtr < U64_MAX
  {
    var id := s.tokenCtr + 1;
    var c := s.campaigns[campaign];
    s.(tokenCtr := id,
       tokens := s.tokens[id := Token(id, campaign, code, false, now, 0, 0)],
       codeIndex := s.codeIndex[CodeKey(campaign, code) := id],
       campaigns := s.campaigns[campaign := c.(minted := c.minted + 1)])
  }

  /** Why one code cannot be minted now. */
  function MintError(s: State, campaign: u64, code: string): Option<Error> {
    if CodeError(code).Some? then CodeError(code)
    else if CodeKey(campaign, code) in s.codeIndex then Some(DuplicateCode)
    else if s.tokenCtr == U64_MAX then Some(OverflowTrap)
    else None
  }

  /** A batch is its codes minted one after the other, or nothing at all. */
  function MintAll(s: State, campaign: u64, codes: seq<string>, now: u64): (r: Result<State, Error>)
    requires campaign in s.campaigns && s.campaigns[campaign].minted + |codes| <= U32_MAX
    decreases |codes|
  {
    if codes == [] then Ok(s)
    else match MintError(s, campaign, codes[0])
      case Some(e) => Err(e)
      case None => MintAll(MintOne(s, campaign, codes[0], now), campaign, codes[1..], now)
  }

  function IssueGuard(s: State, ctx: Ctx, owner: Address, campaign: u64, count: nat): Option<Error> {
    if owner !in ctx.signed then Some(AuthTrap)
    else if OwnerError(s, campaign, owner).Some? then OwnerError(s, campaign, owner)
    else if Expired(s.campaigns[campaign], ctx.now) then Some(CampaignExpired)
    else if count == 0 then Some(InvalidCode)
    else if count > MAX_BATCH then Some(BatchTooLarge)
    else if s.campaigns[campaign].minted + count > U32_MAX then Some(SupplyExhausted)
    else if s.campaigns[campaign].minted + count > s.campaigns[campaign].totalSupply then Some(SupplyExhausted)
    else None
  }

  function Issue(s: State, ctx: Ctx, owner: Address, campaign: u64, codes: seq<string>): Outcome {
    match IssueGuard(s, ctx, owner, campaign, |codes|)
    case Some(e) => Fail(s, e)
    case None =>
      match MintAll(s, campaign, codes, ctx.now)
      case Err(e) => Fail(s, e)
      case Ok(s') => Outcome(s', Ok(TokenIds(NewIds(s.tokenCtr, s'.tokenCtr))))
  }

  function NewIds(before: u64, after: u64): (ids: seq<u64>)
    decreases after
  {
    if after <= before then [] else NewIds(before, after - 1) + [after]
  }

  function Burn(s: State, ctx: Ctx, authorizer: Address, campaign: u64, code: string, ref: Bytes32): Outcome {
    if authorizer !in ctx.signed then Fail(s, AuthTrap)
    else if CodeKey(campaign, code) !in s.codeIndex then Fail(s, CouponNotFound)
    else
      var id := s.codeIndex[CodeKey(campaign, code)];
      if id !in s.tokens then Fail(s, CouponNotFound)
      else if s.tokens[id].isBurned then Fail(s, AlreadyRedeemed)
      else
        var t := s.tokens[id];
        if t.campaignId !in s.campaigns then Fail(s, CampaignNotFound)
        else
          var c := s.campaigns[t.campaignId];
          if authorizer != c.owner && DelegateKey(t.campaignId, authorizer) !in s.delegates then Fail(s, Unauthorized)
          else if Expired(c, ctx.now) then Fail(s, CampaignExpired)
          else if c.burned == U32_MAX then Fail(s, OverflowTrap)
          else Outcome(BurnToken(s, id, ref, ctx.now),
                       Ok(Redeemed(Receipt(id, code, c.id, c.name, c.discountType, c.discountValue,
                                           ref, ctx.now, ctx.seqNo))))
  }

  function BurnToken(s: State, id: u64, ref: Bytes32, now: u64): State
    requires id in s.tokens && s.tokens[id].campaignId in s.campaigns
    requires s.campaigns[s.tokens[id].campaignId].burned < U32_MAX
  {
    var t := s.tokens[id];
    var c := s.campaigns[t.campaignId];
    s.(tokens := s.tokens[id := t.(isBurned := true, redeemerRef := ref, burnedAt := now)],
       campaigns := s.campaigns[t.campaignId := c.(burned := c.burned + 1)])
  }

  predicate IsValid(s: State, now: u64, campaign: u64, code: string) {
    && CodeKey(campaign, code) in s.codeIndex
    && var id := s.codeIndex[CodeKey(campaign, code)];
    && id in s.tokens
    && !s.tokens[id].isBurned
    && s.tokens[id].campaignId in s.campaigns
    && now <= s.campaigns[s.tokens[id].campaignId].validUntil
  }

  // ── shared codes and tallies ───────────────────────────────────────

  /** Settlement terms that registration accepts: a token exactly when the rate is positive, and
      only with somebody to pay. */
  predicate GoodTerms(attributedTo: Option<Address>, payoutToken: Option<Address>, payoutRate: i128) {
    && (payoutToken.Some? ==> attributedTo.Some? && payoutRate > 0)
    && (payoutToken.None? ==> payoutRate == 0)
  }

  function Register(s: State, ctx: Ctx, owner: Address, campaign: u64, code: string, attributedTo: Option<Address>,
                    payoutToken: Option<Address>, payoutRate: i128): Outcome
  {
    if owner !in ctx.signed then Fail(s, AuthTrap)
    else if OwnerError(s, campaign, owner).Some? then Fail(s, OwnerError(s, campaign, owner).value)
    else if Expired(s.campaigns[campaign], ctx.now) then Fail(s, CampaignExpired)
    else if CodeError(code).Some? then Fail(s, CodeError(code).value)
    else if !GoodTerms(attributedTo, payoutToken, payoutRate) then Fail(s, InvalidSettlement)
    else if CodeKey(campaign, code) in s.shared then Fail(s, AlreadyRegistered)
    else Outcome(
        WriteShared(s, CodeKey(campaign, code),
                    SharedCode(campaign, code, attributedTo, payoutToken, payoutRate, ctx.now)),
        Ok(Unit))
  }

  function WriteShared(s: State, k: CodeKey, sc: SharedCode): State { s.(shared := s.shared[k := sc]) }

  function WriteTally(s: State, k: PeriodKey, t: Tally): State { s.(tallies := s.tallies[k := t]) }

  /** What an attributed code may be credited with: its target, with the whole count. */
  predicate CreditsOnly(m: Attribution, target: Address, count: u32) {
    m == [Entry(target, count)] || (m == [] && count == 0)
  }

  function AttributionError(attributedTo: Option<Address>, m: Attribution, count: u32): Option<Error> {
    match attributedTo
    case None => if m == [] then None else Some(AttributionMismatch)
    case Some(target) =>
      if exists i :: 0 <= i < |m| && m[i].addr != target then Some(AttributionMismatch)
      else if CreditsOnly(m, target, count) then None
      else Some(InvalidTally)
  }

  function Commit(s: State, ctx: Ctx, owner: Address, campaign: u64, code: string, period: u64, count: u32,
                  root: Bytes32, m: Attribution): Outcome
  {
    var ck := CodeKey(campaign, code);
    var key := PeriodKey(ck, period);
    if owner !in ctx.signed then Fail(s, AuthTrap)
    else if OwnerError(s, campaign, owner).Some? then Fail(s, OwnerError(s, campaign, owner).value)
    else if ck !in s.shared then Fail(s, SharedNotFound)
    else if key in s.tallies then Fail(s, PeriodCommitted)
    else if AttributionError(s.shared[ck].attributedTo, m, count).Some? then
      Fail(s, AttributionError(s.shared[ck].attributedTo, m, count).value)
    else Outcome(WriteTally(s, key, Tally(period, count, root, m)), Ok(Unit))
  }

  /** The subtraction saturates at zero. */
  function CampaignStats(s: State, now: u64, campaign: u64): Result<Stats, Error> {
    if campaign !in s.campaigns then Err(CampaignNotFound)
    else
      var c := s.campaigns[campaign];
      Ok(Stats(c.totalSupply, c.minted, c.burned, if c.minted < c.burned then 0 else c.minted - c.burned, now > c.validUntil))
  }

  // ── settlement ─────────────────────────────────────────────────────

  /** The preview: every entry times the rate, or an error when a product leaves i128. */
  function Payouts(m: seq<Entry>, rate: i128): (r: Result<seq<Payout>, Error>) {
    if m == [] then Ok([]) else Charge(m[0], rate, Payouts(m[1..], rate))
  }

  /** One entry in front of the payouts of the others. */
  function Charge(e: Entry, rate: i128, others: Result<seq<Payout>, Error>): Result<seq<Payout>, Error> {
    if !(I128_MIN <= e.count * rate <= I128_MAX) then Err(InvalidSettlement)
    else if others.Err? then others
    else Ok([Payout(e.addr, e.count * rate)] + others.value)
  }

  lemma {:induction false} OnlyOneError(m: seq<Entry>, rate: i128)
    ensures Payouts(m, rate).Err? ==> Payouts(m, rate) == Err(InvalidSettlement)
  {
    if m != [] { OnlyOneError(m[1..], rate); }
  }

  function ComputePayouts(s: State, key: PeriodKey): Result<seq<Payout>, Error> {
    if key.code !in s.shared then Err(SharedNotFound)
    else if key !in s.tallies then Err(TallyNotFound)
    else Payouts(s.tallies[key].perAttribution, s.shared[key.code].payoutRate)
  }

  function Positive(ps: seq<Payout>): (r: seq<Payout>)
    ensures forall i :: 0 <= i < |r| ==> r[i].amount > 0
  {
    if ps == [] then [] else (if ps[0].amount > 0 then [ps[0]] else []) + Positive(ps[1..])
  }

  function Total(ps: seq<Payout>): (t: int)
    ensures (forall i :: 0 <= i < |ps| ==> ps[i].amount > 0) ==> t >= 0
  {
    if ps == [] then 0 else ps[0].amount + Total(ps[1..])
  }

  datatype Plan = Plan(key: PeriodKey, token: Address, owner: Address, payouts: seq<Payout>, total: i128)

  /** Everything `settle` decides before it writes or talks to the token. */
  function PlanSettle(s: State, owner: Address, campaign: u64, code: string, period: u64): Result<Plan, Error> {
    var ck := CodeKey(campaign, code);
    var key := PeriodKey(ck, period);
    if OwnerError(s, campaign, owner).Some? then Err(OwnerError(s, campaign, owner).value)
    else if ck !in s.shared then Err(SharedNotFound)
    else if s.shared[ck].payoutToken.None? then Err(InvalidSettlement)
    else if s.shared[ck].payoutRate <= 0 then Err(InvalidSettlement)
    else if key !in s.tallies then Err(TallyNotFound)
    else if key in s.settled then Err(AlreadySettled)
    else match Payouts(s.tallies[key].perAttribution, s.shared[ck].payoutRate)
      case Err(e) => Err(e)
      case Ok(ps) =>
        if Total(Positive(ps)) > I128_MAX then Err(InvalidSettlement)
        else Ok(Plan(key, s.shared[ck].payoutToken.value, owner, Positive(ps), Total(Positive(ps))))
  }

  function Mark(s: State, key: PeriodKey): State { s.(settled := s.settled + {key}) }

  /** Every entry point but `settle`, which talks to a foreign contract on the way. */
  function Apply(s: State, ctx: Ctx, call: Call): Outcome
    requires !call.Settle?
  {
    match call
    case CreateCampaign(owner, name, dt, dv, supply, until) => Create(s, ctx, owner, name, dt, dv, supply, until)
    case AddDelegate(owner, campaign, who) => SetDelegate(s, ctx, owner, campaign, who, true)
    case RemoveDelegate(owner, campaign, who) => SetDelegate(s, ctx, owner, campaign, who, false)
    case IssueUnique(owner, campaign, codes) => Issue(s, ctx, owner, campaign, codes)
    case RedeemUnique(authorizer, campaign, code, ref) => Burn(s, ctx, authorizer, campaign, code, ref)
    case RegisterShared(owner, campaign, code, at, tok, rate) => Register(s, ctx, owner, campaign, code, at, tok, rate)
    case CommitTally(owner, campaign, code, period, count, root, m) =>
      Commit(s, ctx, owner, campaign, code, period, count, root, m)
  }
}
