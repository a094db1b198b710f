/** The entry points that write, one by one: when each of them succeeds, and what it has then put on
    record. Creation, batches and redemptions succeed as `LedgerHistory` says. */
module LedgerEntries {
  import opened Basics
  import opened LedgerTypes
  import opened LedgerSpec
  import opened LedgerExec
  import opened LedgerInvariant
  import opened LedgerHistory
  import LedgerMoney

  // ── what is written ────────────────────────────────────────────────

  /** A new campaign has the next id, the terms asked for, and nothing issued. */
  lemma CreationRecords(s: State, ctx: Ctx, owner: Address, name: string, discountType: string,
                        discountValue: u64, totalSupply: u32, validUntil: u64)
    requires Apply(s, ctx, CreateCampaign(owner, name, discountType, discountValue, totalSupply, validUntil)).reply.Ok?
    ensures var o := Apply(s, ctx, CreateCampaign(owner, name, discountType, discountValue, totalSupply, validUntil));
            var id := s.campCtr + 1;
            var t := o.state;
            && o.reply == Ok(CampaignId(id)) && t.campCtr == id
            && t.campaigns == s.campaigns[id := Campaign(id, owner, name, discountType, discountValue, totalSupply, 0, 0, validUntil)]
            && t == s.(campCtr := id, campaigns := t.campaigns, ownerCampaign := t.ownerCampaign,
                       ownerSlot := t.ownerSlot, ownerCount := t.ownerCount)
  {
  }

  lemma {:induction false} MintAllCounts(s: State, campaign: u64, codes: seq<string>, now: u64)
    requires campaign in s.campaigns && s.campaigns[campaign].minted + |codes| <= U32_MAX
    requires MintAll(s, campaign, codes, now).Ok?
    ensures var t := MintAll(s, campaign, codes, now).value;
            var c := s.campaigns[campaign];
            && t.campaigns == s.campaigns[campaign := c.(minted := c.minted + |codes|)]
            && t == s.(tokenCtr := t.tokenCtr, tokens := t.tokens, codeIndex := t.codeIndex, campaigns := t.campaigns)
    decreases |codes|
  {
    if codes == [] {
      assert s.campaigns[campaign].(minted := s.campaigns[campaign].minted + 0) == s.campaigns[campaign];
      assert s.campaigns == s.campaigns[campaign := s.campaigns[campaign]];
    } else {
      MintAllCounts(MintOne(s, campaign, codes[0], now), campaign, codes[1..], now);
    }
  }

  lemma {:induction false} MintAllIndexes(s: State, campaign: u64, codes: seq<string>, now: u64)
    requires campaign in s.campaigns && s.campaigns[campaign].minted + |codes| <= U32_MAX
    requires MintAll(s, campaign, codes, now).Ok?
    ensures var t := MintAll(s, campaign, codes, now).value;
            && t.tokenCtr == s.tokenCtr + |codes|
            && forall k :: k in t.codeIndex <==> k in s.codeIndex || (k.campaign == campaign && k.code in codes)
    decreases |codes|
  {
    if codes != [] {
      assert codes == [codes[0]] + codes[1..];
      MintAllIndexes(MintOne(s, campaign, codes[0], now), campaign, codes[1..], now);
    }
  }

  /** A batch moves the campaign's counter by its length and touches tokens and their index alone. */
  lemma BatchRecords(s: State, ctx: Ctx, owner: Address, campaign: u64, codes: seq<string>)
    requires Apply(s, ctx, IssueUnique(owner, campaign, codes)).reply.Ok?
    ensures campaign in s.campaigns && s.campaigns[campaign].minted + |codes| <= U32_MAX
    ensures var t := Apply(s, ctx, IssueUnique(owner, campaign, codes)).state;
            var c := s.campaigns[campaign];
            && t.campaigns == s.campaigns[campaign := c.(minted := c.minted + |codes|)]
            && t == s.(tokenCtr := t.tokenCtr, tokens := t.tokens, codeIndex := t.codeIndex, campaigns := t.campaigns)
  {
    MintAllCounts(s, campaign, codes, ctx.now);
  }

  /** A redemption burns the token under its code, with the commitment and the time, counts it, and
      changes nothing else; the receipt repeats the campaign's terms. */
  lemma RedemptionRecords(w: World, ctx: Ctx, who: Address, campaign: u64, code: string, ref: Bytes32)
    requires Reachable(w) && Apply(w.ledger, ctx, RedeemUnique(who, campaign, code, ref)).reply.Ok?
    ensures campaign in w.ledger.campaigns && CodeKey(campaign, code) in w.ledger.codeIndex
    ensures var s := w.ledger;
            var id := s.codeIndex[CodeKey(campaign, code)];
            var c := s.campaigns[campaign];
            var o := Apply(s, ctx, RedeemUnique(who, campaign, code, ref));
            && id in s.tokens && c.burned < U32_MAX
            && o.state == s.(tokens := s.tokens[id := s.tokens[id].(isBurned := true, redeemerRef := ref, burnedAt := ctx.now)],
                             campaigns := s.campaigns[campaign := c.(burned := c.burned + 1)])
            && o.reply == Ok(Redeemed(Receipt(id, code, campaign, c.name, c.discountType, c.discountValue, ref, ctx.now, ctx.seqNo)))
  {
    ReachableCode(w, campaign, code);
    ReachableOwners(w);
  }

  /** A shared code is registered by the owner of a live campaign, under a well-formed new code, with a
      payout token exactly when there is a positive rate and somebody to pay; and once it is, with
      exactly these terms. */
  lemma RegistrationIff(s: State, ctx: Ctx, owner: Address, campaign: u64, code: string, at: Option<Address>,
                        token: Option<Address>, rate: i128)
    ensures var o := Apply(s, ctx, RegisterShared(owner, campaign, code, at, token, rate));
            var k := CodeKey(campaign, code);
            && (o.reply.Ok? <==>
                  && SignedByOwner(s, ctx, owner, campaign) && ctx.now <= s.campaigns[campaign].validUntil
                  && 1 <= |code| <= 64 && k !in s.shared
                  && if token.Some? then at.Some? && rate > 0 else rate == 0)
            && o.state == if o.reply.Ok? then s.(shared := s.shared[k := SharedCode(campaign, code, at, token, rate, ctx.now)]) else s
  {
  }

  /** The credits of a commit are those of the code: none, or the whole count to its one target. */
  ghost predicate CreditsAsRegistered(sc: SharedCode, m: Attribution, count: u32) {
    match sc.attributedTo
    case None => m == []
    case Some(target) => m == [Entry(target, count)] || (m == [] && count == 0)
  }

  /** A tally is committed by the campaign's owner for a registered code and a new period, credited as
      the code says; expiry does not matter. It is then on record as it was sent. */
  lemma CommitIff(s: State, ctx: Ctx, owner: Address, campaign: u64, code: string, period: u64, count: u32,
                  root: Bytes32, m: Attribution)
    ensures var o := Apply(s, ctx, CommitTally(owner, campaign, code, period, count, root, m));
            var ck := CodeKey(campaign, code);
            var k := PeriodKey(ck, period);
            && (o.reply.Ok? <==>
                  && SignedByOwner(s, ctx, owner, campaign) && ck in s.shared && k !in s.tallies
                  && CreditsAsRegistered(s.shared[ck], m, count))
            && o.state == if o.reply.Ok? then s.(tallies := s.tallies[k := Tally(period, count, root, m)]) else s
  {
  }

  /** Credits for anybody but the target are a mismatch, a wrong sum for the target is invalid. */
  lemma WrongCredits(s: State, ctx: Ctx, owner: Address, campaign: u64, code: string, period: u64, count: u32,
                     root: Bytes32, m: Attribution)
    requires SignedByOwner(s, ctx, owner, campaign) && CodeKey(campaign, code) in s.shared
    requires PeriodKey(CodeKey(campaign, code), period) !in s.tallies
    requires !CreditsAsRegistered(s.shared[CodeKey(campaign, code)], m, count)
    ensures var at := s.shared[CodeKey(campaign, code)].attributedTo;
            Apply(s, ctx, CommitTally(owner, campaign, code, period, count, root, m)).reply
              == Err(if at.Some? && forall i :: 0 <= i < |m| ==> m[i].addr == at.value then InvalidTally else AttributionMismatch)
  {
  }

  // ── why a call is refused ──────────────────────────────────────────

  /** Without the owner's signature for an existing campaign of theirs. */
  ghost predicate RefusesStranger(s: State, ctx: Ctx, owner: Address, campaign: u64, r: Reply) {
    if owner !in ctx.signed then r == Err(AuthTrap)
    else if campaign !in s.campaigns then r == Err(CampaignNotFound)
    else s.campaigns[campaign].owner != owner && r == Err(Unauthorized)
  }

  lemma CreationRefusals(w: World, ctx: Ctx, owner: Address, name: string, discountType: string, discountValue: u64,
                         totalSupply: u32, validUntil: u64)
    requires Reachable(w)
    ensures var r := Apply(w.ledger, ctx, CreateCampaign(owner, name, discountType, discountValue, totalSupply, validUntil)).reply;
            r.Err? ==> r.error == if owner !in ctx.signed then AuthTrap
                                  else if totalSupply == 0 || validUntil <= ctx.now || !(1 <= |name| <= 96 && 1 <= |discountType| <= 32)
                                  then InvalidTerms else OverflowTrap
  {
    TermsAreTheOnlyReason(w, ctx, owner, name, discountType, discountValue, totalSupply, validUntil);
    ReachableOwners(w);
    OwnerCountBounded(w.ledger, owner);
  }

  lemma BatchRefusals(s: State, ctx: Ctx, owner: Address, campaign: u64, codes: seq<string>)
    ensures var r := Apply(s, ctx, IssueUnique(owner, campaign, codes)).reply;
            r.Err? ==>
              if !SignedByOwner(s, ctx, owner, campaign) then RefusesStranger(s, ctx, owner, campaign, r)
              else if ctx.now > s.campaigns[campaign].validUntil then r.error == CampaignExpired
              else if codes == [] then r.error == InvalidCode
              else if |codes| > 100 then r.error == BatchTooLarge
              else if s.campaigns[campaign].minted + |codes| > s.campaigns[campaign].totalSupply then r.error == SupplyExhausted
              else r.error in {InvalidCode, CodeTooLong, DuplicateCode, OverflowTrap}
  {
    if SignedByOwner(s, ctx, owner, campaign) && s.campaigns[campaign].minted + |codes| <= U32_MAX {
      MintAllErrors(s, campaign, codes, ctx.now);
    }
  }

  /** The first code that cannot be minted decides. */
  lemma {:induction false} MintAllErrors(s: State, campaign: u64, codes: seq<string>, now: u64)
    requires campaign in s.campaigns && s.campaigns[campaign].minted + |codes| <= U32_MAX
    ensures MintAll(s, campaign, codes, now).Err? ==>
              match MintAll(s, campaign, codes, now).error
              case InvalidCode => "" in codes
              case CodeTooLong => exists i :: 0 <= i < |codes| && |codes[i]| > 64
              case DuplicateCode =>
                || (exists i :: 0 <= i < |codes| && CodeKey(campaign, codes[i]) in s.codeIndex)
                || (exists i, j :: 0 <= i < j < |codes| && codes[i] == codes[j])
              case OverflowTrap => s.tokenCtr + |codes| > U64_MAX
              case _ => false
    decreases |codes|
  {
    if codes != [] && MintError(s, campaign, codes[0]).None? {
      MintAllErrors(MintOne(s, campaign, codes[0], now), campaign, codes[1..], now);
      assert forall i :: 0 <= i < |codes[1..]| ==> codes[1..][i] == codes[i + 1];
    }
  }

  lemma RegistrationRefusals(s: State, ctx: Ctx, owner: Address, campaign: u64, code: string, at: Option<Address>,
                             token: Option<Address>, rate: i128)
    ensures var r := Apply(s, ctx, RegisterShared(owner, campaign, code, at, token, rate)).reply;
            r.Err? ==>
              if !SignedByOwner(s, ctx, owner, campaign) then RefusesStranger(s, ctx, owner, campaign, r)
              else if ctx.now > s.campaigns[campaign].validUntil then r.error == CampaignExpired
              else if code == "" then r.error == InvalidCode
              else if |code| > 64 then r.error == CodeTooLong
              else if !(if token.Some? then at.Some? && rate > 0 else rate == 0) then r.error == InvalidSettlement
              else CodeKey(campaign, code) in s.shared && r.error == AlreadyRegistered
  {
  }

  lemma CommitRefusals(s: State, ctx: Ctx, owner: Address, campaign: u64, code: string, period: u64, count: u32,
                       root: Bytes32, m: Attribution)
    ensures var r := Apply(s, ctx, CommitTally(owner, campaign, code, period, count, root, m)).reply;
            var ck := CodeKey(campaign, code);
            r.Err? ==>
              if !SignedByOwner(s, ctx, owner, campaign) then RefusesStranger(s, ctx, owner, campaign, r)
              else if ck !in s.shared then r.error == SharedNotFound
              else if PeriodKey(ck, period) in s.tallies then r.error == PeriodCommitted
              else r.error in {AttributionMismatch, InvalidTally}
  {
  }

  /** What a settlement is refused for before the token is asked, in order. */
  ghost function SettleError(s: State, owner: Address, k: PeriodKey): Option<Error> {
    if k.code.campaign !in s.campaigns then Some(CampaignNotFound)
    else if s.campaigns[k.code.campaign].owner != owner then Some(Unauthorized)
    else if k.code !in s.shared then Some(SharedNotFound)
    else if s.shared[k.code].payoutToken.None? then Some(InvalidSettlement)
    else if k !in s.tallies then Some(TallyNotFound)
    else if k in s.settled then Some(AlreadySettled)
    else if s.tallies[k].count * s.shared[k.code].payoutRate > I128_MAX then Some(InvalidSettlement)
    else None
  }

  lemma PlanRefusals(s: State, owner: Address, k: PeriodKey)
    requires TalliesOk(s)
    ensures var p := PlanSettle(s, owner, k.code.campaign, k.code.code, k.period);
            if SettleError(s, owner, k).Some? then p == Err(SettleError(s, owner, k).value) else p.Ok? && p.value.key == k
  {
    LedgerMoney.PlanIff(s, owner, k);
    assert PeriodKey(CodeKey(k.code.campaign, k.code.code), k.period) == k;
    if k in s.tallies && k.code in s.shared { OnlyOneError(s.tallies[k].perAttribution, s.shared[k.code].payoutRate); }
  }

  /** A settlement needs no signature. What it decides by itself it refuses in that order; the rest is
      up to the token. */
  lemma SettlementRefusals(w: World, ctx: Ctx, owner: Address, k: PeriodKey, token: TokenBehaviour)
    requires Reachable(w)
    ensures var r := Exec(w, Frame(ctx, Settle(owner, k.code.campaign, k.code.code, k.period, token))).reply;
            if SettleError(w.ledger, owner, k).Some? then r == Err(SettleError(w.ledger, owner, k).value)
            else r.Ok? || r == Err(TokenTrap) || r == Err(InvalidSettlement)
  {
    ReachableIsGood(w);
    PlanRefusals(w.ledger, owner, k);
    var p := PlanSettle(w.ledger, owner, k.code.campaign, k.code.code, k.period);
    if p.Ok? { PayErrors(World(Mark(w.ledger, k), w.transfers), p.value, token); }
  }

  lemma {:induction false} TransfersTrap(w: World, plan: Plan, ps: seq<Payout>, replies: seq<TokenReply>)
    ensures var r := PayEach(w, plan, ps, replies); r.Ok? || r == Err(TokenTrap)
    decreases replies, |ps|
  {
    if ps != [] {
      if replies == [] {
        TransfersTrap(Record(w, plan, ps[0]), plan, ps[1..], []);
      } else {
        TransfersTrap(Record(ExecAll(w, replies[0].reentry), plan, ps[0]), plan, ps[1..], replies[1..]);
      }
    }
  }

  lemma PayErrors(w: World, plan: Plan, token: TokenBehaviour)
    ensures var r := Pay(w, plan, token); r.Ok? || r == Err(TokenTrap) || r == Err(InvalidSettlement)
  {
    var w2 := ExecAll(ExecAll(w, token.allowance.reentry), token.balance.reentry);
    TransfersTrap(w2, plan, plan.payouts, token.transfers);
  }

  // ── codes on the ledger ────────────────────────────────────────────

  ghost predicate ShortCodes(s: State) { forall k :: k in s.shared ==> 1 <= |k.code| <= 64 }

  lemma RegisteredCodesAreShort(w: World)
    requires Reachable(w)
    ensures ShortCodes(w.ledger)
  {
    var run :| w == ExecAll(EmptyWorld, run);
    ShortCodesStay();
    ExecAllKeeps(s => ShortCodes(s), EmptyWorld, run);
  }

  lemma ShortCodesStay()
    ensures ClosedUnderWrites(s => ShortCodes(s))
  {
  }
}
