/** Whole runs of the contract: what never changes once written, what happens at most once, and
    what the read-only entry points promise about the next call. */
module LedgerHistory {
  import opened Basics
  import opened LedgerTypes
  import opened LedgerSpec
  import opened LedgerExec
  import opened LedgerInvariant

  // ── history only grows ─────────────────────────────────────────────

  ghost predicate SameTerms(a: Campaign, b: Campaign) {
    b == a.(minted := b.minted, burned := b.burned) && a.minted <= b.minted && a.burned <= b.burned
  }

  /** A token keeps its identity; once burned it never changes again. */
  ghost predicate SameToken(a: Token, b: Token) {
    && b == a.(isBurned := b.isBurned, redeemerRef := b.redeemerRef, burnedAt := b.burnedAt)
    && (a.isBurned ==> b == a)
  }

  ghost predicate Contains<K, V>(big: map<K, V>, small: map<K, V>) {
    forall k :: k in small ==> k in big && big[k] == small[k]
  }

  /** Everything that is on record in `a` is still on record in `b`. */
  ghost predicate Extends(a: State, b: State) {
    && a.campCtr <= b.campCtr && a.tokenCtr <= b.tokenCtr
    && (forall c :: c in a.campaigns ==> c in b.campaigns && SameTerms(a.campaigns[c], b.campaigns[c]))
    && (forall t :: t in a.tokens ==> t in b.tokens && SameToken(a.tokens[t], b.tokens[t]))
    && Contains(b.codeIndex, a.codeIndex)
    && Contains(b.ownerCampaign, a.ownerCampaign)
    && Contains(b.ownerSlot, a.ownerSlot)
    && Contains(b.shared, a.shared)
    && Contains(b.tallies, a.tallies)
    && a.settled <= b.settled
  }

  /** The next campaign id, token id and owner slot are unused. */
  ghost predicate Fresh(s: State) {
    && (forall i :: i in s.campaigns ==> i <= s.campCtr)
    && (forall t :: t in s.tokens ==> t <= s.tokenCtr)
    && (forall i :: i in s.ownerSlot ==> i <= s.campCtr)
    && (forall k :: k in s.ownerCampaign ==> k.slot < Get(s.ownerCount, k.owner, 0))
  }

  /** Ids are still handed out fresh, and `a` is still on record. */
  ghost predicate Grown(a: State, s: State) { Fresh(s) && Extends(a, s) }

  lemma AddGrows(a: State, s: State, c: Campaign)
    requires Grown(a, s) && CanAdd(s, c)
    ensures Grown(a, AddCampaign(s, c))
  {
  }

  lemma MintGrows(a: State, s: State, campaign: u64, code: string, now: u64)
    requires Grown(a, s) && CanMint(s, campaign, code)
    ensures Grown(a, MintOne(s, campaign, code, now))
  {
  }

  lemma BurnGrows(a: State, s: State, id: u64, ref: Bytes32, now: u64)
    requires Grown(a, s) && CanBurn(s, id)
    ensures Grown(a, BurnToken(s, id, ref, now))
  {
  }

  lemma RegisterGrows(a: State, s: State, k: CodeKey, sc: SharedCode)
    requires Grown(a, s) && CanRegister(s, k, sc)
    ensures Grown(a, WriteShared(s, k, sc))
  {
  }

  lemma CommitGrows(a: State, s: State, k: PeriodKey, t: Tally)
    requires Grown(a, s) && CanCommit(s, k, t)
    ensures Grown(a, WriteTally(s, k, t))
  {
  }

  lemma OtherWritesGrow(a: State, s: State)
    requires Grown(a, s)
    ensures forall k :: Grown(a, Mark(s, k))
    ensures forall d :: Grown(a, WriteDelegates(s, d))
  {
  }

  lemma GrownClosed(a: State)
    ensures ClosedUnderWrites(s => Grown(a, s))
  {
    forall s, c | Grown(a, s) && CanAdd(s, c) ensures Grown(a, AddCampaign(s, c)) { AddGrows(a, s, c); }
    forall s, d | Grown(a, s) ensures Grown(a, WriteDelegates(s, d)) { OtherWritesGrow(a, s); }
    forall s, m, code, now | Grown(a, s) && CanMint(s, m, code) ensures Grown(a, MintOne(s, m, code, now)) {
      MintGrows(a, s, m, code, now);
    }
    forall s, id, ref, now | Grown(a, s) && CanBurn(s, id) ensures Grown(a, BurnToken(s, id, ref, now)) {
      BurnGrows(a, s, id, ref, now);
    }
    forall s, k, sc | Grown(a, s) && CanRegister(s, k, sc) ensures Grown(a, WriteShared(s, k, sc)) {
      RegisterGrows(a, s, k, sc);
    }
    forall s, k, t | Grown(a, s) && CanCommit(s, k, t) ensures Grown(a, WriteTally(s, k, t)) { CommitGrows(a, s, k, t); }
    forall s, k | Grown(a, s) ensures Grown(a, Mark(s, k)) { OtherWritesGrow(a, s); }
  }

  lemma GrownNow(a: State)
    requires Fresh(a)
    ensures Grown(a, a)
  {
  }

  /** Along every run, re-entrant tokens included, nothing on record changes or vanishes. */
  lemma HistoryOnlyGrows(w: World, run: seq<Frame>)
    requires Fresh(w.ledger)
    ensures Grown(w.ledger, ExecAll(w, run).ledger)
  {
    GrownClosed(w.ledger);
    GrownNow(w.ledger);
    ExecAllKeeps(s => Grown(w.ledger, s), w, run);
  }

  lemma OneCallGrows(w: World, f: Frame)
    requires Fresh(w.ledger)
    ensures Grown(w.ledger, Exec(w, f).world.ledger)
  {
    GrownClosed(w.ledger);
    GrownNow(w.ledger);
    ExecKeeps(s => Grown(w.ledger, s), w, f);
  }

  lemma ReachableIsFresh(w: World)
    requires Reachable(w)
    ensures Fresh(w.ledger)
  {
    var run :| w == ExecAll(EmptyWorld, run);
    HistoryOnlyGrows(EmptyWorld, run);
  }

  // ── at most one redemption ─────────────────────────────────────────

  /** `code` is on record as redeemed with commitment `ref` at `when`. */
  ghost predicate RedeemedAs(s: State, key: CodeKey, ref: Bytes32, when: u64) {
    && key in s.codeIndex && s.codeIndex[key] in s.tokens
    && var t := s.tokens[s.codeIndex[key]]; t.isBurned && t.redeemerRef == ref && t.burnedAt == when
  }

  lemma RecordStays(a: State, b: State, key: CodeKey, ref: Bytes32, when: u64)
    requires Extends(a, b) && RedeemedAs(a, key, ref, when)
    ensures RedeemedAs(b, key, ref, when)
  {
    assert SameToken(a.tokens[a.codeIndex[key]], b.tokens[a.codeIndex[key]]);
  }

  lemma BurnRecords(s: State, ctx: Ctx, who: Address, campaign: u64, code: string, ref: Bytes32)
    requires Burn(s, ctx, who, campaign, code, ref).reply.Ok?
    ensures RedeemedAs(Burn(s, ctx, who, campaign, code, ref).state, CodeKey(campaign, code), ref, ctx.now)
  {
  }

  lemma BurnRefuses(s: State, ctx: Ctx, who: Address, campaign: u64, code: string, ref: Bytes32, old_: Bytes32, when: u64)
    requires RedeemedAs(s, CodeKey(campaign, code), old_, when)
    ensures Burn(s, ctx, who, campaign, code, ref).reply == Err(if who in ctx.signed then AlreadyRedeemed else AuthTrap)
  {
  }

  /** After a successful redemption, whatever happens next, the commitment it stored stays, and
      redeeming the same code again fails, whoever asks and with whatever commitment. */
  lemma RedeemedOnce(w: World, first: Frame, run: seq<Frame>, again: Frame)
    requires Reachable(w)
    requires first.call.RedeemUnique? && Exec(w, first).reply.Ok?
    requires again.call.RedeemUnique?
    requires again.call.campaign == first.call.campaign && again.call.code == first.call.code
    ensures var later := ExecAll(Exec(w, first).world, run);
            && RedeemedAs(later.ledger, CodeKey(first.call.campaign, first.call.code), first.call.redeemerRef, first.ctx.now)
            && Exec(later, again).reply
               == Err(if again.call.authorizer in again.ctx.signed then AlreadyRedeemed else AuthTrap)
  {
    var w1 := Exec(w, first).world;
    var later := ExecAll(w1, run);
    ReachableIsFresh(w);
    OneCallGrows(w, first);
    HistoryOnlyGrows(w1, run);
    var c := first.call;
    BurnRecords(w.ledger, first.ctx, c.authorizer, c.campaign, c.code, c.redeemerRef);
    RecordStays(w1.ledger, later.ledger, CodeKey(c.campaign, c.code), c.redeemerRef, first.ctx.now);
    BurnRefuses(later.ledger, again.ctx, again.call.authorizer, c.campaign, c.code, again.call.redeemerRef,
                c.redeemerRef, first.ctx.now);
  }

  // ── what the public checks promise ─────────────────────────────────

  lemma BurnCountBelowSupply(s: State, id: u64)
    requires CampaignsOk(s) && TokensOk(s) && CountsOk(s) && id in s.tokens && !s.tokens[id].isBurned
    ensures s.tokens[id].campaignId in s.campaigns
    ensures s.campaigns[s.tokens[id].campaignId].burned < s.campaigns[s.tokens[id].campaignId].totalSupply
  {
    BurnedBelowIssued(s.tokens, s.tokens[id].campaignId, id, s.tokenCtr);
  }

  /** What every reachable state knows of an indexed code. */
  ghost predicate CodeOk(s: State, campaign: u64, code: string) {
    var key := CodeKey(campaign, code);
    key in s.codeIndex ==>
      && s.codeIndex[key] in s.tokens
      && var t := s.tokens[s.codeIndex[key]];
      && t.campaignId == campaign && t.code == code && campaign in s.campaigns
      && (!t.isBurned ==> s.campaigns[campaign].burned < s.campaigns[campaign].totalSupply)
  }

  lemma ReachableCode(w: World, campaign: u64, code: string)
    requires Reachable(w)
    ensures CodeOk(w.ledger, campaign, code)
  {
    ReachableIsGood(w);
    KnownCode(w.ledger, campaign, code);
  }

  lemma KnownCode(s: State, campaign: u64, code: string)
    requires CampaignsOk(s) && TokensOk(s) && CountsOk(s)
    ensures CodeOk(s, campaign, code)
  {
    var key := CodeKey(campaign, code);
    if key in s.codeIndex && !s.tokens[s.codeIndex[key]].isBurned { BurnCountBelowSupply(s, s.codeIndex[key]); }
  }

  /** `is_valid` says yes exactly when the campaign's owner could redeem the code right now. */
  lemma ValidMeansRedeemable(w: World, ctx: Ctx, campaign: u64, code: string, ref: Bytes32)
    requires Reachable(w)
    ensures IsValid(w.ledger, ctx.now, campaign, code) <==>
            && campaign in w.ledger.campaigns
            && var owner := w.ledger.campaigns[campaign].owner;
               Burn(w.ledger, ctx.(signed := {owner}), owner, campaign, code, ref).reply.Ok?
  {
    ReachableCode(w, campaign, code);
  }

  /** Redemption fails for four reasons only. The checked `burned += 1` never traps, and an indexed
      code never lacks its token or its campaign. */
  lemma RedemptionFailures(w: World, ctx: Ctx, who: Address, campaign: u64, code: string, ref: Bytes32)
    requires Reachable(w) && who in ctx.signed
    ensures CodeOk(w.ledger, campaign, code)
    ensures var r := Burn(w.ledger, ctx, who, campaign, code, ref).reply;
            var key := CodeKey(campaign, code);
            if key !in w.ledger.codeIndex then r == Err(CouponNotFound)
            else if w.ledger.tokens[w.ledger.codeIndex[key]].isBurned then r == Err(AlreadyRedeemed)
            else if who != w.ledger.campaigns[campaign].owner && DelegateKey(campaign, who) !in w.ledger.delegates
              then r == Err(Unauthorized)
            else if ctx.now > w.ledger.campaigns[campaign].validUntil then r == Err(CampaignExpired)
            else r.Ok?
  {
    ReachableCode(w, campaign, code);
  }

  /** burned <= minted <= total supply in every reachable state, so the subtraction that
      `campaign_stats` saturates is exact: it counts the unburned tokens of the campaign. */
  lemma CountersInOrder(w: World, now: u64, c: u64)
    requires Reachable(w) && c in w.ledger.campaigns
    ensures var camp := w.ledger.campaigns[c];
            var stats := CampaignStats(w.ledger, now, c).value;
            && camp.burned <= camp.minted <= camp.totalSupply
            && stats.totalSupply == camp.totalSupply && stats.minted == camp.minted && stats.burned == camp.burned
            && stats.isExpired == (now > camp.validUntil)
            && stats.available == camp.minted - camp.burned
            && stats.available == Issued(w.ledger.tokens, c, w.ledger.tokenCtr) - Burned(w.ledger.tokens, c, w.ledger.tokenCtr)
  {
    ReachableIsGood(w);
    BurnedLeqIssued(w.ledger.tokens, c, w.ledger.tokenCtr);
  }

  lemma OwnerCountBounded(s: State, owner: Address)
    requires OwnersOk(s)
    ensures Get(s.ownerCount, owner, 0) <= s.campCtr
  {
    OwnedBound(s.campaigns, owner, s.campCtr);
    assert Indexed(owner, OwnedBy(s.campaigns, owner, s.campCtr), s.ownerCount, s.ownerCampaign);
  }

  /** `create_campaign` answers InvalidTerms for bad terms only: the per-owner slot counter, whose
      overflow has the same code, cannot run out before the global campaign counter does. */
  lemma TermsAreTheOnlyReason(w: World, ctx: Ctx, owner: Address, name: string, discountType: string,
                              discountValue: u64, totalSupply: u32, validUntil: u64)
    requires Reachable(w)
    ensures Create(w.ledger, ctx, owner, name, discountType, discountValue, totalSupply, validUntil).reply.Ok? <==>
            && owner in ctx.signed
            && totalSupply > 0 && validUntil > ctx.now && 1 <= |name| <= 96 && 1 <= |discountType| <= 32
            && w.ledger.campCtr < U64_MAX
  {
    ReachableOwners(w);
    OwnerCountBounded(w.ledger, owner);
  }

  // ── batches ────────────────────────────────────────────────────────

  /** Codes that can be issued together: well-formed, new to the campaign, and all different. */
  ghost predicate Issuable(s: State, campaign: u64, codes: seq<string>) {
    && (forall i :: 0 <= i < |codes| ==> 1 <= |codes[i]| <= 64 && CodeKey(campaign, codes[i]) !in s.codeIndex)
    && (forall i, j :: 0 <= i < j < |codes| ==> codes[i] != codes[j])
    && s.tokenCtr + |codes| <= U64_MAX
  }

  lemma {:induction false} MintAllOkIff(s: State, campaign: u64, codes: seq<string>, now: u64)
    requires campaign in s.campaigns && s.campaigns[campaign].minted + |codes| <= U32_MAX
    ensures MintAll(s, campaign, codes, now).Ok? <==> Issuable(s, campaign, codes)
    decreases |codes|
  {
    if codes != [] {
      var rest := codes[1..];
      assert forall i :: 1 <= i < |codes| ==> codes[i] == rest[i - 1];
      if MintError(s, campaign, codes[0]).None? {
        var s1 := MintOne(s, campaign, codes[0], now);
        MintAllOkIff(s1, campaign, rest, now);
        if Issuable(s1, campaign, rest) {
          forall i, j | 0 <= i < j < |codes| ensures codes[i] != codes[j] {
            if i == 0 { assert CodeKey(campaign, rest[j - 1]) !in s1.codeIndex; }
            else { assert rest[i - 1] != rest[j - 1]; }
          }
          forall i | 0 <= i < |codes|
            ensures 1 <= |codes[i]| <= 64 && CodeKey(campaign, codes[i]) !in s.codeIndex
          {
            if i > 0 { assert CodeKey(campaign, rest[i - 1]) !in s1.codeIndex; }
          }
        }
        if Issuable(s, campaign, codes) {
          forall i | 0 <= i < |rest|
            ensures 1 <= |rest[i]| <= 64 && CodeKey(campaign, rest[i]) !in s1.codeIndex
          {
            assert rest[i] == codes[i + 1] && codes[0] != codes[i + 1];
          }
          assert Issuable(s1, campaign, rest);
        }
      }
    }
  }

  /** The tokens after `from` carry `codes` in order, unburned. */
  ghost predicate MintedFrom(tokens: map<u64, Token>, from: nat, campaign: u64, codes: seq<string>, now: u64) {
    && from + |codes| <= U64_MAX
    && (forall id: u64 :: from < id <= from + |codes| ==>
          id in tokens && tokens[id] == Token(id, campaign, codes[id - from - 1], false, now, 0, 0))
  }

  lemma {:induction false} MintAllResult(s: State, campaign: u64, codes: seq<string>, now: u64)
    requires forall t :: t in s.tokens ==> t <= s.tokenCtr
    requires campaign in s.campaigns && s.campaigns[campaign].minted + |codes| <= U32_MAX
    requires MintAll(s, campaign, codes, now).Ok?
    ensures var s' := MintAll(s, campaign, codes, now).value;
            && s'.tokenCtr == s.tokenCtr + |codes|
            && Contains(s'.tokens, s.tokens)
            && MintedFrom(s'.tokens, s.tokenCtr, campaign, codes, now)
    decreases |codes|
  {
    if codes != [] {
      var s1 := MintOne(s, campaign, codes[0], now);
      MintAllResult(s1, campaign, codes[1..], now);
      var s' := MintAll(s, campaign, codes, now).value;
      forall id: u64 | s.tokenCtr < id <= s.tokenCtr + |codes|
        ensures id in s'.tokens && s'.tokens[id] == Token(id, campaign, codes[id - s.tokenCtr - 1], false, now, 0, 0)
      {
        if id == s1.tokenCtr {
          assert s1.tokens[id] == Token(id, campaign, codes[0], false, now, 0, 0);
        } else {
          assert codes[1..][id - s1.tokenCtr - 1] == codes[id - s.tokenCtr - 1];
        }
      }
      assert Contains(s1.tokens, s.tokens);
    }
  }

  lemma {:induction false} NewIdsAre(before: u64, after: u64)
    requires before <= after
    ensures |NewIds(before, after)| == after - before
    ensures forall i :: 0 <= i < after - before ==> NewIds(before, after)[i] == before + 1 + i
    decreases after
  {
    if before < after { NewIdsAre(before, after - 1); }
  }

  /** The signer is the campaign's owner. */
  ghost predicate SignedByOwner(s: State, ctx: Ctx, owner: Address, campaign: u64) {
    owner in ctx.signed && campaign in s.campaigns && s.campaigns[campaign].owner == owner
  }

  /** The owner may issue so many codes now: the campaign is live and its supply has room. */
  ghost predicate MayIssue(s: State, ctx: Ctx, owner: Address, campaign: u64, count: nat) {
    && SignedByOwner(s, ctx, owner, campaign) && ctx.now <= s.campaigns[campaign].validUntil
    && 1 <= count <= 100 && s.campaigns[campaign].minted + count <= s.campaigns[campaign].totalSupply
  }

  lemma GuardIff(s: State, ctx: Ctx, owner: Address, campaign: u64, count: nat)
    ensures IssueGuard(s, ctx, owner, campaign, count).None? <==> MayIssue(s, ctx, owner, campaign, count)
  {
  }

  /** A batch is all or nothing. It succeeds exactly when the guards pass and the codes are
      well-formed, unused and pairwise different; then the i-th id returned is a fresh unburned
      token carrying the i-th code, and every older token is as it was. */
  lemma BatchIsAllOrNothing(w: World, ctx: Ctx, owner: Address, campaign: u64, codes: seq<string>)
    requires Reachable(w)
    ensures var s := w.ledger; var o := Issue(s, ctx, owner, campaign, codes);
            && (o.reply.Ok? <==> MayIssue(s, ctx, owner, campaign, |codes|) && Issuable(s, campaign, codes))
            && (o.reply.Err? ==> o.state == s)
            && (o.reply.Ok? ==>
                  && o.reply.value.TokenIds? && |o.reply.value.ids| == |codes|
                  && Contains(o.state.tokens, s.tokens)
                  && (forall i :: 0 <= i < |codes| ==>
                        o.reply.value.ids[i] == s.tokenCtr + 1 + i && o.reply.value.ids[i] !in s.tokens)
                  && MintedFrom(o.state.tokens, s.tokenCtr, campaign, codes, ctx.now))
  {
    var s := w.ledger;
    ReachableIsFresh(w);
    GuardIff(s, ctx, owner, campaign, |codes|);
    if IssueGuard(s, ctx, owner, campaign, |codes|).None? {
      MintAllOkIff(s, campaign, codes, ctx.now);
      if Issuable(s, campaign, codes) {
        MintAllResult(s, campaign, codes, ctx.now);
        NewIdsAre(s.tokenCtr, s.tokenCtr + |codes|);
      }
    }
  }
}
