/** What holds of the contract's storage in every reachable state. */
module LedgerInvariant {
  import opened Basics
  import opened LedgerTypes
  import opened LedgerSpec
  import opened LedgerExec

  // ── counting over ids ──────────────────────────────────────────────

  /** How many of the tokens 1..n belong to campaign c. */
  ghost function Issued(tokens: map<u64, Token>, c: u64, n: nat): nat {
    if n == 0 then 0 else Issued(tokens, c, n - 1) + (if n in tokens && tokens[n].campaignId == c then 1 else 0)
  }

  /** How many of the tokens 1..n belong to campaign c and are burned. */
  ghost function Burned(tokens: map<u64, Token>, c: u64, n: nat): nat {
    if n == 0 then 0
    else Burned(tokens, c, n - 1) + (if n in tokens && tokens[n].campaignId == c && tokens[n].isBurned then 1 else 0)
  }

  /** Sum of `minted` over the campaigns 1..n. */
  ghost function MintedSum(campaigns: map<u64, Campaign>, n: nat): nat {
    if n == 0 then 0 else MintedSum(campaigns, n - 1) + (if n in campaigns then campaigns[n].minted else 0)
  }

  /** The ids of `owner`'s campaigns among 1..n, in creation order. */
  ghost function OwnedBy(campaigns: map<u64, Campaign>, owner: Address, n: nat): seq<u64>
    requires n <= U64_MAX
  {
    if n == 0 then []
    else OwnedBy(campaigns, owner, n - 1) + (if n in campaigns && campaigns[n].owner == owner then [n] else [])
  }

  // ── the invariant ──────────────────────────────────────────────────

  ghost predicate CampaignsOk(s: State) {
    && (forall i :: i in s.campaigns <==> 1 <= i <= s.campCtr)
    && (forall i :: i in s.campaigns ==> s.campaigns[i].id == i && s.campaigns[i].minted <= s.campaigns[i].totalSupply)
  }

  ghost predicate TokensOk(s: State) {
    && (forall t :: t in s.tokens <==> 1 <= t <= s.tokenCtr)
    && (forall t :: t in s.tokens ==>
          && s.tokens[t].tokenId == t
          && s.tokens[t].campaignId in s.campaigns
          && CodeKey(s.tokens[t].campaignId, s.tokens[t].code) in s.codeIndex
          && s.codeIndex[CodeKey(s.tokens[t].campaignId, s.tokens[t].code)] == t)
    && (forall k :: k in s.codeIndex ==>
          && s.codeIndex[k] in s.tokens
          && CodeKey(s.tokens[s.codeIndex[k]].campaignId, s.tokens[s.codeIndex[k]].code) == k)
  }

  ghost predicate CountsOk(s: State) {
    && (forall c :: c in s.campaigns ==>
          && s.campaigns[c].minted == Issued(s.tokens, c, s.tokenCtr)
          && s.campaigns[c].burned == Burned(s.tokens, c, s.tokenCtr))
    && MintedSum(s.campaigns, s.campCtr) == s.tokenCtr
  }

  ghost function SlotAt(o: Address, i: nat): SlotKey { SlotKey(o, if i <= U64_MAX then i else 0) }

  /** The count and the slots of `o` hold exactly the list `ids`. */
  ghost predicate Indexed(o: Address, ids: seq<u64>, counts: map<Address, u64>, slots: map<SlotKey, u64>) {
    && Get(counts, o, 0) == |ids|
    && (forall i :: 0 <= i < |ids| ==> SlotAt(o, i) in slots && slots[SlotAt(o, i)] == ids[i])
  }

  ghost predicate OwnersOk(s: State) {
    && (forall o :: Indexed(o, OwnedBy(s.campaigns, o, s.campCtr), s.ownerCount, s.ownerCampaign))
    && (forall k :: k in s.ownerCampaign ==> k.slot < Get(s.ownerCount, k.owner, 0))
    && SlotsOk(s)
  }

  /** Campaign to slot is the inverse of owner and slot to campaign. */
  ghost predicate SlotsOk(s: State) {
    && s.ownerSlot.Keys == s.campaigns.Keys
    && (forall c :: c in s.campaigns ==>
          && SlotKey(s.campaigns[c].owner, s.ownerSlot[c]) in s.ownerCampaign
          && s.ownerCampaign[SlotKey(s.campaigns[c].owner, s.ownerSlot[c])] == c)
  }

  ghost predicate SharedOk(s: State) {
    forall k :: k in s.shared ==>
      && k.campaign in s.campaigns
      && GoodTerms(s.shared[k].attributedTo, s.shared[k].payoutToken, s.shared[k].payoutRate)
  }

  /** The stored tally obeys the attribution rule of its shared code. */
  ghost predicate Attributed(s: State, k: PeriodKey)
    requires k in s.tallies && k.code in s.shared
  {
    match s.shared[k.code].attributedTo
    case None => s.tallies[k].perAttribution == []
    case Some(target) => CreditsOnly(s.tallies[k].perAttribution, target, s.tallies[k].count)
  }

  ghost predicate TalliesOk(s: State) {
    && SharedOk(s)
    && (forall k :: k in s.tallies ==> k.code in s.shared && s.tallies[k].period == k.period && Attributed(s, k))
    && (forall k :: k in s.settled ==> k in s.tallies && k.code in s.shared && s.shared[k.code].payoutToken.Some?)
  }

  /** The part that does not speak of shared codes. */
  ghost predicate CoreOk(s: State) {
    CampaignsOk(s) && TokensOk(s) && CountsOk(s) && OwnersOk(s)
  }

  ghost predicate Inv(s: State) {
    CoreOk(s) && TalliesOk(s)
  }

  // ── frame lemmas for the counts ────────────────────────────────────

  lemma {:induction false} CountsFrame(a: map<u64, Token>, b: map<u64, Token>, c: u64, n: nat)
    requires forall t :: 1 <= t <= n && t <= U64_MAX ==> t in a && t in b
    requires forall t :: 1 <= t <= n && t <= U64_MAX ==> a[t].campaignId == b[t].campaignId
    requires forall t :: 1 <= t <= n && t <= U64_MAX && a[t].campaignId == c ==> a[t].isBurned == b[t].isBurned
    requires n <= U64_MAX
    ensures Issued(a, c, n) == Issued(b, c, n) && Burned(a, c, n) == Burned(b, c, n)
  {
    if n > 0 {
      var m: u64 := n;
      CountsFrame(a, b, c, n - 1);
      assert m in a && m in b;
    }
  }

  lemma {:induction false} BurnedStep(a: map<u64, Token>, b: map<u64, Token>, id: u64, n: nat)
    requires forall t :: 1 <= t <= n && t <= U64_MAX ==> t in a && t in b && a[t].campaignId == b[t].campaignId
    requires 1 <= id <= n <= U64_MAX && !a[id].isBurned && b[id].isBurned
    requires forall t :: 1 <= t <= n && t <= U64_MAX && t != id ==> a[t].isBurned == b[t].isBurned
    ensures Burned(b, a[id].campaignId, n) == Burned(a, a[id].campaignId, n) + 1
    ensures Issued(b, a[id].campaignId, n) == Issued(a, a[id].campaignId, n)
  {
    var c := a[id].campaignId;
    if n == id {
      CountsFrame(a, b, c, n - 1);
    } else {
      BurnedStep(a, b, id, n - 1);
    }
  }

  lemma {:induction false} BurnedLeqIssued(tokens: map<u64, Token>, c: u64, n: nat)
    ensures Burned(tokens, c, n) <= Issued(tokens, c, n)
  {
    if n > 0 { BurnedLeqIssued(tokens, c, n - 1); }
  }

  lemma {:induction false} NoneIssued(tokens: map<u64, Token>, c: u64, n: nat)
    requires forall t :: t in tokens ==> tokens[t].campaignId != c
    ensures Issued(tokens, c, n) == 0 && Burned(tokens, c, n) == 0
  {
    if n > 0 { NoneIssued(tokens, c, n - 1); }
  }

  lemma {:induction false} BurnedBelowIssued(tokens: map<u64, Token>, c: u64, id: u64, n: nat)
    requires 1 <= id <= n && id in tokens && tokens[id].campaignId == c && !tokens[id].isBurned
    ensures Burned(tokens, c, n) < Issued(tokens, c, n)
  {
    if n == id { BurnedLeqIssued(tokens, c, n - 1); } else { BurnedBelowIssued(tokens, c, id, n - 1); }
  }

  lemma {:induction false} MintedSumFrame(a: map<u64, Campaign>, b: map<u64, Campaign>, n: nat)
    requires forall i :: 1 <= i <= n && i <= U64_MAX ==> (i in a <==> i in b) && (i in a ==> a[i].minted == b[i].minted)
    requires n <= U64_MAX
    ensures MintedSum(a, n) == MintedSum(b, n)
  {
    if n > 0 {
      var m: u64 := n;
      MintedSumFrame(a, b, n - 1);
      assert m in a <==> m in b;
    }
  }

  lemma {:induction false} MintedSumStep(a: map<u64, Campaign>, c: u64, k: Campaign, n: nat)
    requires 1 <= c <= n <= U64_MAX && c in a
    ensures MintedSum(a[c := k], n) == MintedSum(a, n) - a[c].minted + k.minted
  {
    if n == c { MintedSumFrame(a, a[c := k], n - 1); } else { MintedSumStep(a, c, k, n - 1); }
  }

  lemma {:induction false} OwnedFrame(a: map<u64, Campaign>, b: map<u64, Campaign>, o: Address, n: nat)
    requires n <= U64_MAX
    requires forall i :: 1 <= i <= n && i <= U64_MAX ==> (i in a <==> i in b) && (i in a ==> a[i].owner == b[i].owner)
    ensures OwnedBy(a, o, n) == OwnedBy(b, o, n)
  {
    if n > 0 {
      var m: u64 := n;
      OwnedFrame(a, b, o, n - 1);
      assert m in a <==> m in b;
    }
  }

  lemma {:induction false} OwnedBound(a: map<u64, Campaign>, o: Address, n: nat)
    requires n <= U64_MAX
    ensures |OwnedBy(a, o, n)| <= n
    ensures forall i :: 0 <= i < |OwnedBy(a, o, n)| ==>
              var c := OwnedBy(a, o, n)[i]; 1 <= c <= n && c in a && a[c].owner == o
    ensures forall i, j :: 0 <= i < j < |OwnedBy(a, o, n)| ==> OwnedBy(a, o, n)[i] < OwnedBy(a, o, n)[j]
  {
    if n > 0 { OwnedBound(a, o, n - 1); }
  }

  // ── each entry point keeps the invariant ───────────────────────────

  lemma {:induction false} OwnersFrame(s: State, s': State)
    requires OwnersOk(s)
    requires s'.campCtr == s.campCtr && s'.ownerCount == s.ownerCount
    requires s'.ownerCampaign == s.ownerCampaign && s'.ownerSlot == s.ownerSlot
    requires s'.campaigns.Keys == s.campaigns.Keys
    requires forall c :: c in s.campaigns ==> s'.campaigns[c].owner == s.campaigns[c].owner
    ensures OwnersOk(s')
  {
    forall o: Address ensures OwnedBy(s'.campaigns, o, s.campCtr) == OwnedBy(s.campaigns, o, s.campCtr) {
      OwnedFrame(s.campaigns, s'.campaigns, o, s.campCtr);
    }
  }

  lemma {:induction false} ListAfterAdd(s: State, c: Campaign, o: Address)
    requires s.campCtr < U64_MAX && Get(s.ownerCount, c.owner, 0) < U64_MAX && c.id == s.campCtr + 1
    ensures OwnedBy(AddCampaign(s, c).campaigns, o, s.campCtr + 1)
         == OwnedBy(s.campaigns, o, s.campCtr) + (if o == c.owner then [c.id] else [])
  {
    OwnedFrame(s.campaigns, AddCampaign(s, c).campaigns, o, s.campCtr);
  }

  lemma {:induction false} IndexedAfterAdd(s: State, c: Campaign, o: Address)
    requires s.campCtr < U64_MAX && Get(s.ownerCount, c.owner, 0) < U64_MAX && c.id == s.campCtr + 1
    requires Indexed(o, OwnedBy(s.campaigns, o, s.campCtr), s.ownerCount, s.ownerCampaign)
    ensures var s' := AddCampaign(s, c);
            Indexed(o, OwnedBy(s'.campaigns, o, s'.campCtr), s'.ownerCount, s'.ownerCampaign)
  {
    OwnedBound(s.campaigns, o, s.campCtr);
    ListAfterAdd(s, c, o);
    if o != c.owner {
      assert OwnedBy(s.campaigns, o, s.campCtr) + [] == OwnedBy(s.campaigns, o, s.campCtr);
    }
  }

  lemma {:induction false} SlotsAfterAdd(s: State, c: Campaign)
    requires CampaignsOk(s) && SlotsOk(s) && s.campCtr < U64_MAX && Get(s.ownerCount, c.owner, 0) < U64_MAX
    requires c.id == s.campCtr + 1
    requires SlotKey(c.owner, Get(s.ownerCount, c.owner, 0)) !in s.ownerCampaign
    ensures SlotsOk(AddCampaign(s, c))
  {
    var s' := AddCampaign(s, c);
    forall x | x in s'.campaigns
      ensures SlotKey(s'.campaigns[x].owner, s'.ownerSlot[x]) in s'.ownerCampaign
      ensures s'.ownerCampaign[SlotKey(s'.campaigns[x].owner, s'.ownerSlot[x])] == x
    {
      if x != c.id {
        assert SlotKey(s.campaigns[x].owner, s.ownerSlot[x]) in s.ownerCampaign;
      }
    }
  }

  /** A new campaign takes the next slot of its owner and moves nobody else's. */
  lemma {:induction false} OwnersKept(s: State, c: Campaign)
    requires CampaignsOk(s) && OwnersOk(s) && s.campCtr < U64_MAX && Get(s.ownerCount, c.owner, 0) < U64_MAX
    requires c.id == s.campCtr + 1
    ensures OwnersOk(AddCampaign(s, c))
  {
    var s' := AddCampaign(s, c);
    forall o: Address
      ensures Indexed(o, OwnedBy(s'.campaigns, o, s'.campCtr), s'.ownerCount, s'.ownerCampaign)
    {
      IndexedAfterAdd(s, c, o);
    }
    SlotsAfterAdd(s, c);
  }

  lemma {:induction false} CreateMintsNone(s: State, c: Campaign)
    requires CampaignsOk(s) && s.campCtr < U64_MAX && c.id == s.campCtr + 1 && c.minted == 0
    ensures MintedSum(s.campaigns[c.id := c], s.campCtr + 1) == MintedSum(s.campaigns, s.campCtr)
  {
    MintedSumFrame(s.campaigns, s.campaigns[c.id := c], s.campCtr);
  }

  lemma {:induction false} CreateCounts(s: State, c: Campaign)
    requires CampaignsOk(s) && CountsOk(s) && (forall t :: t in s.tokens ==> s.tokens[t].campaignId in s.campaigns)
    requires s.campCtr < U64_MAX && Get(s.ownerCount, c.owner, 0) < U64_MAX
    requires c.id == s.campCtr + 1 && c.minted == 0 && c.burned == 0
    ensures CountsOk(AddCampaign(s, c))
  {
    NoneIssued(s.tokens, c.id, s.tokenCtr);
    CreateMintsNone(s, c);
  }

  lemma {:induction false} CreateTokens(s: State, c: Campaign)
    requires CampaignsOk(s) && TokensOk(s) && s.campCtr < U64_MAX && Get(s.ownerCount, c.owner, 0) < U64_MAX
    requires c.id == s.campCtr + 1 && c.minted == 0
    ensures CampaignsOk(AddCampaign(s, c)) && TokensOk(AddCampaign(s, c))
  {
  }

  lemma {:induction false} TalliesFrame(s: State, s': State)
    requires TalliesOk(s) && s.campaigns.Keys <= s'.campaigns.Keys
    requires s'.shared == s.shared && s'.tallies == s.tallies && s'.settled == s.settled
    ensures TalliesOk(s')
  {
    assert forall k :: k in s.tallies ==> Attributed(s, k) == Attributed(s', k);
  }

  lemma {:induction false} CreateKeeps(s: State, c: Campaign)
    requires Inv(s) && s.campCtr < U64_MAX && Get(s.ownerCount, c.owner, 0) < U64_MAX
    requires c.id == s.campCtr + 1 && c.minted == 0 && c.burned == 0
    ensures Inv(AddCampaign(s, c))
  {
    CreateCounts(s, c);
    OwnersKept(s, c);
    CreateTokens(s, c);
    TalliesFrame(s, AddCampaign(s, c));
  }

  lemma {:induction false} MintTokens(s: State, campaign: u64, code: string, now: u64)
    requires TokensOk(s) && campaign in s.campaigns && s.campaigns[campaign].minted < U32_MAX
    requires MintError(s, campaign, code).None?
    ensures TokensOk(MintOne(s, campaign, code, now))
  {
  }

  lemma {:induction false} MintCounts(s: State, campaign: u64, code: string, now: u64)
    requires CampaignsOk(s) && CountsOk(s) && (forall t :: t in s.tokens <==> 1 <= t <= s.tokenCtr)
    requires campaign in s.campaigns && s.campaigns[campaign].minted < U32_MAX && s.tokenCtr < U64_MAX
    ensures CountsOk(MintOne(s, campaign, code, now))
  {
    var s' := MintOne(s, campaign, code, now);
    forall c: u64 | c in s.campaigns
      ensures Issued(s'.tokens, c, s.tokenCtr) == Issued(s.tokens, c, s.tokenCtr)
      ensures Burned(s'.tokens, c, s.tokenCtr) == Burned(s.tokens, c, s.tokenCtr)
    {
      CountsFrame(s.tokens, s'.tokens, c, s.tokenCtr);
    }
    MintedSumStep(s.campaigns, campaign, s'.campaigns[campaign], s.campCtr);
  }

  lemma {:induction false} MintCampaigns(s: State, campaign: u64, code: string, now: u64)
    requires CampaignsOk(s) && campaign in s.campaigns && s.tokenCtr < U64_MAX
    requires s.campaigns[campaign].minted < s.campaigns[campaign].totalSupply
    ensures CampaignsOk(MintOne(s, campaign, code, now))
  {
  }

  lemma {:induction false} MintOwners(s: State, campaign: u64, code: string, now: u64)
    requires OwnersOk(s) && campaign in s.campaigns && s.campaigns[campaign].minted < U32_MAX && s.tokenCtr < U64_MAX
    ensures OwnersOk(MintOne(s, campaign, code, now))
  {
    OwnersFrame(s, MintOne(s, campaign, code, now));
  }

  lemma {:induction false} MintKeeps(s: State, campaign: u64, code: string, now: u64)
    requires Inv(s) && campaign in s.campaigns
    requires s.campaigns[campaign].minted < s.campaigns[campaign].totalSupply
    requires MintError(s, campaign, code).None?
    ensures Inv(MintOne(s, campaign, code, now))
  {
    MintCampaigns(s, campaign, code, now);
    MintTokens(s, campaign, code, now);
    MintCounts(s, campaign, code, now);
    MintOwners(s, campaign, code, now);
    TalliesFrame(s, MintOne(s, campaign, code, now));
  }

  lemma {:induction false} BurnTokens(s: State, id: u64, ref: Bytes32, now: u64)
    requires TokensOk(s) && id in s.tokens && s.campaigns[s.tokens[id].campaignId].burned < U32_MAX
    ensures TokensOk(BurnToken(s, id, ref, now))
  {
  }

  lemma {:induction false} BurnCounts(s: State, id: u64, ref: Bytes32, now: u64)
    requires CampaignsOk(s) && CountsOk(s) && (forall t :: t in s.tokens <==> 1 <= t <= s.tokenCtr)
    requires id in s.tokens && !s.tokens[id].isBurned && s.tokens[id].campaignId in s.campaigns
    ensures s.campaigns[s.tokens[id].campaignId].burned < s.campaigns[s.tokens[id].campaignId].minted
    ensures CountsOk(BurnToken(s, id, ref, now))
  {
    var c := s.tokens[id].campaignId;
    var n := s.tokenCtr;
    BurnedBelowIssued(s.tokens, c, id, n);
    var s' := BurnToken(s, id, ref, now);
    BurnedStep(s.tokens, s'.tokens, id, n);
    forall x: u64 | x in s.campaigns && x != c
      ensures Issued(s'.tokens, x, n) == Issued(s.tokens, x, n) && Burned(s'.tokens, x, n) == Burned(s.tokens, x, n)
    {
      CountsFrame(s.tokens, s'.tokens, x, n);
    }
    MintedSumStep(s.campaigns, c, s'.campaigns[c], s.campCtr);
  }

  lemma {:induction false} BurnOwners(s: State, id: u64, ref: Bytes32, now: u64)
    requires OwnersOk(s) && id in s.tokens && s.tokens[id].campaignId in s.campaigns
    requires s.campaigns[s.tokens[id].campaignId].burned < U32_MAX
    ensures OwnersOk(BurnToken(s, id, ref, now))
  {
    OwnersFrame(s, BurnToken(s, id, ref, now));
  }

  lemma {:induction false} BurnCampaigns(s: State, id: u64, ref: Bytes32, now: u64)
    requires CampaignsOk(s) && id in s.tokens && s.tokens[id].campaignId in s.campaigns
    requires s.campaigns[s.tokens[id].campaignId].burned < U32_MAX
    ensures CampaignsOk(BurnToken(s, id, ref, now))
  {
  }

  lemma {:induction false} BurnKeeps(s: State, id: u64, ref: Bytes32, now: u64)
    requires Inv(s) && id in s.tokens && !s.tokens[id].isBurned && s.tokens[id].campaignId in s.campaigns
    ensures s.campaigns[s.tokens[id].campaignId].burned < s.campaigns[s.tokens[id].campaignId].minted
    ensures Inv(BurnToken(s, id, ref, now))
  {
    BurnCounts(s, id, ref, now);
    BurnTokens(s, id, ref, now);
    BurnCampaigns(s, id, ref, now);
    BurnOwners(s, id, ref, now);
    TalliesFrame(s, BurnToken(s, id, ref, now));
  }

  /** The attribution rule leaves an attributed code one way only to carry credits. */
  lemma {:induction false} RuleHolds(attributedTo: Option<Address>, m: Attribution, count: u32)
    requires AttributionError(attributedTo, m, count).None?
    ensures attributedTo.None? ==> m == []
    ensures attributedTo.Some? ==> CreditsOnly(m, attributedTo.value, count)
  {
  }

  lemma {:induction false} CoreFrame(s: State, s': State)
    requires CoreOk(s)
    requires s' == s.(delegates := s'.delegates, shared := s'.shared, tallies := s'.tallies, settled := s'.settled)
    ensures CoreOk(s')
  {
    OwnersFrame(s, s');
  }

  lemma {:induction false} RegisterTallies(s: State, k: CodeKey, sc: SharedCode)
    requires TalliesOk(s) && k !in s.shared && k.campaign in s.campaigns
    requires GoodTerms(sc.attributedTo, sc.payoutToken, sc.payoutRate)
    ensures TalliesOk(WriteShared(s, k, sc))
  {
    var s' := WriteShared(s, k, sc);
    assert forall x :: x in s.tallies ==> Attributed(s, x) == Attributed(s', x);
  }

  lemma {:induction false} CommitTallies(s: State, k: PeriodKey, t: Tally)
    requires TalliesOk(s) && k !in s.tallies && k.code in s.shared && t.period == k.period
    requires AttributionError(s.shared[k.code].attributedTo, t.perAttribution, t.count).None?
    ensures TalliesOk(WriteTally(s, k, t))
  {
    var s' := WriteTally(s, k, t);
    RuleHolds(s.shared[k.code].attributedTo, t.perAttribution, t.count);
    assert forall x :: x in s.tallies ==> Attributed(s, x) == Attributed(s', x);
  }

  /** Where `settle` writes its mark there are settlement terms and a tally. */
  lemma {:induction false} MarkTallies(s: State, k: PeriodKey)
    requires TalliesOk(s) && k in s.tallies && k.code in s.shared && s.shared[k.code].payoutToken.Some?
    ensures TalliesOk(Mark(s, k))
  {
    assert forall x :: x in s.tallies ==> Attributed(s, x) == Attributed(Mark(s, k), x);
  }

  lemma {:induction false} DelegatesKeep(s: State, delegates: set<DelegateKey>)
    requires Inv(s)
    ensures Inv(WriteDelegates(s, delegates))
  {
    CoreFrame(s, WriteDelegates(s, delegates));
    TalliesFrame(s, WriteDelegates(s, delegates));
  }

  lemma {:induction false} MarkKeeps(s: State, k: PeriodKey)
    requires Inv(s) && k in s.tallies && k.code in s.shared && s.shared[k.code].payoutToken.Some?
    ensures Inv(Mark(s, k))
  {
    CoreFrame(s, Mark(s, k));
    MarkTallies(s, k);
  }

  lemma {:induction false} RegisterKeeps(s: State, k: CodeKey, sc: SharedCode)
    requires Inv(s) && k !in s.shared && k.campaign in s.campaigns
    requires GoodTerms(sc.attributedTo, sc.payoutToken, sc.payoutRate)
    ensures Inv(WriteShared(s, k, sc))
  {
    CoreFrame(s, WriteShared(s, k, sc));
    RegisterTallies(s, k, sc);
  }

  lemma {:induction false} CommitKeeps(s: State, k: PeriodKey, t: Tally)
    requires Inv(s) && k !in s.tallies && k.code in s.shared && t.period == k.period
    requires AttributionError(s.shared[k.code].attributedTo, t.perAttribution, t.count).None?
    ensures Inv(WriteTally(s, k, t))
  {
    CoreFrame(s, WriteTally(s, k, t));
    CommitTallies(s, k, t);
  }

  lemma InvClosed()
    ensures ClosedUnderWrites(s => Inv(s))
  {
    forall s, c | Inv(s) && CanAdd(s, c) ensures Inv(AddCampaign(s, c)) { CreateKeeps(s, c); }
    forall s, d | Inv(s) ensures Inv(WriteDelegates(s, d)) { DelegatesKeep(s, d); }
    forall s, campaign, code, now | Inv(s) && CanMint(s, campaign, code) ensures Inv(MintOne(s, campaign, code, now)) {
      MintKeeps(s, campaign, code, now);
    }
    forall s, id, ref, now | Inv(s) && CanBurn(s, id) ensures Inv(BurnToken(s, id, ref, now)) {
      BurnKeeps(s, id, ref, now);
    }
    forall s, k, sc | Inv(s) && CanRegister(s, k, sc) ensures Inv(WriteShared(s, k, sc)) { RegisterKeeps(s, k, sc); }
    forall s, k, t | Inv(s) && CanCommit(s, k, t) ensures Inv(WriteTally(s, k, t)) { CommitKeeps(s, k, t); }
    forall s, k | Inv(s) && CanMark(s, k) ensures Inv(Mark(s, k)) { MarkKeeps(s, k); }
  }

  /** The state after any run from the empty contract, re-entrant tokens included, meets Inv. */
  lemma ReachableInv(run: seq<Frame>)
    ensures Inv(ExecAll(EmptyWorld, run).ledger)
  {
    InvClosed();
    ExecAllKeeps(s => Inv(s), EmptyWorld, run);
  }

  /** A world that some run from the empty contract leads to. */
  ghost predicate Reachable(w: World) {
    exists run :: w == ExecAll(EmptyWorld, run)
  }

  lemma {:induction false} ExecAllAppend(w: World, run: seq<Frame>, f: Frame)
    ensures ExecAll(w, run + [f]) == Exec(ExecAll(w, run), f).world
    decreases |run|
  {
    if run == [] {
      assert ([] + [f])[1..] == [];
      assert ExecAll(w, [f]) == Exec(w, f).world by { assert [f][1..] == []; }
    } else {
      assert (run + [f])[1..] == run[1..] + [f];
      ExecAllAppend(Exec(w, run[0]).world, run[1..], f);
    }
  }

  lemma ReachableThen(w: World, f: Frame)
    requires Reachable(w)
    ensures Reachable(Exec(w, f).world)
  {
    var run :| w == ExecAll(EmptyWorld, run);
    ExecAllAppend(EmptyWorld, run, f);
  }

  lemma ReachableIsGood(w: World)
    requires Reachable(w)
    ensures Inv(w.ledger)
  {
    var run :| w == ExecAll(EmptyWorld, run);
    ReachableInv(run);
  }

  lemma ReachableOwners(w: World)
    requires Reachable(w)
    ensures OwnersOk(w.ledger) && CampaignsOk(w.ledger)
  {
    ReachableIsGood(w);
  }
}
