/** The paged owner index: what `campaigns_of` and `campaigns_page` return in reachable states. */
module LedgerIndex {
  import opened Basics
  import opened LedgerTypes
  import opened LedgerSpec
  import opened LedgerExec
  import opened LedgerInvariant

  /** The ids in slots from..to of `owner`; an absent slot is skipped. */
  function Slots(s: State, owner: Address, from: u64, to: u64): seq<u64>
    decreases U64_MAX - from
  {
    if from >= to then []
    else (if SlotKey(owner, from) in s.ownerCampaign then [s.ownerCampaign[SlotKey(owner, from)]] else [])
         + Slots(s, owner, from + 1, to)
  }

  function SaturatingAdd(a: u64, b: u64): u64 { if a + b > U64_MAX then U64_MAX else a + b }

  function CampaignsOf(s: State, owner: Address): seq<u64> {
    Slots(s, owner, 0, Get(s.ownerCount, owner, 0))
  }

  function CampaignsPage(s: State, owner: Address, cursor: u64, limit: u32): Result<seq<u64>, Error> {
    if limit == 0 || limit > MAX_BATCH then Err(BatchTooLarge)
    else
      var count := Get(s.ownerCount, owner, 0);
      var end := if SaturatingAdd(cursor, limit) < count then SaturatingAdd(cursor, limit) else count;
      Ok(Slots(s, owner, cursor, end))
  }

  /** What a client collects that starts at `cursor` and moves on by `limit` while slots remain. */
  function Walk(s: State, owner: Address, cursor: u64, limit: u32): seq<u64>
    requires 1 <= limit <= MAX_BATCH
    decreases U64_MAX - cursor
  {
    if cursor >= Get(s.ownerCount, owner, 0) then []
    else CampaignsPage(s, owner, cursor, limit).value + Walk(s, owner, SaturatingAdd(cursor, limit), limit)
  }

  lemma {:induction false} SlotsAre(s: State, owner: Address, ids: seq<u64>, from: u64, to: u64)
    requires Indexed(owner, ids, s.ownerCount, s.ownerCampaign)
    requires from <= to <= |ids| <= U64_MAX
    ensures Slots(s, owner, from, to) == ids[from..to]
    decreases U64_MAX - from
  {
    if from < to {
      SlotsAre(s, owner, ids, from + 1, to);
      assert SlotAt(owner, from) in s.ownerCampaign;
      assert ids[from..to] == [ids[from]] + ids[from + 1..to];
    }
  }

  lemma {:induction false} OwnedComplete(campaigns: map<u64, Campaign>, owner: Address, n: nat, c: u64)
    requires n <= U64_MAX && 1 <= c <= n && c in campaigns && campaigns[c].owner == owner
    ensures c in OwnedBy(campaigns, owner, n)
  {
    if n > c { OwnedComplete(campaigns, owner, n - 1, c); }
  }

  lemma CampaignsOfIsOwnedBy(s: State, owner: Address)
    requires OwnersOk(s)
    ensures CampaignsOf(s, owner) == OwnedBy(s.campaigns, owner, s.campCtr)
    ensures Indexed(owner, CampaignsOf(s, owner), s.ownerCount, s.ownerCampaign)
    ensures Get(s.ownerCount, owner, 0) == |CampaignsOf(s, owner)|
  {
    var ids := OwnedBy(s.campaigns, owner, s.campCtr);
    assert Indexed(owner, ids, s.ownerCount, s.ownerCampaign);
    SlotsAre(s, owner, ids, 0, |ids|);
  }

  lemma ReachableIndex(w: World, owner: Address)
    requires Reachable(w)
    ensures Indexed(owner, CampaignsOf(w.ledger, owner), w.ledger.ownerCount, w.ledger.ownerCampaign)
    ensures Get(w.ledger.ownerCount, owner, 0) == |CampaignsOf(w.ledger, owner)|
  {
    ReachableOwners(w);
    CampaignsOfIsOwnedBy(w.ledger, owner);
  }

  /** `campaigns_of(owner)` lists exactly the owner's campaigns, each once, oldest first. */
  lemma ListsOwnCampaigns(w: World, owner: Address)
    requires Reachable(w)
    ensures var ids := CampaignsOf(w.ledger, owner);
            && (forall c :: c in ids <==> c in w.ledger.campaigns && w.ledger.campaigns[c].owner == owner)
            && (forall i, j :: 0 <= i < j < |ids| ==> ids[i] < ids[j])
  {
    var s := w.ledger;
    ReachableOwners(w);
    CampaignsOfIsOwnedBy(s, owner);
    OwnedBound(s.campaigns, owner, s.campCtr);
    forall c | c in s.campaigns && s.campaigns[c].owner == owner ensures c in CampaignsOf(s, owner) {
      OwnedComplete(s.campaigns, owner, s.campCtr, c);
    }
  }

  /** `CampaignOwnerSlot` is the inverse of `OwnerCampaign`: a campaign stands in its own slot of
      its owner's list, and in no other. */
  lemma SlotInverse(w: World, c: u64)
    requires Reachable(w) && c in w.ledger.campaigns
    ensures var ids := CampaignsOf(w.ledger, w.ledger.campaigns[c].owner);
            && c in w.ledger.ownerSlot && w.ledger.ownerSlot[c] < |ids| && ids[w.ledger.ownerSlot[c]] == c
            && (forall i :: 0 <= i < |ids| && ids[i] == c ==> i == w.ledger.ownerSlot[c])
  {
    var owner := w.ledger.campaigns[c].owner;
    ReachableOwners(w);
    InOwnSlot(w.ledger, c);
    ListsOwnCampaigns(w, owner);
  }

  lemma InOwnSlot(s: State, c: u64)
    requires OwnersOk(s) && c in s.campaigns
    ensures var ids := CampaignsOf(s, s.campaigns[c].owner);
            c in s.ownerSlot && s.ownerSlot[c] < |ids| && ids[s.ownerSlot[c]] == c
  {
    var owner := s.campaigns[c].owner;
    CampaignsOfIsOwnedBy(s, owner);
    assert SlotKey(owner, s.ownerSlot[c]) in s.ownerCampaign;
    assert SlotAt(owner, s.ownerSlot[c]) == SlotKey(owner, s.ownerSlot[c]);
  }

  /** A page is the slice of the full list that it asks for, even when cursor + limit saturates. */
  lemma PageIsSlice(w: World, owner: Address, cursor: u64, limit: u32)
    requires Reachable(w) && 1 <= limit <= MAX_BATCH
    ensures var ids := CampaignsOf(w.ledger, owner);
            CampaignsPage(w.ledger, owner, cursor, limit)
            == Ok(ids[Min(cursor, |ids|)..Min(cursor + limit, |ids|)])
  {
    ReachableIndex(w, owner);
    var ids := CampaignsOf(w.ledger, owner);
    var end := Min(SaturatingAdd(cursor, limit), |ids|);
    if cursor <= end {
      SlotsAre(w.ledger, owner, ids, cursor, end);
    } else {
      assert Slots(w.ledger, owner, cursor, end) == [] == ids[|ids|..|ids|];
    }
  }

  /** Paging with any legal limit collects the full list, without gap or repetition. */
  lemma PagesConcatenate(w: World, owner: Address, limit: u32)
    requires Reachable(w) && 1 <= limit <= MAX_BATCH
    ensures Walk(w.ledger, owner, 0, limit) == CampaignsOf(w.ledger, owner)
  {
    WalkIsRest(w, owner, 0, limit);
  }

  /** The page at `cursor`, and the rest behind it, are the list from `cursor` on. */
  lemma PageThenRest(ids: seq<u64>, cursor: u64, limit: u32)
    requires |ids| <= U64_MAX && 1 <= limit
    ensures ids[Min(cursor, |ids|)..Min(cursor + limit, |ids|)] + ids[Min(SaturatingAdd(cursor, limit), |ids|)..]
         == ids[Min(cursor, |ids|)..]
  {
    assert Min(SaturatingAdd(cursor, limit), |ids|) == Min(cursor + limit, |ids|);
  }

  lemma CountOfList(w: World, owner: Address)
    requires Reachable(w)
    ensures Get(w.ledger.ownerCount, owner, 0) == |CampaignsOf(w.ledger, owner)| <= U64_MAX
  {
    ReachableIndex(w, owner);
  }

  lemma {:induction false} WalkIsRest(w: World, owner: Address, cursor: u64, limit: u32)
    requires Reachable(w) && 1 <= limit <= MAX_BATCH
    ensures Walk(w.ledger, owner, cursor, limit) == CampaignsOf(w.ledger, owner)[Min(cursor, |CampaignsOf(w.ledger, owner)|)..]
    decreases U64_MAX - cursor
  {
    var ids := CampaignsOf(w.ledger, owner);
    CountOfList(w, owner);
    if cursor < |ids| {
      PageIsSlice(w, owner, cursor, limit);
      WalkIsRest(w, owner, SaturatingAdd(cursor, limit), limit);
      PageThenRest(ids, cursor, limit);
    }
  }
}
