/** What a page of the public audit says: about the chain, in every state of the service, and about
    the rows behind it, whatever they are. */
module TallyPages {
  import opened Basics
  import opened LedgerTypes
  import opened LedgerEntries
  import opened LedgerInvariant
  import opened TallyStore
  import opened TallyPipeline
  import opened TallySafety
  import opened TallyRuns
  import opened TallyAudit

  // ── when there is a page ───────────────────────────────────────────

  ghost predicate GoodQuery(D: Deployment, q: Query) {
    && 1 <= q.campaign <= 0xFFFF_FFFF_FFFF_FFFF && 1 <= q.period <= 0xFFFF_FFFF_FFFF_FFFF && 1 <= |q.code| <= 64
    && (q.contract == "" || q.contract == D.contract || q.contract == D.legacy)
    && 0 <= q.cursor <= 0x7FFF_FFFF_FFFF_FFFF && 1 <= q.limit <= 100
  }

  lemma QueryIff(D: Deployment, q: Query)
    ensures QueryProblem(D, q).None? <==> GoodQuery(D, q)
  {
  }

  /** A receipt as the audit wants it: hashed and signed, and saying of itself what the query and the
      row say. */
  ghost predicate Genuine(D: Deployment, q: Query, item: Item) {
    && item.receipt.Some?
    && var r := item.receipt.value;
    && r.leaf == D.sha(r.payload) && r.signatureValid && r.payload.signer == r.signer
    && r.payload.campaign == q.campaign && r.payload.code == q.code && r.payload.count == item.count > 0
    && (r.payload.version == 1
        || (r.payload.version == 2 && r.payload.network == D.network
            && r.payload.contract == if q.contract == "" then D.contract else q.contract))
  }

  /** The page that begins at the cursor and ends at `to`. */
  function End(q: Query, total: nat): int { if q.cursor + q.limit < total then q.cursor + q.limit else total }

  ghost predicate GoodSet(D: Deployment, row: TallyRow, items: seq<Item>, q: Query) {
    && 1 <= |items| <= 10_000 && q.cursor <= |items| && AllSigned(items)
    && Sum(items) == row.count && RootOf(D, items) == row.root
    && forall i :: q.cursor <= i < End(q, |items|) && 0 <= i < |items| ==> Genuine(D, q, items[i])
  }

  lemma SetIff(D: Deployment, row: TallyRow, items: seq<Item>, q: Query)
    requires GoodQuery(D, q)
    ensures SetProblem(D, row, items, q.cursor).None? <==>
            && 1 <= |items| <= 10_000 && q.cursor <= |items| && AllSigned(items)
            && Sum(items) == row.count && RootOf(D, items) == row.root
  {
  }

  lemma GenuineIff(D: Deployment, q: Query, item: Item)
    requires item.receipt.Some?
    ensures ReceiptProblem(D, q, item).None? <==> Genuine(D, q, item)
  {
  }

  lemma {:induction false} CleanIff(D: Deployment, q: Query, items: seq<Item>)
    requires AllSigned(items)
    ensures PageProblem(D, q, items).None? <==> forall i :: 0 <= i < |items| ==> Genuine(D, q, items[i])
  {
    if items != [] {
      GenuineIff(D, q, items[0]);
      CleanIff(D, q, items[1..]);
      assert forall i :: 1 <= i < |items| ==> items[i] == items[1..][i - 1];
      if PageProblem(D, q, items).None? {
        forall i | 0 <= i < |items| ensures Genuine(D, q, items[i]) { if i > 0 { assert Genuine(D, q, items[1..][i - 1]); } }
      }
      if forall i :: 0 <= i < |items| ==> Genuine(D, q, items[i]) {
        forall i | 0 <= i < |items[1..]| ensures Genuine(D, q, items[1..][i]) { assert Genuine(D, q, items[i + 1]); }
      }
    }
  }

  lemma RowsIff(D: Deployment, row: TallyRow, items: seq<Item>, q: Query)
    requires GoodQuery(D, q)
    ensures AuditRows(D, row, items, q).Ok? <==> GoodSet(D, row, items, q)
  {
    SetIff(D, row, items, q);
    if SetProblem(D, row, items, q.cursor).None? {
      var page := items[q.cursor..End(q, |items|)];
      CleanIff(D, q, page);
      if GoodSet(D, row, items, q) {
        forall i | 0 <= i < |page| ensures Genuine(D, q, page[i]) { assert page[i] == items[q.cursor + i]; }
      }
      if forall i :: 0 <= i < |page| ==> Genuine(D, q, page[i]) {
        forall i | q.cursor <= i < End(q, |items|) ensures Genuine(D, q, items[i]) { assert page[i - q.cursor] == items[i]; }
      }
    }
  }

  lemma {:induction false} SignedCountIs(items: seq<Item>)
    ensures SignedCount(items) == 0 <==> forall i :: 0 <= i < |items| ==> items[i].receipt.None?
  {
    if items != [] {
      SignedCountIs(items[..|items| - 1]);
      assert forall i :: 0 <= i < |items| - 1 ==> items[i] == items[..|items| - 1][i];
    }
  }

  /** The problem of a set that is named is one that the rows have. */
  lemma SetProblemsAreReal(D: Deployment, row: TallyRow, items: seq<Item>, cursor: int)
    requires SetProblem(D, row, items, cursor).Some?
    ensures match SetProblem(D, row, items, cursor).value
            case NoReceipts => items == []
            case BadSize => |items| > 10_000
            case CountDiffers => Sum(items) != row.count
            case NoneSigned => forall i :: 0 <= i < |items| ==> items[i].receipt.None?
            case SomeUnsigned => !AllSigned(items) && exists i :: 0 <= i < |items| && items[i].receipt.Some?
            case CursorTooFar => cursor > |items|
            case RootDiffers => AllSigned(items) && RootOf(D, items) != row.root
            case _ => false
  {
    SignedCountIs(items);
  }

  /** The first local code under the query's name that has a tally for its period. */
  ghost predicate Names(c: Cloud, q: Query, shared: nat) {
    && 0 < q.campaign <= U64_MAX && 0 < q.period <= U64_MAX && shared < |c.codes|
    && c.codes[shared].key == CodeKey(q.campaign, q.code) && TallyKey(shared, q.period) in c.tallies
    && forall i :: 0 <= i < shared ==> c.codes[i].key != CodeKey(q.campaign, q.code) || TallyKey(i, q.period) !in c.tallies
  }

  lemma {:induction false} FindsFirst(c: Cloud, key: CodeKey, period: u64, i: nat)
    ensures var r := FindTally(c, key, period, i);
            && (r.None? ==> forall j :: i <= j < |c.codes| ==> c.codes[j].key != key || TallyKey(j, period) !in c.tallies)
            && (r.Some? ==> forall j :: i <= j < r.value ==> c.codes[j].key != key || TallyKey(j, period) !in c.tallies)
    decreases |c.codes| - i
  {
    if i < |c.codes| && !(c.codes[i].key == key && TallyKey(i, period) in c.tallies) { FindsFirst(c, key, period, i + 1); }
  }

  lemma FindIs(D: Deployment, c: Cloud, q: Query)
    requires GoodQuery(D, q)
    ensures var found := FindTally(c, CodeKey(q.campaign, q.code), q.period, 0);
            && (found.None? ==> forall i :: !Names(c, q, i))
            && (found.Some? ==> Names(c, q, found.value) && forall i :: Names(c, q, i) ==> i == found.value)
  {
    FindsFirst(c, CodeKey(q.campaign, q.code), q.period, 0);
  }

  /** There is a page exactly for a good query about the deployment's own contract that names a tally
      whose rows are 1 to 10,000, all signed, add up to its count and hash to its root, up to whose end
      the cursor lies, and whose receipts on that page are genuine. */
  lemma PageIff(D: Deployment, c: Cloud, q: Query, shared: nat)
    requires GoodQuery(D, q) && Names(c, q, shared)
    ensures var k := TallyKey(shared, q.period);
            Audit(D, c, q).Ok? <==> q.contract in {"", D.contract} && GoodSet(D, c.tallies[k], Stamped(c, k), q)
  {
    var k := TallyKey(shared, q.period);
    QueryIff(D, q);
    FindIs(D, c, q);
    RowsIff(D, c.tallies[k], Stamped(c, k), q);
  }

  lemma {:induction false} NotFoundIsNoPageProblem(D: Deployment, q: Query, items: seq<Item>)
    requires AllSigned(items)
    ensures PageProblem(D, q, items) != Some(NotFound)
  {
    if items != [] { NotFoundIsNoPageProblem(D, q, items[1..]); }
  }

  lemma RowsAreFound(D: Deployment, row: TallyRow, items: seq<Item>, q: Query)
    requires QueryProblem(D, q).None?
    ensures AuditRows(D, row, items, q) != Err(NotFound)
  {
    if SetProblem(D, row, items, q.cursor).None? {
      NotFoundIsNoPageProblem(D, q, items[q.cursor..Min(q.cursor + q.limit, |items|)]);
    }
  }

  /** Without such a name, or about another contract, nothing is found. */
  lemma NoPageIff(D: Deployment, c: Cloud, q: Query)
    requires GoodQuery(D, q)
    ensures Audit(D, c, q) == Err(NotFound) <==> (forall i :: !Names(c, q, i)) || !(q.contract in {"", D.contract})
  {
    QueryIff(D, q);
    FindIs(D, c, q);
    var found := FindTally(c, CodeKey(q.campaign, q.code), q.period, 0);
    if found.Some? {
      var k := TallyKey(found.value, q.period);
      RowsAreFound(D, c.tallies[k], Stamped(c, k), q);
    }
  }

  // ── what the page says ─────────────────────────────────────────────

  /** A page and the rows behind it. */
  ghost predicate Says(page: Page, D: Deployment, row: TallyRow, items: seq<Item>, q: Query) {
    && 0 <= q.cursor <= End(q, |items|) <= |items| && AllSigned(items)
    && page.count == row.count == Sum(items) && page.root == row.root == RootOf(D, items) && page.total == |items|
    && |page.receipts| == End(q, |items|) - q.cursor
    && (forall j :: 0 <= j < |page.receipts| ==> ShowsRow(page.receipts[j].receipt, items[q.cursor + j]))
    && page.next == if End(q, |items|) < |items| then Some(End(q, |items|)) else None
  }

  /** The receipt is the row's, and has signed for the row's count. */
  ghost predicate ShowsRow(r: SignedReceipt, item: Item) { item.receipt == Some(r) && r.payload.count == item.count }

  lemma RowsSay(D: Deployment, row: TallyRow, items: seq<Item>, q: Query)
    requires GoodQuery(D, q) && AuditRows(D, row, items, q).Ok?
    ensures Says(AuditRows(D, row, items, q).value, D, row, items, q)
  {
    RowsIff(D, row, items, q);
    var page := AuditRows(D, row, items, q).value;
    var to := End(q, |items|);
    forall j | 0 <= j < |page.receipts| ensures ShowsRow(page.receipts[j].receipt, items[q.cursor + j]) {
      assert Genuine(D, q, items[q.cursor + j]);
    }
  }

  /** Whatever the rows are: a page that comes back carries the count of the tally, which is the sum of
      its rows, and each receipt on it has signed for the count of its own row. */
  lemma PageSays(D: Deployment, c: Cloud, q: Query) returns (shared: nat)
    requires Audit(D, c, q).Ok?
    ensures GoodQuery(D, q) && Names(c, q, shared)
    ensures var k := TallyKey(shared, q.period); Says(Audit(D, c, q).value, D, c.tallies[k], Stamped(c, k), q)
  {
    QueryIff(D, q);
    FindIs(D, c, q);
    shared := FindTally(c, CodeKey(q.campaign, q.code), q.period, 0).value;
    var k := TallyKey(shared, q.period);
    RowsSay(D, c.tallies[k], Stamped(c, k), q);
  }

  /** In every state of every run, at every cursor and with every page size: the audit of an indexed
      tally answers, with the count and the root that are on the chain. */
  lemma PageShowsTheChain(D: Deployment, c: Cloud, k: TallyKey, cursor: int, limit: int)
    requires Live(D, c) && k in c.tallies && 0 <= cursor <= |Stamped(c, k)| && 1 <= limit <= 100 && k.period >= 1
    ensures k.shared < |c.codes| && ChainKey(c, k) in c.chain.ledger.tallies
    ensures var answer := Audit(D, c, Asks(c, k, cursor, limit));
            var twin := c.chain.ledger.tallies[ChainKey(c, k)];
            var items := Stamped(c, k);
            && answer.Ok? && answer.value.count == twin.count && answer.value.root == twin.merkleRoot
            && Says(answer.value, D, c.tallies[k], items, Asks(c, k, cursor, limit))
  {
    IndexedIsOnChain(D, c, k);
    var q := Asks(c, k, cursor, limit);
    QueryIff(D, q);
    AuditAlwaysPasses(D, c, k, cursor, limit);
    var shared := PageSays(D, c, q);
    LiveCodes(D, c);
    assert shared == k.shared;
  }

  lemma IndexedIsOnChain(D: Deployment, c: Cloud, k: TallyKey)
    requires Live(D, c) && k in c.tallies
    ensures k.shared < |c.codes| && ChainKey(c, k) in c.chain.ledger.tallies
    ensures var twin := c.chain.ledger.tallies[ChainKey(c, k)]; twin.count == c.tallies[k].count && twin.merkleRoot == c.tallies[k].root
    ensures 1 <= c.codes[k.shared].key.campaign && 1 <= |c.codes[k.shared].key.code| <= 64 && |Stamped(c, k)| <= 10_000
  {
    LiveIsSafe(D, c);
    assert TallyOk(D, c, k);
    var key := c.codes[k.shared].key;
    assert Registered(c.codes[k.shared], c.chain.ledger);
    RegisteredCodesAreShort(c.chain);
    ReachableOwners(c.chain);
  }

  // ── all pages together ─────────────────────────────────────────────

  /** What the receipts have signed for. */
  ghost function SignedSum(rs: seq<Published>): int
    decreases |rs|
  {
    if rs == [] then 0 else rs[0].receipt.payload.count + SignedSum(rs[1..])
  }

  lemma {:induction false} SignedJoins(a: seq<Published>, b: seq<Published>)
    ensures SignedSum(a + b) == SignedSum(a) + SignedSum(b)
    decreases |a|
  {
    if a == [] {
      assert [] + b == b;
    } else {
      assert (a + b)[1..] == a[1..] + b;
      SignedJoins(a[1..], b);
    }
  }

  lemma {:induction false} SignedIsCounted(rs: seq<Published>, items: seq<Item>, from: nat)
    requires from + |rs| <= |items| && forall j :: 0 <= j < |rs| ==> ShowsRow(rs[j].receipt, items[from + j])
    ensures SignedSum(rs) == Sum(items[..from + |rs|]) - Sum(items[..from])
    decreases |rs|
  {
    if rs != [] {
      var front := items[..from + 1];
      assert front[..from] == items[..from];
      forall j | 0 <= j < |rs[1..]| ensures ShowsRow(rs[1..][j].receipt, items[from + 1 + j]) {
        assert ShowsRow(rs[j + 1].receipt, items[from + (j + 1)]);
      }
      SignedIsCounted(rs[1..], items, from + 1);
    }
  }

  /** The audit at every cursor, of the tally that the query names. */
  function At(D: Deployment, c: Cloud, q: Query): nat -> Result<Page, Problem> {
    (cursor: nat) => Audit(D, c, q.(cursor := cursor))
  }

  lemma NamesNoCursor(c: Cloud, q: Query, cursor: int, i: nat)
    ensures Names(c, q.(cursor := cursor), i) <==> Names(c, q, i)
  {
  }

  /** The page at a cursor shows the rows from there on, and leads on to where it ends. */
  ghost predicate Tells(page: Page, items: seq<Item>, cursor: nat) {
    var to := cursor + |page.receipts|;
    && to <= |items| && (forall j :: 0 <= j < |page.receipts| ==> ShowsRow(page.receipts[j].receipt, items[cursor + j]))
    && page.next == if to < |items| then Some(to) else None
  }

  ghost predicate Telling(ask: nat -> Result<Page, Problem>, items: seq<Item>) {
    forall cursor: nat :: ask(cursor).Ok? ==> Tells(ask(cursor).value, items, cursor)
  }

  lemma SaysTells(page: Page, D: Deployment, row: TallyRow, items: seq<Item>, q: Query)
    requires Says(page, D, row, items, q)
    ensures q.cursor >= 0 && Tells(page, items, q.cursor)
  {
  }

  lemma NamesOne(c: Cloud, q: Query, i: nat, j: nat)
    requires Names(c, q, i) && Names(c, q, j)
    ensures i == j
  {
  }

  lemma PageTells(D: Deployment, c: Cloud, q: Query, shared: nat)
    requires Names(c, q, shared) && Audit(D, c, q).Ok?
    ensures q.cursor >= 0 && Tells(Audit(D, c, q).value, Stamped(c, TallyKey(shared, q.period)), q.cursor)
  {
    var i := PageSays(D, c, q);
    NamesOne(c, q, i, shared);
    var k := TallyKey(shared, q.period);
    SaysTells(Audit(D, c, q).value, D, c.tallies[k], Stamped(c, k), q);
  }

  lemma AuditTells(D: Deployment, c: Cloud, q: Query, shared: nat)
    requires Names(c, q, shared)
    ensures Telling(At(D, c, q), Stamped(c, TallyKey(shared, q.period)))
  {
    forall cursor: nat | At(D, c, q)(cursor).Ok?
      ensures Tells(At(D, c, q)(cursor).value, Stamped(c, TallyKey(shared, q.period)), cursor)
    {
      NamesNoCursor(c, q, cursor, shared);
      PageTells(D, c, q.(cursor := cursor), shared);
    }
  }

  lemma {:induction false} FollowAdds(ask: nat -> Result<Page, Problem>, items: seq<Item>, cursor: nat, fuel: nat)
    requires Telling(ask, items) && Follow(ask, cursor, fuel).Some?
    ensures cursor <= |items| && SignedSum(Follow(ask, cursor, fuel).value) == Sum(items) - Sum(items[..cursor])
    decreases fuel
  {
    var page := ask(cursor).value;
    var to := cursor + |page.receipts|;
    assert Tells(page, items, cursor);
    SignedIsCounted(page.receipts, items, cursor);
    if to < |items| {
      FollowAdds(ask, items, to, fuel - 1);
      SignedJoins(page.receipts, Follow(ask, to, fuel - 1).value);
    } else {
      assert items[..to] == items;
    }
  }

  /** A client that starts at cursor 0 and gets an answer to the end has seen receipts that have signed
      for exactly the count that the pages announce, whatever the rows are. */
  lemma SignedCountsAddUp(D: Deployment, c: Cloud, q: Query, fuel: nat)
    requires Follow(At(D, c, q), 0, fuel).Some?
    ensures var first := Audit(D, c, q.(cursor := 0));
            first.Ok? && first.value.count == SignedSum(Follow(At(D, c, q), 0, fuel).value)
  {
    var shared := PageSays(D, c, q.(cursor := 0));
    NamesNoCursor(c, q, 0, shared);
    AuditTells(D, c, q, shared);
    FollowAdds(At(D, c, q), Stamped(c, TallyKey(shared, q.period)), 0, fuel);
  }
}
