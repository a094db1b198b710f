/** The public audit of a tally: it recomputes count and root from the rows and pages through the
    signed receipts with one inclusion proof each. */
module TallyAudit {
  import opened Basics
  import opened LedgerTypes
  import opened TallyStore
  import opened TallyPipeline
  import opened TallySafety
  import opened TallyRuns
  import Merkle

  const MAX_PAGE: int := 100

  /** An empty `contract` asks for the current deployment. */
  datatype Query = Query(campaign: nat, code: string, period: nat, contract: string, cursor: int, limit: int)

  datatype Problem =
    | BadCampaign | BadPeriod | BadCode | UnknownContract | BadCursor | BadLimit | NotFound
    | NoReceipts | BadSize | CountDiffers | NoneSigned | SomeUnsigned | CursorTooFar | RootDiffers
    | LeafDiffers | PayloadDiffers | BadSignature

  datatype Published = Published(receipt: SignedReceipt, proof: seq<Merkle.Step<Bytes32>>)

  datatype Page = Page(count: nat, root: Bytes32, total: nat, receipts: seq<Published>, next: Option<nat>)

  // ── the audit as a function of the rows ────────────────────────────

  function Audited(D: Deployment, q: Query): string { if q.contract == "" then D.contract else q.contract }

  function QueryProblem(D: Deployment, q: Query): Option<Problem> {
    if q.campaign == 0 || q.campaign > U64_MAX then Some(BadCampaign)
    else if q.period == 0 || q.period > U64_MAX then Some(BadPeriod)
    else if q.code == "" || |q.code| > MAX_CODE_LEN then Some(BadCode)
    else if q.contract != "" && q.contract != D.contract && q.contract != D.legacy then Some(UnknownContract)
    else if q.cursor < 0 || q.cursor > I64_MAX then Some(BadCursor)
    else if q.limit < 1 || q.limit > MAX_PAGE then Some(BadLimit)
    else None
  }

  /** The code whose tally the query names, looking from the i-th on. */
  function FindTally(c: Cloud, key: CodeKey, period: u64, i: nat): (r: Option<nat>)
    ensures r.Some? ==> i <= r.value < |c.codes| && c.codes[r.value].key == key && TallyKey(r.value, period) in c.tallies
    decreases |c.codes| - i
  {
    if i >= |c.codes| then None
    else if c.codes[i].key == key && TallyKey(i, period) in c.tallies then Some(i)
    else FindTally(c, key, period, i + 1)
  }

  function SignedCount(items: seq<Item>): (n: nat)
    ensures n <= |items| && (n == |items| <==> AllSigned(items))
  {
    if items == [] then 0
    else
      var rest := SignedCount(items[..|items| - 1]);
      assert items == items[..|items| - 1] + [items[|items| - 1]];
      if items[|items| - 1].receipt.Some? then rest + 1 else rest
  }

  /** Problems of the set as a whole, in the order in which they are looked for. */
  function SetProblem(D: Deployment, row: TallyRow, items: seq<Item>, cursor: int): (r: Option<Problem>)
    ensures r.None? ==> items != [] && AllSigned(items) && cursor <= |items|
  {
    if items == [] then Some(NoReceipts)
    else if |items| > MAX_RECEIPTS then Some(BadSize)
    else if Sum(items) != row.count then Some(CountDiffers)
    else if SignedCount(items) == 0 then Some(NoneSigned)
    else if SignedCount(items) != |items| then Some(SomeUnsigned)
    else if cursor > |items| then Some(CursorTooFar)
    else if RootOf(D, items) != row.root then Some(RootDiffers)
    else None
  }

  function ReceiptProblem(D: Deployment, q: Query, item: Item): Option<Problem>
    requires item.receipt.Some?
  {
    var r := item.receipt.value;
    if D.sha(r.payload) != r.leaf then Some(LeafDiffers)
    else if r.payload.version != 1 && r.payload.version != 2 then Some(PayloadDiffers)
    else if r.payload.version == 2 && (r.payload.network != D.network || r.payload.contract != Audited(D, q)) then Some(PayloadDiffers)
    else if r.payload.campaign != q.campaign || r.payload.code != q.code || r.payload.count <= 0
            || r.payload.count != item.count || r.payload.signer != r.signer then Some(PayloadDiffers)
    else if !r.signatureValid then Some(BadSignature)
    else None
  }

  /** The first problem of a page. */
  function PageProblem(D: Deployment, q: Query, items: seq<Item>): Option<Problem>
    requires AllSigned(items)
  {
    if items == [] then None
    else if ReceiptProblem(D, q, items[0]).Some? then ReceiptProblem(D, q, items[0])
    else PageProblem(D, q, items[1..])
  }

  function Publish(D: Deployment, items: seq<Item>, from: nat, to: nat): (r: seq<Published>)
    requires from <= to <= |items| && AllSigned(items)
    ensures |r| == to - from
    ensures forall j :: 0 <= j < |r| ==>
              r[j] == Published(items[from + j].receipt.value, Merkle.Proof(D.parent, Leaves(items), from + j))
  {
    seq(to - from, j requires 0 <= j < to - from =>
      Published(items[from + j].receipt.value, Merkle.Proof(D.parent, Leaves(items), from + j)))
  }

  function PageOf(D: Deployment, row: TallyRow, items: seq<Item>, from: nat, to: nat): Page
    requires from <= to <= |items| && AllSigned(items)
  {
    Page(row.count, row.root, |items|, Publish(D, items, from, to), if to < |items| then Some(to) else None)
  }

  /** The rows of the model are of the current deployment. */
  function Audit(D: Deployment, c: Cloud, q: Query): Result<Page, Problem> {
    if QueryProblem(D, q).Some? then Err(QueryProblem(D, q).value)
    else
      var shared := FindTally(c, CodeKey(q.campaign, q.code), q.period, 0);
      if shared.None? || Audited(D, q) != D.contract then Err(NotFound)
      else AuditRows(D, c.tallies[TallyKey(shared.value, q.period)], Stamped(c, TallyKey(shared.value, q.period)), q)
  }

  function AuditRows(D: Deployment, row: TallyRow, items: seq<Item>, q: Query): Result<Page, Problem>
    requires QueryProblem(D, q).None?
  {
    if SetProblem(D, row, items, q.cursor).Some? then Err(SetProblem(D, row, items, q.cursor).value)
    else
      var to := Min(q.cursor + q.limit, |items|);
      if PageProblem(D, q, items[q.cursor..to]).Some? then Err(PageProblem(D, q, items[q.cursor..to]).value)
      else Ok(PageOf(D, row, items, q.cursor, to))
  }

  // ── the handler ────────────────────────────────────────────────────

  /** SELECT of the receipts of one period, with their counts, in id order. */
  method SelectStamped(c: Cloud, k: TallyKey) returns (items: seq<Item>)
    ensures items == Stamped(c, k)
  {
    items := [];
    for i := 0 to |c.events|
      invariant items == Items(Rows(c.events, k.shared, In(k.period), i))
    {
      if c.events[i].shared == k.shared && c.events[i].mark == In(k.period) {
        items := items + [Item(c.events[i].count, c.events[i].receipt)];
      }
    }
  }

  method SumOfCounts(items: seq<Item>) returns (total: nat, signed: nat)
    ensures total == Sum(items) && signed == SignedCount(items)
  {
    total, signed := 0, 0;
    for i := 0 to |items|
      invariant total == Sum(items[..i]) && signed == SignedCount(items[..i])
    {
      assert items[..i + 1][..i] == items[..i];
      total := total + items[i].count;
      if items[i].receipt.Some? { signed := signed + 1; }
    }
    assert items[..|items|] == items;
  }

  method AuditTally(D: Deployment, c: Cloud, q: Query) returns (r: Result<Page, Problem>)
    ensures r == Audit(D, c, q)
  {
    if QueryProblem(D, q).Some? { return Err(QueryProblem(D, q).value); }
    var shared := FindTally(c, CodeKey(q.campaign, q.code), q.period, 0);
    if shared.None? || Audited(D, q) != D.contract { return Err(NotFound); }
    var k := TallyKey(shared.value, q.period);
    var items := SelectStamped(c, k);
    r := AuditSet(D, c.tallies[k], items, q);
  }

  method AuditSet(D: Deployment, row: TallyRow, items: seq<Item>, q: Query) returns (r: Result<Page, Problem>)
    requires QueryProblem(D, q).None?
    ensures r == AuditRows(D, row, items, q)
  {
    if items == [] { return Err(NoReceipts); }
    if |items| > MAX_RECEIPTS { return Err(BadSize); }
    var total, signed := SumOfCounts(items);
    if total != row.count { return Err(CountDiffers); }
    if signed == 0 { return Err(NoneSigned); }
    if signed != |items| { return Err(SomeUnsigned); }
    if q.cursor > |items| { return Err(CursorTooFar); }
    var leaves := LeavesOf(items);
    var levels, _ := Merkle.BuildLevels(D.parent, leaves);
    if levels[|levels| - 1][0] != row.root { return Err(RootDiffers); }
    r := PageFrom(D, row, items, levels, q);
  }

  method LeavesOf(items: seq<Item>) returns (leaves: seq<Bytes32>)
    requires AllSigned(items)
    ensures leaves == Leaves(items)
  {
    leaves := [];
    for i := 0 to |items|
      invariant leaves == Leaves(items)[..i]
    {
      leaves := leaves + [items[i].receipt.value.leaf];
    }
  }

  lemma PublishNext(D: Deployment, items: seq<Item>, from: nat, i: nat)
    requires from <= i < |items| && AllSigned(items)
    ensures Publish(D, items, from, i + 1)
         == Publish(D, items, from, i) + [Published(items[i].receipt.value, Merkle.Proof(D.parent, Leaves(items), i))]
  {
  }

  lemma RowsAre(D: Deployment, row: TallyRow, items: seq<Item>, q: Query, to: nat)
    requires QueryProblem(D, q).None? && SetProblem(D, row, items, q.cursor).None? && to == Min(q.cursor + q.limit, |items|)
    ensures 0 <= q.cursor <= to && AllSigned(items)
    ensures var problem := PageProblem(D, q, items[q.cursor..to]);
            AuditRows(D, row, items, q) == if problem.Some? then Err(problem.value) else Ok(PageOf(D, row, items, q.cursor, to))
  {
  }

  /** Checks the receipts of the page, then attaches the proofs. */
  method PageFrom(D: Deployment, row: TallyRow, items: seq<Item>, levels: seq<seq<Bytes32>>, q: Query) returns (r: Result<Page, Problem>)
    requires QueryProblem(D, q).None? && SetProblem(D, row, items, q.cursor).None?
    requires levels == Merkle.Levels(D.parent, Leaves(items))
    ensures r == AuditRows(D, row, items, q)
  {
    var to := Min(q.cursor + q.limit, |items|);
    RowsAre(D, row, items, q, to);
    var problem := CheckPage(D, q, items[q.cursor..to]);
    if problem.Some? { return Err(problem.value); }
    var receipts := ProvePage(D, items, levels, q.cursor, to);
    r := Ok(Page(row.count, row.root, |items|, receipts, if to < |items| then Some(to) else None));
  }

  method CheckPage(D: Deployment, q: Query, page: seq<Item>) returns (r: Option<Problem>)
    requires AllSigned(page)
    ensures r == PageProblem(D, q, page)
  {
    for i := 0 to |page|
      invariant PageProblem(D, q, page[i..]) == PageProblem(D, q, page)
    {
      assert page[i..][0] == page[i] && page[i..][1..] == page[i + 1..];
      if ReceiptProblem(D, q, page[i]).Some? { return ReceiptProblem(D, q, page[i]); }
    }
    return None;
  }

  method ProvePage(D: Deployment, items: seq<Item>, levels: seq<seq<Bytes32>>, from: nat, to: nat) returns (r: seq<Published>)
    requires from <= to <= |items| && AllSigned(items) && levels == Merkle.Levels(D.parent, Leaves(items))
    ensures r == Publish(D, items, from, to)
  {
    r := [];
    for i := from to to
      invariant r == Publish(D, items, from, i)
    {
      var proof := Merkle.ProofFromLevels(D.parent, Leaves(items), levels, i);
      PublishNext(D, items, from, i);
      r := r + [Published(items[i].receipt.value, proof.value)];
    }
  }

  // ── commit and audit agree ─────────────────────────────────────────

  /** The rows of a tally are as the service records them. */
  ghost predicate Sound(D: Deployment, row: TallyRow, items: seq<Item>, campaign: nat, code: string) {
    && 1 <= |items| <= MAX_RECEIPTS && AllSigned(items)
    && row.count == Sum(items) && row.root == RootOf(D, items)
    && forall i :: 0 <= i < |items| ==>
         var r := items[i].receipt.value;
         && r.leaf == D.sha(r.payload) && r.signatureValid && r.payload.signer == r.signer
         && r.payload.version == 2 && r.payload.network == D.network && r.payload.contract == D.contract
         && r.payload.campaign == campaign && r.payload.code == code && r.payload.count == items[i].count > 0
  }

  lemma {:induction false} NoPageProblem(D: Deployment, q: Query, items: seq<Item>)
    requires AllSigned(items) && forall i :: 0 <= i < |items| ==> ReceiptProblem(D, q, items[i]).None?
    ensures PageProblem(D, q, items).None?
  {
    if items != [] { NoPageProblem(D, q, items[1..]); }
  }

  lemma SoundRowsPass(D: Deployment, row: TallyRow, items: seq<Item>, q: Query)
    requires QueryProblem(D, q).None? && Sound(D, row, items, q.campaign, q.code) && q.cursor <= |items| && Audited(D, q) == D.contract
    ensures AuditRows(D, row, items, q) == Ok(PageOf(D, row, items, q.cursor, Min(q.cursor + q.limit, |items|)))
  {
    NoPageProblem(D, q, items[q.cursor..Min(q.cursor + q.limit, |items|)]);
  }

  /** In every state a run leads to, the rows of every indexed tally are sound. */
  lemma IndexedRowsAreSound(D: Deployment, c: Cloud, k: TallyKey)
    requires Live(D, c) && k in c.tallies
    ensures k.shared < |c.codes|
    ensures Sound(D, c.tallies[k], Stamped(c, k), c.codes[k.shared].key.campaign, c.codes[k.shared].key.code)
  {
    LiveIsSafe(D, c);
    assert TallyOk(D, c, k);
    var rows := Rows(c.events, k.shared, In(k.period), |c.events|);
    RowsFrom(c.events, k.shared, In(k.period), |c.events|);
    forall i | 0 <= i < |rows|
      ensures rows[i].shared == k.shared && rows[i].count >= 1 && GoodReceipt(D, c.codes[k.shared], rows[i])
    {
      assert rows[i] in c.events;
    }
  }

  lemma {:induction false} FindsIt(D: Deployment, c: Cloud, k: TallyKey, i: nat)
    requires CodesOk(c.codes, c.chain.ledger) && k in c.tallies && i <= k.shared < |c.codes|
    ensures FindTally(c, c.codes[k.shared].key, k.period, i) == Some(k.shared)
    decreases k.shared - i
  {
    if i < k.shared { FindsIt(D, c, k, i + 1); }
  }

  /** The query that asks for a page of the tally `k`. */
  function Asks(c: Cloud, k: TallyKey, cursor: int, limit: int): Query
    requires k.shared < |c.codes|
  {
    Query(c.codes[k.shared].key.campaign, c.codes[k.shared].key.code, k.period, "", cursor, limit)
  }

  lemma SoundAudit(D: Deployment, c: Cloud, k: TallyKey, cursor: int, limit: int)
    requires CodesOk(c.codes, c.chain.ledger) && k in c.tallies && k.shared < |c.codes|
    requires Sound(D, c.tallies[k], Stamped(c, k), c.codes[k.shared].key.campaign, c.codes[k.shared].key.code)
    requires QueryProblem(D, Asks(c, k, cursor, limit)).None? && cursor <= |Stamped(c, k)|
    ensures var items := Stamped(c, k);
            Audit(D, c, Asks(c, k, cursor, limit)) == Ok(PageOf(D, c.tallies[k], items, cursor, Min(cursor + limit, |items|)))
  {
    FindsIt(D, c, k, 0);
    SoundRowsPass(D, c.tallies[k], Stamped(c, k), Asks(c, k, cursor, limit));
  }

  /** The audit of every indexed tally passes, at every cursor, in every state of every run: it
      recomputes what the commit anchored, and each receipt comes with a proof that folds to the
      root which is also on the chain. */
  lemma AuditAlwaysPasses(D: Deployment, c: Cloud, k: TallyKey, cursor: int, limit: int)
    requires Live(D, c) && k in c.tallies && k.shared < |c.codes|
    requires QueryProblem(D, Asks(c, k, cursor, limit)).None? && cursor <= |Stamped(c, k)|
    ensures AllSigned(Stamped(c, k))
    ensures var items := Stamped(c, k);
            Audit(D, c, Asks(c, k, cursor, limit)) == Ok(PageOf(D, c.tallies[k], items, cursor, Min(cursor + limit, |items|)))
  {
    IndexedRowsAreSound(D, c, k);
    LiveCodes(D, c);
    SoundAudit(D, c, k, cursor, limit);
  }

  lemma LiveCodes(D: Deployment, c: Cloud)
    requires Live(D, c)
    ensures CodesOk(c.codes, c.chain.ledger)
  {
    LiveIsSafe(D, c);
  }

  /** What a published receipt proves to a reader who knows the query, the root and the total. */
  ghost predicate Convincing(D: Deployment, q: Query, r: Published, i: nat, root: Bytes32, total: nat) {
    && i < total
    && Merkle.Fold(D.parent, r.receipt.leaf, r.proof) == root
    && Merkle.Directions(r.proof) == Merkle.Shape(total, i)
    && D.sha(r.receipt.payload) == r.receipt.leaf && r.receipt.signatureValid
    && r.receipt.payload.campaign == q.campaign && r.receipt.payload.code == q.code
    && r.receipt.payload.count > 0 && r.receipt.payload.signer == r.receipt.signer && r.receipt.payload.version in {1, 2}
    && (r.receipt.payload.version == 2 ==> r.receipt.payload.network == D.network && r.receipt.payload.contract == Audited(D, q))
  }

  lemma PublishFolds(D: Deployment, items: seq<Item>, from: nat, to: nat, j: nat)
    requires from <= to <= |items| && AllSigned(items) && j < to - from
    ensures var r := Publish(D, items, from, to)[j];
            && r.receipt == items[from + j].receipt.value
            && Merkle.Fold(D.parent, r.receipt.leaf, r.proof) == RootOf(D, items)
            && Merkle.Directions(r.proof) == Merkle.Shape(|items|, from + j)
  {
    Merkle.ProofFolds(D.parent, 0, Leaves(items), from + j);
    Merkle.ProofHasShape(D.parent, Leaves(items), from + j);
  }

  lemma PassedRows(D: Deployment, row: TallyRow, items: seq<Item>, q: Query)
    requires QueryProblem(D, q).None? && AuditRows(D, row, items, q).Ok?
    ensures AllSigned(items) && q.cursor <= |items| && row.root == RootOf(D, items)
    ensures var to := Min(q.cursor + q.limit, |items|);
            && AuditRows(D, row, items, q).value == PageOf(D, row, items, q.cursor, to)
            && PageProblem(D, q, items[q.cursor..to]).None?
  {
  }

  lemma CleanReceipt(D: Deployment, q: Query, items: seq<Item>, from: nat, to: nat, j: nat)
    requires from <= to <= |items| && AllSigned(items) && PageProblem(D, q, items[from..to]).None? && j < to - from
    ensures ReceiptProblem(D, q, items[from + j]).None?
  {
    PageIsClean(D, q, items[from..to], j);
  }

  lemma PageIsConvincing(D: Deployment, items: seq<Item>, q: Query, from: nat, to: nat, j: nat)
    requires from <= to <= |items| && AllSigned(items) && PageProblem(D, q, items[from..to]).None? && j < to - from
    ensures var r := Publish(D, items, from, to)[j];
            Convincing(D, q, r, from + j, RootOf(D, items), |items|) && r.receipt.leaf == Leaves(items)[from + j]
  {
    PublishFolds(D, items, from, to, j);
    CleanReceipt(D, q, items, from, to, j);
  }

  /** The same about a whole page. */
  ghost predicate ConvincingPage(D: Deployment, q: Query, page: Page, items: seq<Item>, from: nat, j: nat)
    requires AllSigned(items)
  {
    && j < |page.receipts| && Convincing(D, q, page.receipts[j], from + j, page.root, page.total)
    && page.root == RootOf(D, items) && page.total == |items|
    && page.receipts[j].receipt.leaf == Leaves(items)[from + j]
  }

  lemma PageOfIsConvincing(D: Deployment, row: TallyRow, items: seq<Item>, q: Query, from: nat, to: nat, j: nat)
    requires from <= to <= |items| && AllSigned(items) && PageProblem(D, q, items[from..to]).None? && j < to - from
    requires row.root == RootOf(D, items)
    ensures ConvincingPage(D, q, PageOf(D, row, items, from, to), items, from, j)
  {
    PageIsConvincing(D, items, q, from, to, j);
  }

  lemma RowsAreConvincing(D: Deployment, row: TallyRow, items: seq<Item>, q: Query, j: nat)
    requires QueryProblem(D, q).None? && AuditRows(D, row, items, q).Ok? && j < |AuditRows(D, row, items, q).value.receipts|
    ensures AllSigned(items) && ConvincingPage(D, q, AuditRows(D, row, items, q).value, items, q.cursor, j)
  {
    PassedRows(D, row, items, q);
    PageOfIsConvincing(D, row, items, q, q.cursor, Min(q.cursor + q.limit, |items|), j);
  }

  /** Whatever the rows are, a receipt that passes the audit is hashed, attributed and signed as it
      says, and its proof leads from its leaf to the published root. */
  lemma PublishedIsConvincing(D: Deployment, c: Cloud, q: Query, j: nat)
    requires Audit(D, c, q).Ok? && j < |Audit(D, c, q).value.receipts|
    ensures var page := Audit(D, c, q).value;
            Convincing(D, q, page.receipts[j], q.cursor + j, page.root, page.total)
  {
    var k := TallyKey(FindTally(c, CodeKey(q.campaign, q.code), q.period, 0).value, q.period);
    RowsAreConvincing(D, c.tallies[k], Stamped(c, k), q, j);
  }

  /** The leaves behind an audited page. */
  lemma LeavesBehind(D: Deployment, c: Cloud, q: Query, j: nat) returns (xs: seq<Bytes32>)
    requires Audit(D, c, q).Ok? && j < |Audit(D, c, q).value.receipts|
    ensures var page := Audit(D, c, q).value;
            && |xs| == page.total && Merkle.Root(D.parent, 0, xs) == page.root
            && q.cursor + j < |xs| && page.receipts[j].receipt.leaf == xs[q.cursor + j]
  {
    var k := TallyKey(FindTally(c, CodeKey(q.campaign, q.code), q.period, 0).value, q.period);
    RowsAreConvincing(D, c.tallies[k], Stamped(c, k), q, j);
    xs := Leaves(Stamped(c, k));
  }

  lemma {:induction false} PageIsClean(D: Deployment, q: Query, items: seq<Item>, j: nat)
    requires AllSigned(items) && PageProblem(D, q, items).None? && j < |items|
    ensures ReceiptProblem(D, q, items[j]).None?
  {
    if j > 0 { PageIsClean(D, q, items[1..], j - 1); }
  }

  // ── following next_cursor ──────────────────────────────────────────

  /** All receipts that a client sees that starts at `cursor` and follows next_cursor. */
  function Follow(ask: nat -> Result<Page, Problem>, cursor: nat, fuel: nat): Option<seq<Published>>
    decreases fuel
  {
    match ask(cursor)
    case Err(_) => None
    case Ok(page) =>
      if page.next.None? then Some(page.receipts)
      else if fuel == 0 then None
      else
        var rest := Follow(ask, page.next.value, fuel - 1);
        if rest.None? then None else Some(page.receipts + rest.value)
  }

  function Asking(D: Deployment, c: Cloud, k: TallyKey, limit: int): nat -> Result<Page, Problem>
    requires k.shared < |c.codes|
  {
    (cursor: nat) => Audit(D, c, Asks(c, k, cursor, limit))
  }

  /** Asked at any cursor up to the end, it gives the next page of `all`, and where to go on. */
  ghost predicate Serves(ask: nat -> Result<Page, Problem>, all: seq<Published>, limit: nat) {
    forall cursor: nat :: cursor <= |all| ==> ServesAt(ask(cursor), all, limit, cursor)
  }

  predicate ServesAt(answer: Result<Page, Problem>, all: seq<Published>, limit: nat, cursor: nat)
    requires cursor <= |all|
  {
    var to := Min(cursor + limit, |all|);
    answer.Ok? && answer.value.receipts == all[cursor..to] && answer.value.next == if to < |all| then Some(to) else None
  }

  lemma {:induction false} FollowFrom(ask: nat -> Result<Page, Problem>, all: seq<Published>, limit: nat, cursor: nat, fuel: nat)
    requires Serves(ask, all, limit) && limit >= 1 && cursor <= |all| <= fuel + cursor
    ensures Follow(ask, cursor, fuel) == Some(all[cursor..])
    decreases fuel
  {
    var to := Min(cursor + limit, |all|);
    assert ServesAt(ask(cursor), all, limit, cursor);
    if to < |all| {
      FollowFrom(ask, all, limit, to, fuel - 1);
      assert all[cursor..to] + all[to..] == all[cursor..];
    } else {
      assert all[cursor..to] == all[cursor..];
    }
  }

  lemma PublishPart(D: Deployment, items: seq<Item>, from: nat, to: nat)
    requires from <= to <= |items| && AllSigned(items)
    ensures Publish(D, items, from, to) == Publish(D, items, 0, |items|)[from..to]
  {
    var r := Publish(D, items, 0, |items|)[from..to];
    forall j | 0 <= j < to - from ensures Publish(D, items, from, to)[j] == r[j] {
    }
  }

  lemma SoundAnswer(D: Deployment, c: Cloud, k: TallyKey, limit: nat, cursor: nat)
    requires CodesOk(c.codes, c.chain.ledger) && k in c.tallies && k.shared < |c.codes|
    requires Sound(D, c.tallies[k], Stamped(c, k), c.codes[k.shared].key.campaign, c.codes[k.shared].key.code)
    requires cursor <= |Stamped(c, k)| && QueryProblem(D, Asks(c, k, 0, limit)).None?
    ensures ServesAt(Audit(D, c, Asks(c, k, cursor, limit)), Publish(D, Stamped(c, k), 0, |Stamped(c, k)|), limit, cursor)
  {
    SoundAudit(D, c, k, cursor, limit);
    PublishPart(D, Stamped(c, k), cursor, Min(cursor + limit, |Stamped(c, k)|));
  }

  lemma AuditServes(D: Deployment, c: Cloud, k: TallyKey, limit: nat)
    requires CodesOk(c.codes, c.chain.ledger) && k in c.tallies && k.shared < |c.codes|
    requires Sound(D, c.tallies[k], Stamped(c, k), c.codes[k.shared].key.campaign, c.codes[k.shared].key.code)
    requires QueryProblem(D, Asks(c, k, 0, limit)).None?
    ensures Serves(Asking(D, c, k, limit), Publish(D, Stamped(c, k), 0, |Stamped(c, k)|), limit)
  {
    var ask, all := Asking(D, c, k, limit), Publish(D, Stamped(c, k), 0, |Stamped(c, k)|);
    forall cursor: nat | cursor <= |all| ensures ServesAt(ask(cursor), all, limit, cursor) {
      SoundAnswer(D, c, k, limit, cursor);
    }
  }

  /** From cursor 0, with any page size, each receipt of the tally is seen once and in order; at
      most one request per receipt is needed. */
  lemma FollowingSeesEachReceiptOnce(D: Deployment, c: Cloud, k: TallyKey, limit: int)
    requires Live(D, c) && k in c.tallies && k.shared < |c.codes|
    requires QueryProblem(D, Asks(c, k, 0, limit)).None?
    ensures var items := Stamped(c, k);
            var all := Follow(Asking(D, c, k, limit), 0, |items|);
            && all.Some? && |all.value| == |items|
            && forall j :: 0 <= j < |items| ==>
                 && items[j].receipt == Some(all.value[j].receipt)
                 && Merkle.Fold(D.parent, all.value[j].receipt.leaf, all.value[j].proof) == c.tallies[k].root
  {
    var items := Stamped(c, k);
    IndexedRowsAreSound(D, c, k);
    LiveCodes(D, c);
    AuditServes(D, c, k, limit);
    FollowFrom(Asking(D, c, k, limit), Publish(D, items, 0, |items|), limit, 0, |items|);
    forall j | 0 <= j < |items|
      ensures var r := Publish(D, items, 0, |items|)[j];
              items[j].receipt == Some(r.receipt) && Merkle.Fold(D.parent, r.receipt.leaf, r.proof) == c.tallies[k].root
    {
      PublishFolds(D, items, 0, |items|, j);
    }
  }

  // ── what an audit binds the service to ─────────────────────────────

  /** A convincing receipt for place i of a list is the one at that place, or shows a collision. */
  lemma ConvincingBinds(D: Deployment, q: Query, r: Published, i: nat, xs: seq<Bytes32>) returns (p: Option<Merkle.Pairs<Bytes32>>)
    requires Convincing(D, q, r, i, Merkle.Root(D.parent, 0, xs), |xs|)
    ensures r.receipt.leaf == xs[i] || (p.Some? && Merkle.Collide(D.parent, p.value))
  {
    p := Merkle.ProofBinds(D.parent, 0, xs, i, r.receipt.leaf, r.proof);
  }

  /** Two published receipts for one place of one root, from whatever rows, are the same, or two
      inputs have appeared that one of the hash functions sends to one value. */
  ghost predicate SameOrCollision(D: Deployment, r: SignedReceipt, r': SignedReceipt, p: Option<Merkle.Pairs<Bytes32>>) {
    || r.payload == r'.payload
    || (D.sha(r.payload) == D.sha(r'.payload) && r.payload != r'.payload)
    || (p.Some? && Merkle.Collide(D.parent, p.value))
  }

  lemma ReceiptsAgree(D: Deployment, q: Query, q': Query, r: Published, r': Published, i: nat, xs: seq<Bytes32>)
    returns (p: Option<Merkle.Pairs<Bytes32>>)
    requires Convincing(D, q, r, i, Merkle.Root(D.parent, 0, xs), |xs|)
    requires i < |xs| && r'.receipt.leaf == xs[i] == D.sha(r'.receipt.payload)
    ensures SameOrCollision(D, r.receipt, r'.receipt, p)
  {
    p := ConvincingBinds(D, q, r, i, xs);
  }

  lemma PagesAgree(D: Deployment, q: Query, q': Query, a: Page, b: Page, j: nat, j': nat, xs: seq<Bytes32>)
    returns (p: Option<Merkle.Pairs<Bytes32>>)
    requires a.root == b.root == Merkle.Root(D.parent, 0, xs) && a.total == b.total == |xs|
    requires j < |a.receipts| && j' < |b.receipts| && 0 <= q.cursor + j == q'.cursor + j' < |xs|
    requires Convincing(D, q, a.receipts[j], q.cursor + j, a.root, a.total)
    requires b.receipts[j'].receipt.leaf == xs[q'.cursor + j'] == D.sha(b.receipts[j'].receipt.payload)
    ensures SameOrCollision(D, a.receipts[j].receipt, b.receipts[j'].receipt, p)
  {
    p := ReceiptsAgree(D, q, q', a.receipts[j], b.receipts[j'], q.cursor + j, xs);
  }

  lemma CursorIsNat(D: Deployment, c: Cloud, q: Query)
    requires Audit(D, c, q).Ok?
    ensures q.cursor >= 0
  {
  }

  lemma AuditsAgree(D: Deployment, c: Cloud, c': Cloud, q: Query, q': Query, j: nat, j': nat) returns (p: Option<Merkle.Pairs<Bytes32>>)
    requires Audit(D, c, q).Ok? && Audit(D, c', q').Ok?
    requires var a, b := Audit(D, c, q).value, Audit(D, c', q').value;
             && a.root == b.root && a.total == b.total && j < |a.receipts| && j' < |b.receipts| && q.cursor + j == q'.cursor + j'
    ensures SameOrCollision(D, Audit(D, c, q).value.receipts[j].receipt, Audit(D, c', q').value.receipts[j'].receipt, p)
  {
    CursorIsNat(D, c, q);
    PublishedIsConvincing(D, c, q, j);
    PublishedIsConvincing(D, c', q', j');
    var xs := LeavesBehind(D, c', q', j');
    p := PagesAgree(D, q, q', Audit(D, c, q).value, Audit(D, c', q').value, j, j', xs);
  }
}
