/** Issuing a request of up to 1,000 codes in contract batches of 100: what is on the chain, what is
    reported, and what is charged, when any of the calls may fail or lose its answer. */
module Issuance {
  import opened Basics
  import opened LedgerTypes
  import opened LedgerSpec
  import opened LedgerExec
  import opened LedgerInvariant
  import opened LedgerHistory
  import opened LedgerEntries
  import Meter
  import opened CreditMeter

  const MAX_CODES: nat := 1_000

  /** What surrounds one call: what others do before it, whether it reaches the chain, and whether
      its success is reported back. */
  datatype Turn = Turn(before: seq<Frame>, ctx: Ctx, sent: bool, reported: bool)

  /** One request: the campaign, its codes, and the turns, indexed by where a chunk starts. */
  datatype Request = Request(owner: Address, campaign: u64, codes: seq<string>, turns: nat -> Turn)

  datatype IssuedCode = IssuedCode(code: string, tokenId: Option<u64>)

  /** `lost` are codes that a call minted without its success being reported. */
  datatype Progress = Progress(world: World, issued: seq<IssuedCode>, lost: seq<string>)

  function ChunkAt(codes: seq<string>, start: nat): seq<string>
    requires start <= |codes|
  {
    codes[start..Min(start + MAX_BATCH, |codes|)]
  }

  function IssueFrame(r: Request, ctx: Ctx, chunk: seq<string>): Frame {
    Frame(ctx.(signed := {r.owner}), IssueUnique(r.owner, r.campaign, chunk))
  }

  /** The response pairs the codes of a chunk with the ids that came back, as far as there are any. */
  function Pair(chunk: seq<string>, ids: seq<u64>): (p: seq<IssuedCode>)
    ensures |p| == |chunk|
    ensures forall i :: 0 <= i < |chunk| ==> p[i] == IssuedCode(chunk[i], if i < |ids| then Some(ids[i]) else None)
  {
    seq(|chunk|, i requires 0 <= i < |chunk| => IssuedCode(chunk[i], if i < |ids| then Some(ids[i]) else None))
  }

  function Ids(v: Value): seq<u64> { if v.TokenIds? then v.ids else [] }

  /** One call of the loop: the world after it, and the reply unless it does not come back. */
  function Call(w: World, r: Request, start: nat): (World, Option<Reply>)
    requires start <= |r.codes|
  {
    var t := r.turns(start);
    var w1 := ExecAll(w, t.before);
    if !t.sent then (w1, None)
    else
      var d := Exec(w1, IssueFrame(r, t.ctx, ChunkAt(r.codes, start)));
      (d.world, if t.reported || d.reply.Err? then Some(d.reply) else None)
  }

  /** Whether the chain minted the chunk, reported or not. */
  predicate Minted(w: World, r: Request, start: nat)
    requires start <= |r.codes|
  {
    var t := r.turns(start);
    t.sent && Exec(ExecAll(w, t.before), IssueFrame(r, t.ctx, ChunkAt(r.codes, start))).reply.Ok?
  }

  /** The chunk loop, from `start` on. */
  function IssueFrom(r: Request, start: nat, p: Progress): Progress
    requires start <= |r.codes|
    decreases |r.codes| - start, 1
  {
    if start == |r.codes| then p
    else
      var (w, reply) := Call(p.world, r, start);
      AfterCall(r, start, p, w, reply, Minted(p.world, r, start))
  }

  /** What the loop does with the answer to the call for the chunk at `start`. */
  function AfterCall(r: Request, start: nat, p: Progress, w: World, reply: Option<Reply>, minted: bool): Progress
    requires start < |r.codes|
    decreases |r.codes| - start, 0
  {
    var chunk := ChunkAt(r.codes, start);
    if reply.None? || reply.value.Err? then Progress(w, p.issued, if minted then p.lost + chunk else p.lost)
    else IssueFrom(r, start + |chunk|, Progress(w, p.issued + Pair(chunk, Ids(reply.value.value)), p.lost))
  }

  /** How the reservation is settled in the end, the deferred refund included. */
  function Outcome(r: Request, p: Progress, works: bool): Meter.Settlement {
    if |p.issued| == |r.codes| then Meter.Commit
    else if |p.issued| > 0 then Meter.CommitUsed(|p.issued| * Meter.MCR_PER_CODE, works)
    else Meter.Refund(works)
  }

  // ── which codes are issued ─────────────────────────────────────────

  /** A number of codes that ends a chunk, or is all of them. */
  ghost predicate Whole(r: Request, n: nat) { n <= |r.codes| && (n % MAX_BATCH == 0 || n == |r.codes|) }

  ghost predicate Shaped(r: Request, p: Progress) {
    && |p.issued| <= |r.codes|
    && forall i :: 0 <= i < |p.issued| ==> p.issued[i].code == r.codes[i]
  }

  lemma ShapedNext(r: Request, start: nat, issued: seq<IssuedCode>, ids: seq<u64>)
    requires start < |r.codes| && |issued| == start && start % MAX_BATCH == 0
    requires forall i :: 0 <= i < |issued| ==> issued[i].code == r.codes[i]
    ensures var more := issued + Pair(ChunkAt(r.codes, start), ids);
            && |more| == start + |ChunkAt(r.codes, start)| && Whole(r, |more|)
            && forall i :: 0 <= i < |more| ==> more[i].code == r.codes[i]
  {
    var chunk := ChunkAt(r.codes, start);
    var more := issued + Pair(chunk, ids);
    forall i | 0 <= i < |more| ensures more[i].code == r.codes[i] {
      if i >= start { assert more[i] == Pair(chunk, ids)[i - start] && chunk[i - start] == r.codes[i]; }
    }
  }

  /** What the loop leaves: a prefix made of whole chunks, or everything, and behind it at most the
      chunk whose success was not reported. */
  ghost predicate PrefixOk(r: Request, d: Progress) {
    && Shaped(r, d) && Whole(r, |d.issued|)
    && (d.lost == [] || (|d.issued| < |r.codes| && d.lost == ChunkAt(r.codes, |d.issued|)))
  }

  lemma StoppedIsPrefix(r: Request, p: Progress, d: Progress)
    requires PrefixOk(r, p) && p.lost == [] && |p.issued| < |r.codes| && d.issued == p.issued
    requires d.lost == p.lost || d.lost == p.lost + ChunkAt(r.codes, |p.issued|)
    ensures PrefixOk(r, d)
  {
  }

  lemma LongerIsPrefix(r: Request, p: Progress, ids: seq<u64>, w: World)
    requires PrefixOk(r, p) && p.lost == [] && |p.issued| < |r.codes|
    ensures var chunk := ChunkAt(r.codes, |p.issued|);
            var q := Progress(w, p.issued + Pair(chunk, ids), p.lost);
            PrefixOk(r, q) && |q.issued| == |p.issued| + |chunk|
  {
    ShapedNext(r, |p.issued|, p.issued, ids);
  }

  /** The codes reported as issued are a prefix of the request made of whole chunks, or all of it;
      an unreported chunk comes right after it. */
  lemma {:induction false} IssuedIsAPrefix(r: Request, start: nat, p: Progress)
    requires start <= |r.codes| && PrefixOk(r, p) && |p.issued| == start && p.lost == []
    ensures PrefixOk(r, IssueFrom(r, start, p))
    decreases |r.codes| - start, 1
  {
    if start < |r.codes| {
      var (w, reply) := Call(p.world, r, start);
      PrefixAfterCall(r, start, p, w, reply, Minted(p.world, r, start));
    }
  }

  lemma {:induction false} PrefixAfterCall(r: Request, start: nat, p: Progress, w: World, reply: Option<Reply>, minted: bool)
    requires start < |r.codes| && PrefixOk(r, p) && |p.issued| == start && p.lost == []
    ensures PrefixOk(r, AfterCall(r, start, p, w, reply, minted))
    decreases |r.codes| - start, 0
  {
    if reply.None? || reply.value.Err? {
      StoppedIsPrefix(r, p, AfterCall(r, start, p, w, reply, minted));
    } else {
      var ids := Ids(reply.value.value);
      LongerIsPrefix(r, p, ids, w);
      IssuedIsAPrefix(r, start + |ChunkAt(r.codes, start)|, Progress(w, p.issued + Pair(ChunkAt(r.codes, start), ids), p.lost));
    }
  }

  // ── they are on the chain ──────────────────────────────────────────

  /** The chain knows `code` as token `id` of the campaign. */
  ghost predicate OnLedger(s: State, campaign: u64, code: string, id: u64) {
    && CodeKey(campaign, code) in s.codeIndex && s.codeIndex[CodeKey(campaign, code)] == id
    && id in s.tokens && s.tokens[id].campaignId == campaign && s.tokens[id].code == code
  }

  ghost predicate AllOnLedger(s: State, campaign: u64, issued: seq<IssuedCode>) {
    forall i :: 0 <= i < |issued| ==> issued[i].tokenId.Some? && OnLedger(s, campaign, issued[i].code, issued[i].tokenId.value)
  }

  lemma {:induction false} RunsGrow(w: World, fs: seq<Frame>)
    requires Reachable(w)
    ensures Reachable(ExecAll(w, fs))
    decreases |fs|
  {
    if fs != [] {
      ReachableThen(w, fs[0]);
      RunsGrow(Exec(w, fs[0]).world, fs[1..]);
    }
  }

  lemma StaysOnLedger(w: World, run: seq<Frame>, campaign: u64, issued: seq<IssuedCode>)
    requires Reachable(w) && AllOnLedger(w.ledger, campaign, issued)
    ensures AllOnLedger(ExecAll(w, run).ledger, campaign, issued)
  {
    ReachableIsFresh(w);
    HistoryOnlyGrows(w, run);
  }

  /** A minted token is found under its code. */
  lemma IndexedByCode(w: World, id: u64)
    requires Reachable(w) && id in w.ledger.tokens
    ensures var t := w.ledger.tokens[id]; OnLedger(w.ledger, t.campaignId, t.code, id)
  {
    ReachableIsGood(w);
  }

  lemma IssueIsCall(w: World, r: Request, ctx: Ctx, chunk: seq<string>)
    ensures var o := Issue(w.ledger, ctx.(signed := {r.owner}), r.owner, r.campaign, chunk);
            Exec(w, IssueFrame(r, ctx, chunk)) == Done(World(o.state, w.transfers), o.reply)
  {
  }

  lemma MintedAt(tokens: map<u64, Token>, from: nat, campaign: u64, codes: seq<string>, now: u64, id: u64)
    requires MintedFrom(tokens, from, campaign, codes, now) && from < id <= from + |codes|
    ensures id in tokens && tokens[id].campaignId == campaign && tokens[id].code == codes[id - from - 1]
  {
    assert id in tokens;
  }

  /** What a successful call leaves on the chain and returns. */
  lemma ChunkIsMinted(w: World, r: Request, ctx: Ctx, chunk: seq<string>)
    requires Reachable(w) && Exec(w, IssueFrame(r, ctx, chunk)).reply.Ok?
    ensures var d := Exec(w, IssueFrame(r, ctx, chunk));
            && |Ids(d.reply.value)| == |chunk|
            && d.world.ledger.tokenCtr == w.ledger.tokenCtr + |chunk|
            && AllOnLedger(d.world.ledger, r.campaign, Pair(chunk, Ids(d.reply.value)))
  {
    var f := IssueFrame(r, ctx, chunk);
    var d := Exec(w, f);
    IssueIsCall(w, r, ctx, chunk);
    BatchIsAllOrNothing(w, ctx.(signed := {r.owner}), r.owner, r.campaign, chunk);
    ReachableIsFresh(w);
    MintAllResult(w.ledger, r.campaign, chunk, ctx.now);
    ReachableThen(w, f);
    var ids := Ids(d.reply.value);
    var p := Pair(chunk, ids);
    forall i | 0 <= i < |p| ensures p[i].tokenId.Some? && OnLedger(d.world.ledger, r.campaign, p[i].code, p[i].tokenId.value) {
      assert ids[i] == w.ledger.tokenCtr + 1 + i;
      MintedAt(d.world.ledger.tokens, w.ledger.tokenCtr, r.campaign, chunk, ctx.now, ids[i]);
      IndexedByCode(d.world, ids[i]);
    }
  }

  ghost predicate LostOnLedger(s: State, campaign: u64, lost: seq<string>) {
    forall i :: 0 <= i < |lost| ==> CodeKey(campaign, lost[i]) in s.codeIndex
  }

  /** One call keeps what was on the chain, and adds its chunk if it was minted. */
  lemma CallKeeps(p: Progress, r: Request, start: nat)
    requires start < |r.codes| && Reachable(p.world) && AllOnLedger(p.world.ledger, r.campaign, p.issued)
    ensures var (w, reply) := Call(p.world, r, start);
            var chunk := ChunkAt(r.codes, start);
            && Reachable(w) && AllOnLedger(w.ledger, r.campaign, p.issued)
            && (reply.Some? && reply.value.Ok? ==>
                  Minted(p.world, r, start) && AllOnLedger(w.ledger, r.campaign, Pair(chunk, Ids(reply.value.value))))
            && (Minted(p.world, r, start) ==> LostOnLedger(w.ledger, r.campaign, chunk))
  {
    var t := r.turns(start);
    var w1 := ExecAll(p.world, t.before);
    RunsGrow(p.world, t.before);
    StaysOnLedger(p.world, t.before, r.campaign, p.issued);
    if t.sent {
      var chunk := ChunkAt(r.codes, start);
      var f := IssueFrame(r, t.ctx, chunk);
      ReachableThen(w1, f);
      OneCallKeeps(w1, f, r.campaign, p.issued);
      if Minted(p.world, r, start) {
        ChunkIsMinted(w1, r, t.ctx, chunk);
        CodesOnLedger(Exec(w1, f).world.ledger, r.campaign, chunk, Ids(Exec(w1, f).reply.value));
      }
    }
  }

  lemma CodesOnLedger(s: State, campaign: u64, chunk: seq<string>, ids: seq<u64>)
    requires AllOnLedger(s, campaign, Pair(chunk, ids))
    ensures LostOnLedger(s, campaign, chunk)
  {
    forall i | 0 <= i < |chunk| ensures CodeKey(campaign, chunk[i]) in s.codeIndex { assert Pair(chunk, ids)[i].code == chunk[i]; }
  }

  lemma OneCallKeeps(w: World, f: Frame, campaign: u64, issued: seq<IssuedCode>)
    requires Reachable(w) && AllOnLedger(w.ledger, campaign, issued)
    ensures AllOnLedger(Exec(w, f).world.ledger, campaign, issued)
  {
    ReachableIsFresh(w);
    OneCallGrows(w, f);
  }

  lemma Joined(s: State, campaign: u64, a: seq<IssuedCode>, b: seq<IssuedCode>)
    requires AllOnLedger(s, campaign, a) && AllOnLedger(s, campaign, b)
    ensures AllOnLedger(s, campaign, a + b)
  {
  }

  /** Everything in the lists is on the chain. */
  ghost predicate LedgerOk(r: Request, d: Progress) {
    && Reachable(d.world) && AllOnLedger(d.world.ledger, r.campaign, d.issued)
    && LostOnLedger(d.world.ledger, r.campaign, d.lost)
  }

  /** Everything reported as issued is on the chain under the reported token id, and so are the
      codes of a chunk whose success was lost, whatever others did in between. */
  lemma {:induction false} IssuedIsOnLedger(r: Request, start: nat, p: Progress)
    requires start <= |r.codes| && LedgerOk(r, p) && p.lost == []
    ensures LedgerOk(r, IssueFrom(r, start, p))
    decreases |r.codes| - start, 1
  {
    if start < |r.codes| {
      var (w, reply) := Call(p.world, r, start);
      CallKeeps(p, r, start);
      LedgerAfterCall(r, start, p, w, reply, Minted(p.world, r, start));
    }
  }

  lemma {:induction false} LedgerAfterCall(r: Request, start: nat, p: Progress, w: World, reply: Option<Reply>, minted: bool)
    requires start < |r.codes| && p.lost == [] && Reachable(w) && AllOnLedger(w.ledger, r.campaign, p.issued)
    requires reply.Some? && reply.value.Ok? ==>
               AllOnLedger(w.ledger, r.campaign, Pair(ChunkAt(r.codes, start), Ids(reply.value.value)))
    requires minted ==> LostOnLedger(w.ledger, r.campaign, ChunkAt(r.codes, start))
    ensures LedgerOk(r, AfterCall(r, start, p, w, reply, minted))
    decreases |r.codes| - start, 0
  {
    var chunk := ChunkAt(r.codes, start);
    Regroup([], chunk, []);
    if reply.Some? && reply.value.Ok? {
      var more := Pair(chunk, Ids(reply.value.value));
      Joined(w.ledger, r.campaign, p.issued, more);
      IssuedIsOnLedger(r, start + |chunk|, Progress(w, p.issued + more, p.lost));
    }
  }

  /** Nobody else acts in between. */
  ghost predicate Alone(r: Request) { forall i :: r.turns(i).before == [] }

  /** The chain's token counter moves by exactly the codes issued and lost. */
  lemma {:induction false} CounterMoves(r: Request, start: nat, p: Progress)
    requires start <= |r.codes| && Reachable(p.world) && Alone(r) && p.lost == []
    ensures var d := IssueFrom(r, start, p);
            d.world.ledger.tokenCtr - p.world.ledger.tokenCtr == |d.issued| - |p.issued| + |d.lost|
    decreases |r.codes| - start
  {
    if start < |r.codes| {
      var t := r.turns(start);
      var (w, reply) := Call(p.world, r, start);
      var chunk := ChunkAt(r.codes, start);
      assert t.before == [];
      CallCounts(p.world, r, start);
      if reply.Some? && reply.value.Ok? {
        var q := Progress(w, p.issued + Pair(chunk, Ids(reply.value.value)), p.lost);
        if t.sent { ReachableThen(p.world, IssueFrame(r, t.ctx, chunk)); }
        CounterMoves(r, start + |chunk|, q);
      }
    }
  }

  lemma CallCounts(w: World, r: Request, start: nat)
    requires start < |r.codes| && Reachable(w) && r.turns(start).before == []
    ensures var (w', reply) := Call(w, r, start);
            && w'.ledger.tokenCtr == w.ledger.tokenCtr + (if Minted(w, r, start) then |ChunkAt(r.codes, start)| else 0)
            && (reply.Some? && reply.value.Ok? ==> Minted(w, r, start))
  {
    var t := r.turns(start);
    var chunk := ChunkAt(r.codes, start);
    if t.sent {
      IssueIsCall(w, r, t.ctx, chunk);
      if Minted(w, r, start) { ChunkIsMinted(w, r, t.ctx, chunk); }
      else { BatchIsAllOrNothing(w, t.ctx.(signed := {r.owner}), r.owner, r.campaign, chunk); }
    }
  }

  // ── what is charged ────────────────────────────────────────────────

  /** In the turns of the loop, a call reaches the chain, is accepted, and its success does not come
      back. */
  predicate LosesSuccess(r: Request, start: nat, w: World)
    requires start <= |r.codes|
    decreases |r.codes| - start
  {
    start < |r.codes| && Minted(w, r, start)
    && (!r.turns(start).reported || LosesSuccess(r, start + |ChunkAt(r.codes, start)|, Call(w, r, start).0))
  }

  lemma {:induction false} LostIff(r: Request, start: nat, p: Progress)
    requires start <= |r.codes| && p.lost == []
    ensures IssueFrom(r, start, p).lost != [] <==> LosesSuccess(r, start, p.world)
    decreases |r.codes| - start
  {
    if start < |r.codes| {
      var (w, reply) := Call(p.world, r, start);
      var chunk := ChunkAt(r.codes, start);
      if reply.Some? && reply.value.Ok? {
        LostIff(r, start + |chunk|, Progress(w, p.issued + Pair(chunk, Ids(reply.value.value)), p.lost));
      }
    }
  }

  /** When refunds succeed, the request costs exactly the codes reported as issued; so it costs
      exactly the codes that its calls minted if and only if no accepted call went unreported. */
  lemma ChargedForIssued(r: Request, w: World, name: string, works: bool)
    requires r.codes != []
    ensures var d := IssueFrom(r, 0, Progress(w, [], []));
            var hold := Meter.Hold(true, name, |r.codes| * Meter.MCR_PER_CODE, true);
            var cost := Meter.Cost(hold, Outcome(r, d, works));
            && (works ==> cost == |d.issued| * 2_000)
            && (works ==> (cost == (|d.issued| + |d.lost|) * 2_000 <==> !LosesSuccess(r, 0, w)))
            && (!works && |d.issued| < |r.codes| ==> cost == |r.codes| * 2_000)
  {
    IssuedIsAPrefix(r, 0, Progress(w, [], []));
    LostIff(r, 0, Progress(w, [], []));
  }

  // ── when everything is issued ──────────────────────────────────────

  /** From `start` on, every call is accepted and its success comes back. */
  ghost predicate AllReported(r: Request, start: nat, w: World)
    requires start <= |r.codes|
    decreases |r.codes| - start
  {
    start < |r.codes| ==>
      Minted(w, r, start) && r.turns(start).reported && AllReported(r, start + |ChunkAt(r.codes, start)|, Call(w, r, start).0)
  }

  /** Everything is issued if and only if every call is accepted and reported ... */
  lemma {:induction false} AllIssuedIff(r: Request, start: nat, p: Progress)
    requires start <= |r.codes| && |p.issued| == start
    ensures var d := IssueFrom(r, start, p);
            && (|d.issued| == |r.codes| <==> AllReported(r, start, p.world))
            && start <= |d.issued| <= |r.codes|
    decreases |r.codes| - start
  {
    if start < |r.codes| {
      var (w, reply) := Call(p.world, r, start);
      var chunk := ChunkAt(r.codes, start);
      assert Minted(p.world, r, start) && r.turns(start).reported <==> reply.Some? && reply.value.Ok?;
      if reply.Some? && reply.value.Ok? {
        AllIssuedIff(r, start + |chunk|, Progress(w, p.issued + Pair(chunk, Ids(reply.value.value)), p.lost));
      }
    }
  }

  /** ... and nothing is, if and only if the first one is not. */
  lemma NoneIssuedIff(r: Request, start: nat, p: Progress)
    requires start < |r.codes| && |p.issued| == start
    ensures |IssueFrom(r, start, p).issued| == start <==> !(Minted(p.world, r, start) && r.turns(start).reported)
  {
    var (w, reply) := Call(p.world, r, start);
    var chunk := ChunkAt(r.codes, start);
    if reply.Some? && reply.value.Ok? {
      AllIssuedIff(r, start + |chunk|, Progress(w, p.issued + Pair(chunk, Ids(reply.value.value)), p.lost));
    }
  }

  /** Nobody else acts, and no call or answer is lost; time does not run out. */
  ghost predicate Undisturbed(r: Request, w: World) {
    && Alone(r)
    && forall i :: r.turns(i).sent && r.turns(i).reported
                   && (r.campaign in w.ledger.campaigns ==> r.turns(i).ctx.now <= w.ledger.campaigns[r.campaign].validUntil)
  }

  /** What the chain must know and not know for these codes to be issued. */
  ghost predicate CanIssue(s: State, r: Request, codes: seq<string>) {
    && r.campaign in s.campaigns && s.campaigns[r.campaign].owner == r.owner
    && s.campaigns[r.campaign].minted + |codes| <= s.campaigns[r.campaign].totalSupply
    && Issuable(s, r.campaign, codes)
  }

  /** `t` is `s` after the codes `a` have been issued. */
  ghost predicate Issued(s: State, t: State, r: Request, a: seq<string>) {
    && r.campaign in s.campaigns && s.campaigns[r.campaign].minted + |a| <= U32_MAX
    && t.campaigns == s.campaigns[r.campaign := s.campaigns[r.campaign].(minted := s.campaigns[r.campaign].minted + |a|)]
    && t.tokenCtr == s.tokenCtr + |a|
    && forall k :: k in t.codeIndex <==> k in s.codeIndex || (k.campaign == r.campaign && k.code in a)
  }

  lemma IssuableSplits(s: State, t: State, r: Request, a: seq<string>, b: seq<string>)
    requires Issued(s, t, r, a)
    ensures Issuable(s, r.campaign, a + b) <==> Issuable(s, r.campaign, a) && Issuable(t, r.campaign, b)
  {
    var all := a + b;
    if Issuable(s, r.campaign, all) {
      forall i | 0 <= i < |a| ensures 1 <= |a[i]| <= 64 && CodeKey(r.campaign, a[i]) !in s.codeIndex { assert all[i] == a[i]; }
      forall i, j | 0 <= i < j < |a| ensures a[i] != a[j] { assert all[i] != all[j]; }
      forall i | 0 <= i < |b| ensures 1 <= |b[i]| <= 64 && CodeKey(r.campaign, b[i]) !in t.codeIndex {
        assert all[|a| + i] == b[i];
        forall j | 0 <= j < |a| ensures a[j] != b[i] { assert all[j] != all[|a| + i]; }
      }
      forall i, j | 0 <= i < j < |b| ensures b[i] != b[j] { assert all[|a| + i] != all[|a| + j]; }
    }
    if Issuable(s, r.campaign, a) && Issuable(t, r.campaign, b) {
      forall i | 0 <= i < |all| ensures 1 <= |all[i]| <= 64 && CodeKey(r.campaign, all[i]) !in s.codeIndex {
        if i >= |a| { assert all[i] == b[i - |a|]; }
      }
      forall i, j | 0 <= i < j < |all| ensures all[i] != all[j] { DifferentParts(s, t, r, a, b, i, j); }
    }
  }

  lemma DifferentParts(s: State, t: State, r: Request, a: seq<string>, b: seq<string>, i: nat, j: nat)
    requires Issued(s, t, r, a) && Issuable(s, r.campaign, a) && Issuable(t, r.campaign, b) && i < j < |a| + |b|
    ensures (a + b)[i] != (a + b)[j]
  {
    if j < |a| {
      assert a[i] != a[j];
    } else if i >= |a| {
      assert b[i - |a|] != b[j - |a|];
    } else {
      assert CodeKey(r.campaign, b[j - |a|]) !in t.codeIndex && CodeKey(r.campaign, a[i]) in t.codeIndex;
    }
  }

  /** One undisturbed call. */
  lemma ChunkIff(w: World, r: Request, start: nat)
    requires Reachable(w) && start < |r.codes| && Undisturbed(r, w)
    ensures var chunk := ChunkAt(r.codes, start);
            var t := Call(w, r, start).0;
            && (Minted(w, r, start) <==> CanIssue(w.ledger, r, chunk))
            && Reachable(t) && (Minted(w, r, start) ==> Issued(w.ledger, t.ledger, r, chunk) && Undisturbed(r, t))
  {
    var chunk, ctx := ChunkAt(r.codes, start), r.turns(start).ctx;
    assert ExecAll(w, r.turns(start).before) == w;
    BatchIsAllOrNothing(w, ctx.(signed := {r.owner}), r.owner, r.campaign, chunk);
    IssueIsCall(w, r, ctx, chunk);
    ReachableThen(w, IssueFrame(r, ctx, chunk));
    if Minted(w, r, start) {
      BatchRecords(w.ledger, ctx.(signed := {r.owner}), r.owner, r.campaign, chunk);
      MintAllIndexes(w.ledger, r.campaign, chunk, ctx.now);
    }
  }

  /** Left to itself, a request issues everything if and only if the campaign is the owner's, its supply
      has room for all codes, and they are well-formed, new and different; however many calls it takes. */
  lemma {:induction false} UndisturbedIssuesAllIff(r: Request, start: nat, p: Progress)
    requires start < |r.codes| && |p.issued| == start && Reachable(p.world) && Undisturbed(r, p.world)
    ensures |IssueFrom(r, start, p).issued| == |r.codes| <==> CanIssue(p.world.ledger, r, r.codes[start..])
    decreases |r.codes| - start
  {
    var (w, reply) := Call(p.world, r, start);
    var chunk := ChunkAt(r.codes, start);
    var next := start + |chunk|;
    ChunkIff(p.world, r, start);
    AllIssuedIff(r, start, p);
    assert r.codes[start..] == chunk + r.codes[next..];
    if Minted(p.world, r, start) {
      IssuableSplits(p.world.ledger, w.ledger, r, chunk, r.codes[next..]);
      if next < |r.codes| { UndisturbedIssuesAllIff(r, next, Progress(w, p.issued + Pair(chunk, Ids(reply.value.value)), p.lost)); }
    }
  }

  // ── the handler ────────────────────────────────────────────────────

  datatype Response = NoCodes | TooMany | TooLong | Duplicate | NoCredits | AllIssued(issued: seq<IssuedCode>) | PartlyIssued(issued: seq<IssuedCode>) | Failed

  function RequestError(codes: seq<string>): Option<Response> {
    if codes == [] then Some(NoCodes)
    else if |codes| > MAX_CODES then Some(TooMany)
    else if exists i :: 0 <= i < |codes| && |codes[i]| > MAX_CODE_LEN then Some(TooLong)
    else if !Distinct(codes) then Some(Duplicate)
    else None
  }

  /** Which requests are turned away before anything is reserved. */
  lemma RequestErrorIff(codes: seq<string>)
    ensures var e := RequestError(codes);
            && (e.None? <==> 1 <= |codes| <= 1_000 && (forall i :: 0 <= i < |codes| ==> |codes[i]| <= 64)
                             && forall i, j :: 0 <= i < j < |codes| ==> codes[i] != codes[j])
            && (e == Some(NoCodes) <==> codes == []) && (e == Some(TooMany) <==> |codes| > 1_000)
            && (e == Some(TooLong) ==> exists i :: 0 <= i < |codes| && |codes[i]| > 64)
            && (e == Some(Duplicate) ==> exists i, j :: 0 <= i < j < |codes| && codes[i] == codes[j])
  {
  }

  method CheckCodes(codes: seq<string>) returns (e: Option<Response>)
    ensures e == RequestError(codes)
  {
    if codes == [] { return Some(NoCodes); }
    if |codes| > MAX_CODES { return Some(TooMany); }
    for i := 0 to |codes|
      invariant forall j :: 0 <= j < i ==> |codes[j]| <= MAX_CODE_LEN
    {
      if |codes[i]| > MAX_CODE_LEN { return Some(TooLong); }
    }
    var seen: set<string> := {};
    for i := 0 to |codes|
      invariant seen == set j | 0 <= j < i :: codes[j]
      invariant Distinct(codes[..i])
    {
      if codes[i] in seen {
        assert exists j :: 0 <= j < i && codes[j] == codes[i];
        return Some(Duplicate);
      }
      assert codes[..i + 1] == codes[..i] + [codes[i]];
      seen := seen + {codes[i]};
    }
    assert codes[..|codes|] == codes;
    e := None;
  }

  function Answer(r: Request, p: Progress): Response {
    if |p.issued| == |r.codes| then AllIssued(p.issued)
    else if |p.issued| > 0 then PartlyIssued(p.issued)
    else Failed
  }

  /** The answer says that everything is issued, or that nothing is, exactly when that is so. */
  lemma AnswerSays(r: Request, w: World)
    requires r.codes != []
    ensures var d := IssueFrom(r, 0, Progress(w, [], []));
            var answer := Answer(r, d);
            && (answer.AllIssued? <==> AllReported(r, 0, w))
            && (answer.Failed? <==> !(Minted(w, r, 0) && r.turns(0).reported))
            && (answer.AllIssued? || answer.PartlyIssued? ==> answer.issued == d.issued)
            && (answer.AllIssued? || answer.PartlyIssued? || answer.Failed?)
  {
    AllIssuedIff(r, 0, Progress(w, [], []));
    NoneIssuedIff(r, 0, Progress(w, [], []));
  }

  /** The whole request: checks, reservation, chunk loop, settlement. */
  method IssueCodes(credits: Credits, w: World, r: Request, live: bool, month: nat, luck: Meter.Luck, works: bool)
    returns (w': World, response: Response)
    modifies credits
    ensures var was := old(credits.Now());
            var mcr := |r.codes| * Meter.MCR_PER_CODE;
            var c := Meter.Charge(was, live, "issue_codes", mcr, month, luck);
            var d := IssueFrom(r, 0, Progress(w, [], []));
            if RequestError(r.codes).Some? then credits.Now() == was && w' == w && response == RequestError(r.codes).value
            else if !c.ok then credits.Now() == c.account && w' == w && response == NoCredits
            else
              && w' == d.world && response == Answer(r, d)
              && credits.Now() == Meter.Settle(c.account, Meter.Hold(live, "issue_codes", mcr, live), Outcome(r, d, works), month).account
  {
    var e := CheckCodes(r.codes);
    if e.Some? { return w, e.value; }
    var reservation := ReserveCharge(credits, live, "issue_codes", |r.codes| * Meter.MCR_PER_CODE, month, luck);
    if reservation == null { return w, NoCredits; }
    var p, failed := IssueChunks(w, r);
    IssuedIsAPrefix(r, 0, Progress(w, [], []));
    w' := p.world;
    if failed {
      if |p.issued| > 0 {
        reservation.CommitUsed(|p.issued| * Meter.MCR_PER_CODE, month, works);
        response := PartlyIssued(p.issued);
      } else {
        response := Failed;
      }
    } else {
      reservation.Commit(month);
      response := AllIssued(p.issued);
    }
    reservation.Refund(month, works);
  }

  /** The loop itself. */
  method IssueChunks(w: World, r: Request) returns (p: Progress, failed: bool)
    requires r.codes != []
    ensures p == IssueFrom(r, 0, Progress(w, [], [])) && (failed <==> |p.issued| < |r.codes|)
  {
    p, failed := Progress(w, [], []), false;
    var start := 0;
    while start < |r.codes|
      invariant 0 <= start <= |r.codes| && |p.issued| == start && p.lost == []
      invariant IssueFrom(r, start, p) == IssueFrom(r, 0, Progress(w, [], []))
      decreases |r.codes| - start
    {
      var end := start + MAX_BATCH;
      if end > |r.codes| { end := |r.codes|; }
      var chunk := r.codes[start..end];
      var (w1, answer) := Call(p.world, r, start);
      if answer.None? || answer.value.Err? {
        p := Progress(w1, p.issued, if Minted(p.world, r, start) then p.lost + chunk else p.lost);
        return p, true;
      }
      p := Progress(w1, p.issued + Pair(chunk, Ids(answer.value.value)), p.lost);
      start := end;
    }
  }
}
