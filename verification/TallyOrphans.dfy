/** Tallies that the chain has and the rows do not: when they arise, what they cost, and that they
    are the only way in which an event is anchored twice. */
module TallyOrphans {
  import opened Basics
  import opened LedgerTypes
  import opened LedgerSpec
  import opened LedgerExec
  import opened LedgerInvariant
  import opened LedgerHistory
  import opened LedgerCommits
  import opened Sums
  import opened TallyStore
  import opened TallyPipeline
  import opened TallySafety
  import opened TallyRuns
  import Periods

  /** The holder of the account's lock is about to write the row. */
  predicate Underway(c: Cloud, k: TallyKey) {
    && k.shared < |c.codes| && c.codes[k.shared].owner in c.busy
    && c.busy[c.codes[k.shared].owner].Anchored? && c.busy[c.codes[k.shared].owner].key == k
  }

  /** The chain has the period, the rows do not, and nobody is about to write the row. */
  predicate Orphan(c: Cloud, k: TallyKey) {
    k.shared < |c.codes| && ChainKey(c, k) in c.chain.ledger.tallies && k !in c.tallies && !Underway(c, k)
  }

  /** What the fate of the key `k` depends on in a step of account `a`. */
  ghost predicate Facts(c: Cloud, k: TallyKey, a: Address) {
    && (k in c.tallies ==> k.shared < |c.codes| && ChainKey(c, k) in c.chain.ledger.tallies)
    && (Underway(c, k) ==> k !in c.tallies && ChainKey(c, k) in c.chain.ledger.tallies)
    && (a in c.busy && !c.busy[a].PaidOut? ==>
          var w := c.busy[a];
          && w.key.shared < |c.codes| && c.codes[w.key.shared].owner == a
          && (k.shared < |c.codes| && c.codes[k.shared].key == c.codes[w.key.shared].key ==> k.shared == w.key.shared)
          && (w.Anchored? ==> !IndexFails(c, w.key, w.end, w.batch)))
  }

  lemma SafeFacts(D: Deployment, c: Cloud, k: TallyKey, a: Address)
    requires Safe(D, c)
    ensures Facts(c, k, a)
  {
    TalliesAreOnChain(D, c, k);
    if k.shared < |c.codes| && c.codes[k.shared].owner in c.busy { assert WorkOk(D, c, c.codes[k.shared].owner); }
    if a in c.busy {
      assert WorkOk(D, c, a);
      if c.busy[a].Anchored? { IndexingNeverFails(D, c, a); }
    }
  }

  /** Somewhere in its tree the call commits the period on the chain: itself, or through a token
      that calls back. */
  predicate CommittedBy(c: Cloud, f: Frame, k: TallyKey) { k.shared < |c.codes| && Commits(c.chain, f, ChainKey(c, k)) > 0 }

  /** A call brings a tally onto the chain exactly if it commits it. */
  lemma CommittedIff(c: Cloud, f: Frame, k: TallyKey)
    requires k.shared < |c.codes|
    ensures CommittedBy(c, f, k) <==>
            ChainKey(c, k) !in c.chain.ledger.tallies && ChainKey(c, k) in Exec(c.chain, f).world.ledger.tallies
  {
    ExecCommits(c.chain, f, ChainKey(c, k));
  }

  /** A call that is no settlement brings a tally onto the chain exactly if it is the successful
      commit of it. */
  lemma OnlyCommitsCommit(c: Cloud, f: Frame, k: TallyKey)
    requires k.shared < |c.codes| && !f.call.Settle?
    ensures ChainKey(c, k) !in c.chain.ledger.tallies && ChainKey(c, k) in Exec(c.chain, f).world.ledger.tallies <==>
            && f.call.CommitTally? && CodeKey(f.call.campaign, f.call.code) == c.codes[k.shared].key && f.call.period == k.period
            && Exec(c.chain, f).reply.Ok?
  {
    CommittedIff(c, f, k);
  }

  /** The steps that leave a tally of the chain without a row: an accepted commit whose answer is
      lost, a stop between the chain and the rows, and a commit that comes from elsewhere. */
  ghost predicate Birth(D: Deployment, c: Cloud, step: Step, k: TallyKey) {
    match step
    case CommitOnChain(a, ctx, reported) =>
      && !reported && a in c.busy && c.busy[a].Selected? && c.busy[a].key == k && k.shared < |c.codes|
      && Exec(c.chain, CommitFrame(D, c.codes[k.shared], ctx, k.period, c.busy[a].batch)).reply.Ok?
    case Crash(a) => a in c.busy && c.busy[a].Anchored? && c.busy[a].key == k
    case SettleOnChain(j, ctx, token, _) =>
      && j.shared < |c.codes| && c.codes[j.shared].owner !in c.busy
      && CommittedBy(c, SettleFrame(c.codes[j.shared], ctx, j.period, token), k)
    case ElsewhereOnChain(f) => CommittedBy(c, f, k)
    case _ => false
  }

  lemma TallyWritten(s: State, k: PeriodKey, t: Tally)
    ensures WriteTally(s, k, t).tallies.Keys == s.tallies.Keys + {k}
  {
  }

  lemma CommitWrites(s: State, ctx: Ctx, row: SharedRow, p: u64, n: u32, root: Bytes32)
    ensures var o := CommitOf(s, ctx, row, p, n, root);
            var pk := PeriodKey(row.key, p);
            && o.state.tallies.Keys == s.tallies.Keys + (if o.reply.Ok? then {pk} else {})
            && (o.reply.Ok? ==> pk !in s.tallies)
  {
    TallyWritten(s, PeriodKey(row.key, p), Tally(p, n, root, Credits(row, n)));
  }

  lemma CommitAddsOne(D: Deployment, w: World, row: SharedRow, ctx: Ctx, p: u64, batch: Batch)
    ensures var d := Exec(w, CommitFrame(D, row, ctx, p, batch));
            d.world.ledger.tallies.Keys == w.ledger.tallies.Keys + (if d.reply.Ok? then {PeriodKey(row.key, p)} else {})
    ensures Exec(w, CommitFrame(D, row, ctx, p, batch)).reply.Ok? ==> PeriodKey(row.key, p) !in w.ledger.tallies
  {
    CommitIsCall(D, w, row, ctx, p, batch);
    CommitWrites(w.ledger, ctx, row, p, Sum(batch), RootOf(D, batch));
  }

  lemma RegisteringAddsNone(w: World, ctx: Ctx, row: SharedRow, payoutToken: Option<Address>, rate: i128)
    ensures var d := Exec(w, RegisterFrame(ctx, row, payoutToken, rate));
            d.world.ledger.tallies == w.ledger.tallies && (d.reply.Ok? ==> row.key !in w.ledger.shared)
  {
  }

  lemma TalliesHaveCodes(w: World)
    requires Reachable(w)
    ensures forall pk :: pk in w.ledger.tallies ==> pk.code in w.ledger.shared
  {
    ReachableIsGood(w);
  }

  lemma RegistrationBirths(D: Deployment, c: Cloud, step: Step, k: TallyKey)
    requires Facts(c, k, 0) && Reachable(c.chain) && step.RegisterCode?
    ensures Orphan(Next(D, c, step), k) <==> Orphan(c, k)
  {
    RegisteringAddsNone(c.chain, step.ctx, step.row, step.payoutToken, step.rate);
    TalliesHaveCodes(c.chain);
  }

  lemma ElsewhereBirths(D: Deployment, c: Cloud, f: Frame, k: TallyKey)
    requires Facts(c, k, 0) && Keeps(c.chain.ledger, Exec(c.chain, f).world.ledger)
    ensures Orphan(c.(chain := Exec(c.chain, f).world), k) <==> Orphan(c, k) || CommittedBy(c, f, k)
  {
    if k.shared < |c.codes| { CommittedIff(c, f, k); }
  }

  lemma SettleBirths(D: Deployment, c: Cloud, step: Step, k: TallyKey)
    requires Facts(c, k, 0) && Reachable(c.chain) && step.SettleOnChain?
    ensures Orphan(Next(D, c, step), k) <==> Orphan(c, k) || Birth(D, c, step, k)
  {
    if step.key.shared < |c.codes| && c.codes[step.key.shared].owner !in c.busy {
      var f := SettleFrame(c.codes[step.key.shared], step.ctx, step.key.period, step.token);
      ChainGrows(c.chain, f);
      ElsewhereBirths(D, c, f, k);
    }
  }

  lemma CommitBirths(D: Deployment, c: Cloud, a: Address, ctx: Ctx, reported: bool, k: TallyKey)
    requires Facts(c, k, a)
    ensures var step := CommitOnChain(a, ctx, reported);
            Orphan(Next(D, c, step), k) <==> Orphan(c, k) || Birth(D, c, step, k)
  {
    if a in c.busy && c.busy[a].Selected? {
      var w := c.busy[a];
      CommitAddsOne(D, c.chain, c.codes[w.key.shared], ctx, w.key.period, w.batch);
    }
  }

  lemma IndexBirths(D: Deployment, c: Cloud, a: Address, k: TallyKey)
    requires Facts(c, k, a)
    ensures Orphan(Next(D, c, IndexLocally(a)), k) <==> Orphan(c, k)
  {
  }

  lemma CrashBirths(D: Deployment, c: Cloud, a: Address, k: TallyKey)
    requires Facts(c, k, a)
    ensures Orphan(Next(D, c, Crash(a)), k) <==> Orphan(c, k) || Birth(D, c, Crash(a), k)
  {
  }

  lemma QuietSteps(D: Deployment, c: Cloud, step: Step, k: TallyKey)
    requires step.RecordEvent? || step.Migrate? || step.CheckUnsigned? || step.SelectBatch? || step.SeeSettled? || step.MarkSettled?
    ensures Orphan(Next(D, c, step), k) <==> Orphan(c, k)
  {
  }

  /** These steps leave a tally of the chain without a row, and no others do; and what has no row
      never gets one. */
  lemma OrphanIff(D: Deployment, c: Cloud, step: Step, k: TallyKey)
    requires Safe(D, c)
    ensures Orphan(Next(D, c, step), k) <==> Orphan(c, k) || Birth(D, c, step, k)
  {
    SafeFacts(D, c, k, 0);
    match step
    case RegisterCode(_, _, _, _, _) => RegistrationBirths(D, c, step, k);
    case SettleOnChain(_, _, _, _) => SettleBirths(D, c, step, k);
    case ElsewhereOnChain(f) => ChainGrows(c.chain, f); ElsewhereBirths(D, c, f, k);
    case CommitOnChain(a, ctx, reported) => SafeFacts(D, c, k, a); CommitBirths(D, c, a, ctx, reported, k);
    case IndexLocally(a) => SafeFacts(D, c, k, a); IndexBirths(D, c, a, k);
    case Crash(a) => SafeFacts(D, c, k, a); CrashBirths(D, c, a, k);
    case _ => QuietSteps(D, c, step, k);
  }

  /** The account's own settlements, and calls from elsewhere, leave no orphan unless there is a
      commit of the period somewhere in their tree: a token that does not call back leaves none. */
  lemma CommitFreeCallsLeaveNone(D: Deployment, c: Cloud, step: Step, k: TallyKey)
    requires Safe(D, c)
    requires (step.SettleOnChain? && k.shared < |c.codes| && TokenFree(step.token, ChainKey(c, k)))
             || (step.ElsewhereOnChain? && k.shared < |c.codes| && CommitFree(step.frame, ChainKey(c, k)))
    ensures Orphan(Next(D, c, step), k) <==> Orphan(c, k)
  {
    OrphanIff(D, c, step, k);
    if step.ElsewhereOnChain? {
      FreeCommitsNothing(c.chain, step.frame, ChainKey(c, k));
    } else if step.key.shared < |c.codes| {
      FreeCommitsNothing(c.chain, SettleFrame(c.codes[step.key.shared], step.ctx, step.key.period, step.token), ChainKey(c, k));
    }
  }

  /** A period whose commit was not indexed never gets a row: its events can only be anchored
      again under another period. */
  lemma {:induction false} OrphansStayOrphans(D: Deployment, c: Cloud, steps: seq<Step>, k: TallyKey)
    requires Safe(D, c) && Orphan(c, k)
    ensures Orphan(Run(D, c, steps), k) && Stamped(Run(D, c, steps), k) == []
    decreases |steps|
  {
    if steps == [] {
      NothingStamped(c, k);
      NoRows(c.events, k.shared, In(k.period), |c.events|);
    } else {
      OrphanIff(D, c, steps[0], k);
      StepIsSafe(D, c, steps[0]);
      OrphansStayOrphans(D, Next(D, c, steps[0]), steps[1..], k);
    }
  }

  // ── anchored once, exactly when no step leaves an orphan ───────────

  ghost predicate NoOrphans(c: Cloud) { forall k :: !Orphan(c, k) }

  ghost predicate Quiet(D: Deployment, c: Cloud, steps: seq<Step>)
    decreases |steps|
  {
    steps != [] ==> (forall k :: !Birth(D, c, steps[0], k)) && Quiet(D, Next(D, c, steps[0]), steps[1..])
  }

  /** A run without orphans leads to none if and only if none of its steps leaves one. */
  lemma {:induction false} NoOrphansIff(D: Deployment, c: Cloud, steps: seq<Step>)
    requires Safe(D, c) && NoOrphans(c)
    ensures NoOrphans(Run(D, c, steps)) <==> Quiet(D, c, steps)
    decreases |steps|
  {
    if steps != [] {
      var d := Next(D, c, steps[0]);
      StepIsSafe(D, c, steps[0]);
      forall k ensures Orphan(d, k) <==> Birth(D, c, steps[0], k) { OrphanIff(D, c, steps[0], k); }
      if NoOrphans(d) {
        NoOrphansIff(D, d, steps[1..]);
      } else {
        var k :| Orphan(d, k);
        OrphansStayOrphans(D, d, steps[1..], k);
      }
    }
  }

  /** Without orphans the chain's tallies of the local codes are exactly the rows, but for those
      that somebody is about to write. */
  lemma ChainIsRows(D: Deployment, c: Cloud, k: TallyKey)
    requires Safe(D, c) && NoOrphans(c) && k.shared < |c.codes|
    ensures ChainKey(c, k) in c.chain.ledger.tallies <==> k in c.tallies || Underway(c, k)
  {
    assert !Orphan(c, k);
    SafeFacts(D, c, k, 0);
  }

  /** The tallies that the chain holds for a code. */
  ghost function OnChainOf(c: Cloud, shared: nat): set<TallyKey>
    requires shared < |c.codes|
  {
    set pk | pk in c.chain.ledger.tallies && pk.code == c.codes[shared].key :: TallyKey(shared, pk.period)
  }

  ghost function OrphansOf(c: Cloud, shared: nat): set<TallyKey>
    requires shared < |c.codes|
  {
    set k | k in OnChainOf(c, shared) && k !in c.tallies
  }

  ghost function ChainCount(c: Cloud): TallyKey -> int {
    (k: TallyKey) => if k.shared < |c.codes| && ChainKey(c, k) in c.chain.ledger.tallies
                     then c.chain.ledger.tallies[ChainKey(c, k)].count else 0
  }

  lemma OrphansOfAre(c: Cloud, shared: nat, k: TallyKey)
    requires shared < |c.codes|
    requires c.codes[shared].owner !in c.busy
    ensures k in OrphansOf(c, shared) <==> k.shared == shared && Orphan(c, k)
  {
    if k.shared == shared && Orphan(c, k) { assert ChainKey(c, k) in c.chain.ledger.tallies; }
  }

  /** In every run: while the account of a code is idle, the chain counts each redemption that has
      left the queue once, and on top of that exactly what its orphans count. */
  lemma ChainCountsOnceAndOrphans(D: Deployment, c: Cloud, steps: seq<Step>, shared: nat)
    requires Start(D, c) && shared < |Run(D, c, steps).codes|
    ensures var d := Run(D, c, steps);
            var n := |d.events|;
            SumOver(OnChainOf(d, shared), ChainCount(d))
              == Recorded(d.events, shared, n) - CountIn(d.events, shared, Pending, n) - CountIn(d.events, shared, Quarantined, n)
                 + SumOver(OrphansOf(d, shared), ChainCount(d))
  {
    var d := Run(D, c, steps);
    StartIsSafe(D, c);
    RunIsSafe(D, c, steps);
    RedemptionsAreConserved(D, c, steps, shared);
    RowsAreOnChain(D, d, shared);
    SumUnion(TalliesOf(d, shared), OrphansOf(d, shared), ChainCount(d));
    SumSame(TalliesOf(d, shared), TallyCount(d), ChainCount(d));
  }

  lemma RowsAreOnChain(D: Deployment, d: Cloud, shared: nat)
    requires Safe(D, d) && shared < |d.codes|
    ensures OnChainOf(d, shared) == TalliesOf(d, shared) + OrphansOf(d, shared)
    ensures forall k :: k in TalliesOf(d, shared) ==> TallyCount(d)(k) == ChainCount(d)(k)
  {
    forall k | k in TalliesOf(d, shared) ensures k in OnChainOf(d, shared) && TallyCount(d)(k) == ChainCount(d)(k) {
      assert TallyOk(D, d, k);
      assert ChainKey(d, k) in d.chain.ledger.tallies;
    }
  }

  /** So in a quiet run that starts with nothing of its own on the chain, every redemption of a code
      is anchored once: the chain's counts add up to what has left the queue. */
  lemma AnchoredOnce(D: Deployment, c: Cloud, steps: seq<Step>, shared: nat)
    requires Start(D, c) && NoOrphans(c) && Quiet(D, c, steps)
    requires var d := Run(D, c, steps); shared < |d.codes| && d.codes[shared].owner !in d.busy
    ensures var d := Run(D, c, steps);
            var n := |d.events|;
            && OnChainOf(d, shared) == TalliesOf(d, shared)
            && SumOver(OnChainOf(d, shared), ChainCount(d))
               == Recorded(d.events, shared, n) - CountIn(d.events, shared, Pending, n) - CountIn(d.events, shared, Quarantined, n)
  {
    var d := Run(D, c, steps);
    StartIsSafe(D, c);
    RunIsSafe(D, c, steps);
    NoOrphansIff(D, c, steps);
    forall k ensures k !in OrphansOf(d, shared) { OrphansOfAre(d, shared, k); }
    assert OrphansOf(d, shared) == {};
    RowsAreOnChain(D, d, shared);
    ChainCountsOnceAndOrphans(D, c, steps, shared);
  }

  // ── the limit of anchoring once ────────────────────────────────────

  lemma RefusedCommit(D: Deployment, w: World, row: SharedRow, ctx: Ctx, p: u64, batch: Batch)
    requires PeriodKey(row.key, p) in w.ledger.tallies
    ensures var d := Exec(w, CommitFrame(D, row, ctx, p, batch)); d.reply.Err? && d.world == w
  {
  }

  lemma CommitTwice(s: State, ctx: Ctx, ctx': Ctx, owner: Address, ck: CodeKey, p: u64, q: u64, n: u32, root: Bytes32, m: Attribution)
    requires Commit(s, ctx, owner, ck.campaign, ck.code, p, n, root, m).reply.Ok?
    requires p != q && PeriodKey(ck, q) !in s.tallies && owner in ctx'.signed
    ensures Commit(Commit(s, ctx, owner, ck.campaign, ck.code, p, n, root, m).state, ctx', owner, ck.campaign, ck.code, q, n, root, m).reply.Ok?
  {
    assert Commit(s, ctx, owner, ck.campaign, ck.code, p, n, root, m).state == WriteTally(s, PeriodKey(ck, p), Tally(p, n, root, m));
  }

  function CommitOf(s: State, ctx: Ctx, row: SharedRow, p: u64, n: u32, root: Bytes32): Outcome {
    Commit(s, ctx.(signed := {row.owner}), row.owner, row.key.campaign, row.key.code, p, n, root, Credits(row, n))
  }

  lemma CommitIsCall(D: Deployment, w: World, row: SharedRow, ctx: Ctx, p: u64, batch: Batch)
    ensures var o := CommitOf(w.ledger, ctx, row, p, Sum(batch), RootOf(D, batch)); Exec(w, CommitFrame(D, row, ctx, p, batch)) == Done(World(o.state, w.transfers), o.reply)
  {
  }

  /** What a commit needs of the chain depends on the period only through "not committed yet". */
  lemma AnotherPeriodIsAccepted(D: Deployment, w: World, row: SharedRow, ctx: Ctx, ctx': Ctx, p: u64, q: u64, batch: Batch)
    requires Exec(w, CommitFrame(D, row, ctx, p, batch)).reply.Ok?
    requires p != q && PeriodKey(row.key, q) !in w.ledger.tallies
    ensures Exec(Exec(w, CommitFrame(D, row, ctx, p, batch)).world, CommitFrame(D, row, ctx', q, batch)).reply.Ok?
  {
    var n, root := Sum(batch), RootOf(D, batch);
    CommitIsCall(D, w, row, ctx, p, batch);
    CommitIsCall(D, Exec(w, CommitFrame(D, row, ctx, p, batch)).world, row, ctx', q, batch);
    CommitTwice(w.ledger, ctx.(signed := {row.owner}), ctx'.(signed := {row.owner}), row.owner, row.key, p, q, n, root, Credits(row, n));
  }

  lemma WorkInProgress(D: Deployment, c: Cloud, a: Address)
    requires Live(D, c) && a in c.busy && !c.busy[a].PaidOut?
    ensures var w := c.busy[a];
            && BatchOk(c, a, w.key, w.end, w.batch)
            && (w.Anchored? ==> !IndexFails(c, w.key, w.end, w.batch))
  {
    LiveIsSafe(D, c);
    WorkHasBatch(D, c, a);
    if c.busy[a].Anchored? { IndexingNeverFails(D, c, a); }
  }

  /** What the chain call of a commit leaves behind when the chain accepts it. */
  lemma AcceptedCommit(D: Deployment, c: Cloud, a: Address, ctx: Ctx, reported: bool)
    requires Live(D, c) && a in c.busy && c.busy[a].Selected? && c.busy[a].key.shared < |c.codes|
    requires var w := c.busy[a]; Exec(c.chain, CommitFrame(D, c.codes[w.key.shared], ctx, w.key.period, w.batch)).reply.Ok?
    ensures var w := c.busy[a];
            var chain := Exec(c.chain, CommitFrame(D, c.codes[w.key.shared], ctx, w.key.period, w.batch)).world;
            var d := Next(D, c, CommitOnChain(a, ctx, reported));
            && d == (if reported then c.(chain := chain, busy := c.busy[a := Anchored(w.key, w.end, w.batch)])
                     else c.(chain := chain, busy := c.busy - {a}))
            && OnChain(D, chain.ledger, ChainKey(c, w.key), c.codes[w.key.shared], w.batch)
  {
    var w := c.busy[a];
    CommitAnchors(c.chain, ctx, D, c.codes[w.key.shared], w.key.period, w.batch);
  }

  lemma StampsHaveRows(D: Deployment, c: Cloud)
    requires Live(D, c)
    ensures StampsOk(c)
  {
    LiveIsSafe(D, c);
  }

  lemma BatchIndexed(D: Deployment, c: Cloud, a: Address)
    requires Live(D, c) && a in c.busy && c.busy[a].Anchored?
    ensures var w := c.busy[a];
            var d := Next(D, c, IndexLocally(a));
            && d.codes == c.codes && d.chain == c.chain && d.tallies.Keys == c.tallies.Keys + {w.key}
            && Stamped(d, w.key) == w.batch
  {
    var w := c.busy[a];
    WorkInProgress(D, c, a);
    StampsHaveRows(D, c);
    StampedIsBatch(c, IndexTally(D, c, a), w.key, w.end);
  }

  /** A batch at the head of its queue that the chain accepts ends up in the rows, exactly. */
  lemma Completes(D: Deployment, c: Cloud, k: TallyKey, end: nat, batch: Batch, ctx: Ctx)
    requires Live(D, c) && k.shared < |c.codes| && k.shared in c.cleared && c.codes[k.shared].owner !in c.busy
    requires IsBatch(c.events, k.shared, end) && batch == BatchItems(c.events, k.shared, end)
    requires 0 < Sum(batch) <= MAX_TOTAL
    requires Exec(c.chain, CommitFrame(D, c.codes[k.shared], ctx, k.period, batch)).reply.Ok?
    ensures var a := c.codes[k.shared].owner;
            var c1 := Next(D, c, SelectBatch(k, end));
            var c2 := Next(D, c1, CommitOnChain(a, ctx, true));
            var d := Next(D, c2, IndexLocally(a));
            && d.tallies.Keys == c.tallies.Keys + {k} && Stamped(d, k) == batch
            && d.chain == Exec(c.chain, CommitFrame(D, c.codes[k.shared], ctx, k.period, batch)).world
            && OnChain(D, d.chain.ledger, ChainKey(c, k), c.codes[k.shared], batch)
  {
    var a := c.codes[k.shared].owner;
    BatchSelected(D, c, k, end, batch);
    LiveNext(D, c, SelectBatch(k, end));
    var c1 := Next(D, c, SelectBatch(k, end));
    AcceptedCommit(D, c1, a, ctx, true);
    LiveNext(D, c1, CommitOnChain(a, ctx, true));
    BatchIndexed(D, Next(D, c1, CommitOnChain(a, ctx, true)), a);
  }

  /** A commit that was reported and then not indexed is like one whose answer was lost. */
  lemma CrashIsLoss(D: Deployment, c: Cloud, a: Address, ctx: Ctx)
    requires a in c.busy && c.busy[a].Selected? && c.busy[a].key.shared < |c.codes|
    requires var w := c.busy[a]; Exec(c.chain, CommitFrame(D, c.codes[w.key.shared], ctx, w.key.period, w.batch)).reply.Ok?
    ensures Next(D, Next(D, c, CommitOnChain(a, ctx, true)), Crash(a)) == Next(D, c, CommitOnChain(a, ctx, false))
  {
    var w := c.busy[a];
    assert c.busy[a := Anchored(w.key, w.end, w.batch)] - {a} == c.busy - {a};
  }

  /** A batch that the chain has under one period is committed under another one. */
  lemma CommittedAgain(D: Deployment, c: Cloud, k: TallyKey, end: nat, batch: Batch, ctx: Ctx, q: u64)
    requires Live(D, c) && k.shared < |c.codes| && k.shared in c.cleared && c.codes[k.shared].owner !in c.busy && q != k.period
    requires IsBatch(c.events, k.shared, end) && batch == BatchItems(c.events, k.shared, end) && 0 < Sum(batch) <= MAX_TOTAL
    requires Exec(c.chain, CommitFrame(D, c.codes[k.shared], ctx, q, batch)).reply.Ok?
    requires k !in c.tallies && OnChain(D, c.chain.ledger, ChainKey(c, k), c.codes[k.shared], batch)
    ensures var j := TallyKey(k.shared, q);
            var c1 := Next(D, c, SelectBatch(j, end));
            var c2 := Next(D, c1, CommitOnChain(c.codes[k.shared].owner, ctx, true));
            var d := Next(D, c2, IndexLocally(c.codes[k.shared].owner));
            && k !in d.tallies && j in d.tallies && Stamped(d, j) == batch
            && OnChain(D, d.chain.ledger, ChainKey(c, k), c.codes[k.shared], batch)
            && OnChain(D, d.chain.ledger, ChainKey(c, j), c.codes[k.shared], batch)
  {
    Completes(D, c, TallyKey(k.shared, q), end, batch, ctx);
    ChainKeepsLive(D, c, CommitFrame(D, c.codes[k.shared], ctx, q, batch));
  }

  /** If the chain accepts a batch but the answer is lost, or comes and the process stops before the
      rows are written, the same batch can be selected, anchored and indexed under another period:
      the chain then holds it twice, the rows once. */
  lemma AnchoredTwice(D: Deployment, c: Cloud, a: Address, ctx: Ctx, ctx': Ctx, q: u64, answered: bool)
    requires Live(D, c) && a in c.busy && c.busy[a].Selected? && c.busy[a].key.shared < |c.codes|
    requires var w := c.busy[a];
             && IsBatch(c.events, w.key.shared, w.end) && 0 < Sum(w.batch) <= MAX_TOTAL
             && Exec(c.chain, CommitFrame(D, c.codes[w.key.shared], ctx, w.key.period, w.batch)).reply.Ok?
             && q != w.key.period && PeriodKey(c.codes[w.key.shared].key, q) !in c.chain.ledger.tallies
    ensures var w := c.busy[a];
            var k := TallyKey(w.key.shared, q);
            var c1 := if answered then Next(D, Next(D, c, CommitOnChain(a, ctx, true)), Crash(a))
                      else Next(D, c, CommitOnChain(a, ctx, false));
            var c2 := Next(D, c1, SelectBatch(k, w.end));
            var c3 := Next(D, c2, CommitOnChain(a, ctx', true));
            var d := Next(D, c3, IndexLocally(a));
            && w.key !in d.tallies && k in d.tallies && Stamped(d, k) == w.batch
            && OnChain(D, d.chain.ledger, ChainKey(c, w.key), c.codes[w.key.shared], w.batch)
            && OnChain(D, d.chain.ledger, ChainKey(c, k), c.codes[w.key.shared], w.batch)
  {
    var w := c.busy[a];
    var row := c.codes[w.key.shared];
    CrashIsLoss(D, c, a, ctx);
    WorkInProgress(D, c, a);
    AcceptedCommit(D, c, a, ctx, false);
    LiveNext(D, c, CommitOnChain(a, ctx, false));
    AnotherPeriodIsAccepted(D, c.chain, row, ctx, ctx', w.key.period, q, w.batch);
    NoRowYet(D, c, w.key, ctx, row, w.batch);
    CommittedAgain(D, Next(D, c, CommitOnChain(a, ctx, false)), w.key, w.end, w.batch, ctx', q);
  }

  lemma ChainKeepsLive(D: Deployment, c: Cloud, f: Frame)
    requires Live(D, c)
    ensures Keeps(c.chain.ledger, Exec(c.chain, f).world.ledger)
  {
    LiveIsSafe(D, c);
    ChainGrows(c.chain, f);
  }

  lemma NoRowYet(D: Deployment, c: Cloud, k: TallyKey, ctx: Ctx, row: SharedRow, batch: Batch)
    requires Live(D, c) && k.shared < |c.codes| && row == c.codes[k.shared]
    requires Exec(c.chain, CommitFrame(D, row, ctx, k.period, batch)).reply.Ok?
    ensures k !in c.tallies
  {
    LiveIsSafe(D, c);
    CommitAnchors(c.chain, ctx, D, row, k.period, batch);
    TalliesAreOnChain(D, c, k);
  }

  // ── the automatic choice of a period ───────────────────────────────

  /** The automatic choice offers an orphan, and no other commit of the code is under way. */
  ghost predicate Stuck(c: Cloud, k: TallyKey, week: nat) {
    && Orphan(c, k) && Periods.NextPeriod(PeriodsOf(c, k.shared), week) == Some(k.period)
    && forall a :: a in c.busy && !c.busy[a].PaidOut? && c.busy[a].key.shared == k.shared ==> c.busy[a].key == k
  }

  /** What the holder of a lock works on is of its own code; so others work on other codes. */
  lemma OthersWorkElsewhere(D: Deployment, c: Cloud, a: Address)
    requires Safe(D, c) && a in c.busy && !c.busy[a].PaidOut?
    ensures forall b :: b in c.busy && b != a && !c.busy[b].PaidOut? ==> c.busy[b].key.shared != c.busy[a].key.shared
  {
    SafeFacts(D, c, c.busy[a].key, a);
    forall b | b in c.busy && b != a && !c.busy[b].PaidOut? ensures c.busy[b].key.shared != c.busy[a].key.shared {
      SafeFacts(D, c, c.busy[a].key, b);
    }
  }

  lemma AloneIsStuck(c: Cloud, d: Cloud, a: Address, week: nat)
    requires a in c.busy && d.tallies == c.tallies && d.busy == c.busy - {a}
    requires forall b :: b in c.busy && b != a && !c.busy[b].PaidOut? ==> c.busy[b].key.shared != c.busy[a].key.shared
    requires var k := c.busy[a].key; Orphan(d, k) && Periods.NextPeriod(PeriodsOf(c, k.shared), week) == Some(k.period)
    ensures Stuck(d, c.busy[a].key, week)
  {
    assert PeriodsOf(d, c.busy[a].key.shared) == PeriodsOf(c, c.busy[a].key.shared);
  }

  lemma LossIs(D: Deployment, c: Cloud, a: Address, ctx: Ctx)
    requires a in c.busy && c.busy[a].Selected?
    ensures var d := Next(D, c, CommitOnChain(a, ctx, false)); d.tallies == c.tallies && d.busy == c.busy - {a}
  {
  }

  /** This is where every accepted commit under an automatically chosen period leads whose answer is
      lost, or comes before the process stops. */
  lemma LostCommitsStick(D: Deployment, c: Cloud, a: Address, ctx: Ctx, week: nat, answered: bool)
    requires Safe(D, c) && a in c.busy && c.busy[a].Selected? && c.busy[a].key.shared < |c.codes|
    requires var w := c.busy[a];
             && Periods.NextPeriod(PeriodsOf(c, w.key.shared), week) == Some(w.key.period)
             && Exec(c.chain, CommitFrame(D, c.codes[w.key.shared], ctx, w.key.period, w.batch)).reply.Ok?
    ensures var d := if answered then Next(D, Next(D, c, CommitOnChain(a, ctx, true)), Crash(a))
                     else Next(D, c, CommitOnChain(a, ctx, false));
            Stuck(d, c.busy[a].key, week)
  {
    CrashIsLoss(D, c, a, ctx);
    OrphanIff(D, c, CommitOnChain(a, ctx, false), c.busy[a].key);
    OthersWorkElsewhere(D, c, a);
    LossIs(D, c, a, ctx);
    AloneIsStuck(c, Next(D, c, CommitOnChain(a, ctx, false)), a, week);
  }

  /** During the run, commits of the code take the period that the automatic choice offers. */
  ghost predicate AllAutomatic(D: Deployment, c: Cloud, steps: seq<Step>, shared: nat, week: nat)
    decreases |steps|
  {
    steps != [] ==>
      && (steps[0].SelectBatch? && steps[0].key.shared == shared ==>
            Periods.NextPeriod(PeriodsOf(c, shared), week) == Some(steps[0].key.period))
      && AllAutomatic(D, Next(D, c, steps[0]), steps[1..], shared, week)
  }

  /** Work on a batch begins with its selection and keeps its key. */
  lemma WorkComesFrom(D: Deployment, c: Cloud, step: Step, a: Address)
    requires var d := Next(D, c, step); a in d.busy && !d.busy[a].PaidOut?
    ensures var k := Next(D, c, step).busy[a].key;
            (a in c.busy && !c.busy[a].PaidOut? && c.busy[a].key == k) || (step.SelectBatch? && step.key == k)
  {
  }

  lemma StuckRows(D: Deployment, c: Cloud, step: Step, k: TallyKey, week: nat)
    requires Stuck(c, k, week) && (step.IndexLocally? ==> Facts(c, k, step.account))
    ensures PeriodsOf(Next(D, c, step), k.shared) == PeriodsOf(c, k.shared)
  {
    var d := Next(D, c, step);
    forall j: TallyKey | j.shared == k.shared ensures j in d.tallies <==> j in c.tallies {
      if step.IndexLocally? && step.account in c.busy && c.busy[step.account].Anchored? && c.busy[step.account].key == j { assert j == k; }
    }
  }

  /** Once the automatic choice offers an orphan, commits that rely on it get nowhere: whatever else
      happens during the week, the offer stays the same and no further period of it gets a row. */
  lemma {:induction false} AutomaticCommitsAreStuck(D: Deployment, c: Cloud, steps: seq<Step>, k: TallyKey, week: nat)
    requires Safe(D, c) && Stuck(c, k, week) && AllAutomatic(D, c, steps, k.shared, week)
    ensures Stuck(Run(D, c, steps), k, week)
    ensures PeriodsOf(Run(D, c, steps), k.shared) == PeriodsOf(c, k.shared)
    decreases |steps|
  {
    if steps != [] {
      var d := Next(D, c, steps[0]);
      StepIsSafe(D, c, steps[0]);
      OrphanIff(D, c, steps[0], k);
      if steps[0].IndexLocally? { SafeFacts(D, c, k, steps[0].account); }
      StuckRows(D, c, steps[0], k, week);
      forall a | a in d.busy && !d.busy[a].PaidOut? && d.busy[a].key.shared == k.shared ensures d.busy[a].key == k {
        WorkComesFrom(D, c, steps[0], a);
      }
      AutomaticCommitsAreStuck(D, d, steps[1..], k, week);
    }
  }

  /** In particular every attempt is refused by the chain. */
  lemma StuckCommitsAreRefused(D: Deployment, c: Cloud, k: TallyKey, week: nat, a: Address, ctx: Ctx, reported: bool)
    requires Stuck(c, k, week) && a in c.busy && c.busy[a].Selected? && c.busy[a].key.shared == k.shared
    ensures Next(D, c, CommitOnChain(a, ctx, reported)) == Release(c, a)
  {
    var w := c.busy[a];
    RefusedCommit(D, c.chain, c.codes[k.shared], ctx, k.period, w.batch);
    assert c.(chain := Exec(c.chain, CommitFrame(D, c.codes[k.shared], ctx, k.period, w.batch)).world) == c;
  }
}
