/** The tally pipeline over two stores that cannot commit together: the service's rows, and the
    chain. Steps of different accounts interleave at will; within an account, the handlers that
    touch the chain hold the account's lock. The process may stop between any two steps. */
module TallyPipeline {
  import opened Basics
  import opened LedgerTypes
  import opened LedgerSpec
  import opened LedgerExec
  import opened TallyStore
  import Merkle

  /** A row of shared_codes joined with its campaign; `owner` is the custodial account. */
  datatype SharedRow = SharedRow(key: CodeKey, owner: Address, attributedTo: Option<Address>)

  datatype TallyKey = TallyKey(shared: nat, period: u64)

  datatype TallyRow = TallyRow(count: nat, attributed: nat, root: Bytes32, settled: bool, payout: Option<int>)

  /** The rows that a commit has read: signed, with a total that a u32 holds. */
  type Batch = items: seq<Item> | AllSigned(items) && Sum(items) <= U32_MAX witness []

  /** What the holder of an account's lock is in the middle of; batches are in its memory. */
  datatype Work =
    | Selected(key: TallyKey, end: nat, batch: Batch)  // chosen, not yet sent
    | Anchored(key: TallyKey, end: nat, batch: Batch)  // the chain has accepted it, the rows do not know
    | PaidOut(key: TallyKey, amount: Option<int>)      // the chain has settled it, the rows do not know; with
                                                       // the amount, if this account's own call did

  const MAX_TOTAL: nat := 4_000_000_000

  datatype Cloud = Cloud(
    codes: seq<SharedRow>,
    events: seq<Event>,
    tallies: map<TallyKey, TallyRow>,
    cleared: set<nat>,             // codes whose unsigned-receipt check has passed
    busy: map<Address, Work>,      // locks held, with the work in progress
    chain: World)

  datatype Step =
    | RegisterCode(ctx: Ctx, row: SharedRow, payoutToken: Option<Address>, rate: i128, indexed: bool)
    | RecordEvent(shared: nat, count: nat, signer: Address, nonce: nat)
    | Migrate
    | CheckUnsigned(shared: nat)
    | SelectBatch(key: TallyKey, end: nat)
    | CommitOnChain(account: Address, ctx: Ctx, reported: bool)
    | IndexLocally(account: Address)
    | SeeSettled(key: TallyKey)
    | SettleOnChain(key: TallyKey, ctx: Ctx, token: TokenBehaviour, reported: bool)
    | MarkSettled(account: Address)
    | ElsewhereOnChain(frame: Frame)  // keepers, other users, anything the contract allows
    | Crash(account: Address)         // also any local failure that makes a handler return

  function ChainKey(c: Cloud, k: TallyKey): PeriodKey
    requires k.shared < |c.codes|
  {
    PeriodKey(c.codes[k.shared].key, k.period)
  }

  /** The periods for which a code has a local row. */
  function PeriodsOf(c: Cloud, shared: nat): set<nat> { set k | k in c.tallies && k.shared == shared :: k.period }

  /** What the commit sends for the attribution of a batch. */
  function Credits(row: SharedRow, total: u32): Attribution {
    if row.attributedTo.Some? then [Entry(row.attributedTo.value, total)] else []
  }

  function RegisterFrame(ctx: Ctx, row: SharedRow, payoutToken: Option<Address>, rate: i128): Frame {
    Frame(ctx, RegisterShared(row.owner, row.key.campaign, row.key.code, row.attributedTo, payoutToken, rate))
  }

  function CommitFrame(D: Deployment, row: SharedRow, ctx: Ctx, period: u64, batch: Batch): Frame {
    Frame(ctx.(signed := {row.owner}),
          CommitTally(row.owner, row.key.campaign, row.key.code, period, Sum(batch), RootOf(D, batch),
                      Credits(row, Sum(batch))))
  }

  function SettleFrame(row: SharedRow, ctx: Ctx, period: u64, token: TokenBehaviour): Frame {
    Frame(ctx, Settle(row.owner, row.key.campaign, row.key.code, period, token))
  }

  /** The total of what a settlement has paid. */
  function AmountOf(r: Reply): Option<int> {
    if r.Ok? && r.value.Paid? then Some(Total(r.value.payouts)) else None
  }

  /** UPDATE tallies SET settled = 1: with the amount of the account's own settlement, or, for a
      settlement by somebody else, only if the row is not marked yet. A key without a row changes nothing. */
  function Marked(c: Cloud, k: TallyKey, amount: Option<int>): Cloud {
    if k !in c.tallies then c
    else if amount.Some? then c.(tallies := c.tallies[k := c.tallies[k].(settled := true, payout := amount)])
    else c.(tallies := c.tallies[k := c.tallies[k].(settled := true)])
  }

  /** The receipt that is signed for an event. */
  function NewPayload(D: Deployment, row: SharedRow, count: nat, signer: Address, nonce: nat): Payload {
    Payload(2, D.network, D.contract, row.key.campaign, row.key.code, count, signer, nonce)
  }

  function Release(c: Cloud, account: Address): Cloud { c.(busy := c.busy - {account}) }

  function Next(D: Deployment, c: Cloud, step: Step): Cloud {
    match step
    case RegisterCode(ctx, row, payoutToken, rate, indexed) =>
      var d := Exec(c.chain, RegisterFrame(ctx, row, payoutToken, rate));
      if d.reply.Ok? && indexed then c.(chain := d.world, codes := c.codes + [row])
      else c.(chain := d.world)
    case RecordEvent(shared, count, signer, nonce) =>
      if shared >= |c.codes| || count == 0 || count > MAX_EVENT_COUNT then c
      else
        var p := NewPayload(D, c.codes[shared], count, signer, nonce);
        c.(events := c.events + [Event(shared, count, Some(SignedReceipt(p, D.sha(p), signer, true)), Pending)])
    case Migrate => c.(events := Quarantine(c.events))
    case CheckUnsigned(shared) => if Clear(c.events, shared) then c.(cleared := c.cleared + {shared}) else c
    case SelectBatch(k, end) =>
      if k.shared >= |c.codes| || k.shared !in c.cleared || c.codes[k.shared].owner in c.busy then c
      else if !IsBatch(c.events, k.shared, end) || !AllSigned(BatchItems(c.events, k.shared, end)) then c
      else
        var items := BatchItems(c.events, k.shared, end);
        if Sum(items) == 0 || Sum(items) > MAX_TOTAL then c
        else c.(busy := c.busy[c.codes[k.shared].owner := Selected(k, end, items)])
    case CommitOnChain(account, ctx, reported) =>
      if account !in c.busy || !c.busy[account].Selected? then c
      else SendCommit(D, c, account, ctx, reported)
    case IndexLocally(account) =>
      if account !in c.busy || !c.busy[account].Anchored? then c
      else IndexTally(D, c, account)
    case SeeSettled(k) =>
      if k.shared >= |c.codes| || c.codes[k.shared].owner in c.busy || ChainKey(c, k) !in c.chain.ledger.settled then c
      else c.(busy := c.busy[c.codes[k.shared].owner := PaidOut(k, None)])
    case SettleOnChain(k, ctx, token, reported) =>
      if k.shared >= |c.codes| || c.codes[k.shared].owner in c.busy then c
      else
        var row := c.codes[k.shared];
        var d := Exec(c.chain, SettleFrame(row, ctx, k.period, token));
        if reported && (d.reply.Ok? || d.reply == Err(AlreadySettled))
        then c.(chain := d.world, busy := c.busy[row.owner := PaidOut(k, AmountOf(d.reply))])
        else c.(chain := d.world)
    case MarkSettled(account) =>
      if account !in c.busy || !c.busy[account].PaidOut? then c
      else
        Release(Marked(c, c.busy[account].key, c.busy[account].amount), account)
    case ElsewhereOnChain(f) => c.(chain := Exec(c.chain, f).world)
    case Crash(account) => Release(c, account)
  }

  /** The chain call of a commit; when its success is not reported the handler gives up. */
  function SendCommit(D: Deployment, c: Cloud, account: Address, ctx: Ctx, reported: bool): Cloud
    requires account in c.busy && c.busy[account].Selected?
  {
    var w := c.busy[account];
    if w.key.shared >= |c.codes| then Release(c, account)
    else
      var d := Exec(c.chain, CommitFrame(D, c.codes[w.key.shared], ctx, w.key.period, w.batch));
      if d.reply.Ok? && reported then
        c.(chain := d.world, busy := c.busy[account := Anchored(w.key, w.end, w.batch)])
      else Release(c.(chain := d.world), account)
  }

  /** The local transaction writes the row and the stamps, unless the key is taken or the update
      touched another number of rows than the batch has. */
  predicate IndexFails(c: Cloud, k: TallyKey, end: nat, batch: Batch) {
    || k.shared >= |c.codes| || end > |c.events|
    || k in c.tallies
    || |Rows(c.events, k.shared, Pending, end)| != |batch|
  }

  /** What the transaction writes. */
  function RowWritten(D: Deployment, c: Cloud, k: TallyKey, end: nat, batch: Batch): Cloud
    requires k.shared < |c.codes|
  {
    var attributed := if c.codes[k.shared].attributedTo.Some? then Sum(batch) else 0;
    c.(tallies := c.tallies[k := TallyRow(Sum(batch), attributed, RootOf(D, batch), false, None)],
       events := Stamp(c.events, k.shared, end, k.period))
  }

  function LocallyIndexed(D: Deployment, c: Cloud, k: TallyKey, end: nat, batch: Batch): Cloud {
    if IndexFails(c, k, end, batch) then c else RowWritten(D, c, k, end, batch)
  }

  function IndexTally(D: Deployment, c: Cloud, account: Address): Cloud
    requires account in c.busy && c.busy[account].Anchored?
  {
    var w := c.busy[account];
    Release(LocallyIndexed(D, c, w.key, w.end, w.batch), account)
  }

  function Run(D: Deployment, c: Cloud, steps: seq<Step>): Cloud
    decreases |steps|
  {
    if steps == [] then c else Run(D, Next(D, c, steps[0]), steps[1..])
  }

  lemma BatchSelected(D: Deployment, c: Cloud, k: TallyKey, end: nat, batch: Batch)
    requires k.shared < |c.codes| && k.shared in c.cleared && c.codes[k.shared].owner !in c.busy
    requires IsBatch(c.events, k.shared, end) && batch == BatchItems(c.events, k.shared, end)
    requires 0 < Sum(batch) <= MAX_TOTAL
    ensures Next(D, c, SelectBatch(k, end)) == c.(busy := c.busy[c.codes[k.shared].owner := Selected(k, end, batch)])
  {
  }
}
