/** Data that the CouponLedger contract keeps, and the calls it accepts. */
module LedgerTypes {
  import opened Basics

  const MAX_CODE_LEN: nat := 64
  const MAX_NAME_LEN: nat := 96
  const MAX_DISCOUNT_TYPE_LEN: nat := 32

  datatype Campaign = Campaign(
    id: u64, owner: Address, name: string, discountType: string, discountValue: u64,
    totalSupply: u32, minted: u32, burned: u32, validUntil: u64)

  datatype Token = Token(
    tokenId: u64, campaignId: u64, code: string, isBurned: bool, mintedAt: u64,
    redeemerRef: Bytes32, burnedAt: u64)

  datatype Receipt = Receipt(
    tokenId: u64, code: string, campaignId: u64, campaignName: string, discountType: string,
    discountValue: u64, redeemerRef: Bytes32, burnedAt: u64, ledgerSeq: u32)

  datatype Stats = Stats(totalSupply: u32, minted: u32, burned: u32, available: u32, isExpired: bool)

  datatype SharedCode = SharedCode(
    campaignId: u64, code: string, attributedTo: Option<Address>, payoutToken: Option<Address>,
    payoutRate: i128, registeredAt: u64)

  datatype Entry = Entry(addr: Address, count: u32)

  /** A host map is a vector of entries with strictly ascending keys. */
  ghost predicate Ascending(m: seq<Entry>) {
    forall i, j :: 0 <= i < j < |m| ==> m[i].addr < m[j].addr
  }
  type Attribution = m: seq<Entry> | Ascending(m) witness []

  datatype Tally = Tally(period: u64, count: u32, merkleRoot: Bytes32, perAttribution: Attribution)

  datatype Payout = Payout(to: Address, amount: i128)

  /** The contract's error codes, and the ways in which the host itself stops a call. */
  datatype Error =
    | CampaignNotFound | CouponNotFound | AlreadyRedeemed | CampaignExpired | SupplyExhausted
    | Unauthorized | InvalidCode | DuplicateCode | InvalidTerms | BatchTooLarge | CodeTooLong
    | SharedNotFound | AlreadyRegistered | PeriodCommitted | TallyNotFound | AlreadySettled
    | InvalidTally | InvalidSettlement | AttributionMismatch
    | AuthTrap      // require_auth without a signature
    | OverflowTrap  // the release profile checks arithmetic
    | TokenTrap     // the payout token trapped

  datatype CodeKey = CodeKey(campaign: u64, code: string)
  datatype PeriodKey = PeriodKey(code: CodeKey, period: u64)
  datatype SlotKey = SlotKey(owner: Address, slot: u64)
  datatype DelegateKey = DelegateKey(campaign: u64, who: Address)

  datatype State = State(
    campCtr: u64,
    tokenCtr: u64,
    campaigns: map<u64, Campaign>,
    tokens: map<u64, Token>,
    codeIndex: map<CodeKey, u64>,
    delegates: set<DelegateKey>,
    ownerCount: map<Address, u64>,
    ownerCampaign: map<SlotKey, u64>,
    ownerSlot: map<u64, u64>,
    shared: map<CodeKey, SharedCode>,
    tallies: map<PeriodKey, Tally>,
    settled: set<PeriodKey>)

  const EmptyState := State(0, 0, map[], map[], map[], {}, map[], map[], map[], map[], map[], {})

  datatype Value =
    | Unit
    | CampaignId(id: u64)
    | TokenIds(ids: seq<u64>)
    | Redeemed(receipt: Receipt)
    | Paid(payouts: seq<Payout>)

  type Reply = Result<Value, Error>

  /** What a call can see of the ledger that executes it. */
  datatype Ctx = Ctx(now: u64, seqNo: u32, signed: set<Address>)

  datatype Call =
    | CreateCampaign(owner: Address, name: string, discountType: string, discountValue: u64,
                     totalSupply: u32, validUntil: u64)
    | AddDelegate(owner: Address, campaign: u64, who: Address)
    | RemoveDelegate(owner: Address, campaign: u64, who: Address)
    | IssueUnique(owner: Address, campaign: u64, codes: seq<string>)
    | RedeemUnique(authorizer: Address, campaign: u64, code: string, redeemerRef: Bytes32)
    | RegisterShared(owner: Address, campaign: u64, code: string, attributedTo: Option<Address>,
                     payoutToken: Option<Address>, payoutRate: i128)
    | CommitTally(owner: Address, campaign: u64, code: string, period: u64, count: u32,
                  merkleRoot: Bytes32, perAttribution: Attribution)
    | Settle(owner: Address, campaign: u64, code: string, period: u64, token: TokenBehaviour)

  /** One invocation of the contract, with everything the payout token does inside it. */
  datatype Frame = Frame(ctx: Ctx, call: Call)

  /** What the token does in one of its methods: it may call the contract back, any number of
      times and with any arguments; then it answers (None: it traps). */
  datatype TokenReply = TokenReply(reentry: seq<Frame>, answer: Option<int>)

  /** The token's answers to `allowance`, to `balance` and to each `transfer_from` in order. */
  datatype TokenBehaviour = TokenBehaviour(allowance: TokenReply, balance: TokenReply, transfers: seq<TokenReply>)

  /** A `transfer_from` that the token accepted. */
  datatype Transfer = Transfer(key: PeriodKey, token: Address, from: Address, payout: Payout)

  /** The contract's storage, and the token transfers it has caused; both roll back together. */
  datatype World = World(ledger: State, transfers: seq<Transfer>)

  const EmptyWorld := World(EmptyState, [])
}
