# Soroticket: a verified model of the ledger and of what Cloud builds on it

The project follows a redemption from the moment it is recorded to the payout it causes, through
four connected parts.

**The contract.** `LedgerTypes`, `LedgerSpec` and `LedgerExec` say what one call does, what the host
undoes when it fails, and what a whole tree of calls does when the payout token is arbitrary code
that may call the contract back while it answers `allowance`, `balance` or `transfer_from`.
`CouponLedger` is the contract as it is written, one storage write at a time, proved equal to that.
`LedgerInvariant`, `LedgerHistory`, `LedgerEntries`, `LedgerLeaves`, `LedgerRedemptions`,
`LedgerCommits`, `LedgerIndex`, `LedgerSettlement`, `LedgerExactlyOnce` and `LedgerMoney` hold the
theorems: the counting invariants, the append-only history, when each entry point succeeds and what
it records, call trees laid out flat, the owner index, exactly-once payment with a hostile token, and
conservation of money with an honest one.

**The Merkle commitment.** `Merkle` treats the parent hash as an arbitrary function, so every
binding statement reads "equal, or here is a collision".

**The tally pipeline.** `TallyStore` has the rows, `TallyPipeline` the two stores as a transition
system in which the process may stop between any two writes and outside keepers act at will,
`TallyService` and `TallyRecords` the handlers as runs of it, `TallyReplies` when they succeed and
what they cost, `TallySafety` the invariant, `TallyRuns`, `TallyOrphans`, `TallyAudit` and
`TallyPages` what an operator, a creator and an auditor may conclude.

**The layer around it.** Commit periods (`Periods`), amounts (`Amounts`, `Decimal`), idempotency keys
(`Idempotency`, `IdempotencySpeakers`, `IdempotencyHandler`), the credit meter (`Meter`,
`CreditMeter`), chunked issuance and campaign creation with their charges (`Issuance`,
`CampaignSetup`), and loyalty rewards (`Loyalty`).

Some promises of the code's comments and design hold only under a condition. Then the condition is
proved exact, and inputs that violate it are given:

- the chain counts every redemption that has left the queue once, and on top of that exactly what
  its tallies without a row count (`TallyOrphans.ChainCountsOnceAndOrphans`); these arise from
  commits that survive without their row being written, and from nothing else (`OrphanIff`,
  `NoOrphansIff`), and lead to batches anchored twice (`AnchoredTwice`) or, under the automatic
  choice of the period, to commits that get nowhere (`LostCommitsStick`, `AutomaticCommitsAreStuck`);
- a root binds a list exactly among lists of its length (`Merkle.BindingIff`, `LengthsMatter`);
- the automatic choice of a period refuses a week exactly once its batch 99 is in use
  (`Periods.RefusedIff`, `OneBatchCanExhaustAWeek`);
- a retry cannot run twice for 24 hours from the instant on the row, which is not the reservation's
  own (`Idempotency.RunsAreADayApart`, `StallingShrinksTheGap`);
- what a retry hears is the answer of the last run exactly as long as no run stores its answer in a
  row that a later one has reserved (`IdempotencySpeakers.SpeaksIff`, `AlwaysSpeaksIff`), which takes
  more than 24 hours, any number of which will do (`OvertakenIsLate`, `LateRunsAnswerForTheLast`);
- grants never stack exactly as long as no top-up meets an open reservation (`Meter.OneGrantIff`,
  `RefundsReachTheSum`), and a month has one top-up exactly as long as none meets a month that has
  had one, for which the clock has to go back (`OnePerMonthIff`, `OneTopUpAMonth`,
  `ClockGoingBackTopsUpTwice`);
- charges are what the chain has done exactly if no accepted call goes unreported
  (`Issuance.ChargedForIssued`, `CampaignSetup.ChargedForWhatExists`,
  `Loyalty.ChargedForWhatHappened`);
- reward vouchers on the chain are bounded by the punches exactly as they are recorded
  (`Loyalty.InStepIff`, `CarefulRunsAreBoundedOnChain`; otherwise `LostVouchersAreIssuedAgain`).

Check everything with `dafny verify dfyconfig.toml`.

## Model

| member | source | states |
|---|---|---|
| CouponLedgerContract.CouponLedger.Invoke | contracts/coupon-ledger/src/lib.rs:592-697 | one call with the host around it: the storage and the transfers afterwards are those of the specification of the whole call tree, and exactly the old ones when the call fails, however much its body had written |
| CouponLedgerContract.CouponLedger.Create | contracts/coupon-ledger/src/lib.rs:269-340 | writes campaign, counters and the three owner-index entries one by one; state and reply are those of the specification |
| CouponLedgerContract.CouponLedger.Issue | contracts/coupon-ledger/src/lib.rs:592-697 | the batch: guards in order, the token loop, then the campaign's counter written once |
| CouponLedgerContract.CouponLedger.IssueLoop | contracts/coupon-ledger/src/lib.rs:633-690 | the loop that writes tokens and may stop in the middle computes the same as minting the codes one after the other, and returns the ids it took |
| CouponLedgerContract.CouponLedger.Redeem | contracts/coupon-ledger/src/lib.rs:704-785 | burns the token and counts it, with every refusal in its order |
| CouponLedgerContract.CouponLedger.Register | contracts/coupon-ledger/src/lib.rs:850-912 | terms of a shared code, written once |
| CouponLedgerContract.CouponLedger.Commit | contracts/coupon-ledger/src/lib.rs:929-988 | the attribution loop with its foreign-address and overflow exits decides exactly: nothing for a count-only code, the one registered target with exactly `count` otherwise |
| CouponLedgerContract.CouponLedger.SettlePeriod | contracts/coupon-ledger/src/lib.rs:1044-1120 | checks, then the guard, then the token, which may call back before each answer |
| CouponLedgerContract.CouponLedger.CallToken | contracts/coupon-ledger/src/lib.rs:1093-1117 | allowance, balance and the transfers in order, each with arbitrary calls back into the contract, re-executed here through the same `Invoke` |
| CouponLedgerContract.CouponLedger.Amounts | contracts/coupon-ledger/src/lib.rs:1074-1092 | the checked loop over the attribution returns the positive payouts and their total, or fails exactly when a product or the total leaves i128 |
| CouponLedgerContract.CouponLedger.CampaignsPage | contracts/coupon-ledger/src/lib.rs:380-413 | limit check, saturating end, slot loop: the page of the specification |
| CouponLedgerContract.CouponLedger.IsValid | contracts/coupon-ledger/src/lib.rs:803-831 | the read-only check, equal to its specification, for which the theorem below says what a yes means |
| LedgerExec.ExecKeeps | contracts/coupon-ledger/src/lib.rs:1044-1120 | induction over call trees: what survives every single storage write survives every call, any token re-entering at any depth and any frame rolled back |
| LedgerInvariant.ReachableInv | contracts/coupon-ledger/src/lib.rs:592-831 | after any run: campaign ids are 1..counter, token ids are exactly 1..total_minted, total_minted is the sum of the campaigns' minted, minted and burned are the numbers of tokens and of burned tokens, minted <= supply, the code index is a bijection onto the tokens, the owner index is exact, and every tally obeys its code's attribution |
| LedgerHistory.HistoryOnlyGrows | contracts/coupon-ledger/src/lib.rs:725-975 | along any run, shared codes, tallies, settled marks, code index and owner index never change or vanish, tokens keep their identity and burned tokens everything, and the counters never fall |
| LedgerRedemptions.RedeemedAtMostOnce | contracts/coupon-ledger/src/lib.rs:704-761 | in every run, redemptions made by payout tokens that call back included and rolled-back ones not counted, a code is redeemed at most once, and exactly once if it is on record as redeemed |
| LedgerRedemptions.RecordIsFinal | contracts/coupon-ledger/src/lib.rs:704-761 | whoever redeemed it, in whatever call: in any further run the commitment and time stay and no redemption of the code succeeds, at any depth |
| LedgerCommits.CommittedAtMostOnce | contracts/coupon-ledger/src/lib.rs:929-988 | in every run, commits made by payout tokens that call back included and rolled-back ones not counted, a period of a code is committed at most once, and exactly once if the chain has a tally for it |
| LedgerCommits.ExecCommits | contracts/coupon-ledger/src/lib.rs:929-988 | from any state whatever, a call tree brings a tally onto the chain exactly if one of its surviving frames is the successful commit_tally of it |
| LedgerCommits.FreeCommitsNothing | contracts/coupon-ledger/src/lib.rs:1044-1120 | a call tree without such a frame, in particular a settlement whose token does not call back, commits nothing |
| LedgerHistory.RedeemedOnce | contracts/coupon-ledger/src/lib.rs:704-761 | after a successful redemption and any further run the stored commitment and time are unchanged, and redeeming the code again answers AlreadyRedeemed to every signer |
| LedgerHistory.ValidMeansRedeemable | contracts/coupon-ledger/src/lib.rs:803-831 | is_valid is true if and only if the campaign owner's redeem_unique would succeed now |
| LedgerHistory.RedemptionFailures | contracts/coupon-ledger/src/lib.rs:704-761 | a signed redemption fails for four reasons only, in order; the checked `burned += 1` never traps and an indexed code never lacks its token or campaign |
| LedgerHistory.CountersInOrder | contracts/coupon-ledger/src/lib.rs:416-430 | burned <= minted <= total_supply, so the saturating subtraction of campaign_stats is exact and counts the unburned tokens |
| LedgerHistory.TermsAreTheOnlyReason | contracts/coupon-ledger/src/lib.rs:269-340 | create_campaign succeeds if and only if the owner signed, the terms are valid and the id counter has room; the slot-counter overflow that shares the InvalidTerms code cannot happen |
| LedgerHistory.BatchIsAllOrNothing | contracts/coupon-ledger/src/lib.rs:592-697 | a batch succeeds if and only if the guards pass and its codes are well-formed, new and pairwise different; then the i-th returned id is a fresh unburned token with the i-th code and older tokens are untouched; otherwise nothing changes, even for a duplicate found in mid-loop |
| LedgerLeaves.ExecReplays | contracts/coupon-ledger/src/lib.rs:1044-1120 | a call tree, with everything tokens do inside it, changes the storage exactly as its surviving calls and guards do one after the other, in the order in which they happened |
| LedgerLeaves.DelegationIff | contracts/coupon-ledger/src/lib.rs:539-581 | add_delegate and remove_delegate succeed exactly for the signed owner of the campaign, and add or remove that one delegate |
| LedgerLeaves.DelegatesRedeemIff | contracts/coupon-ledger/src/lib.rs:539-743 | in every run, calls by hostile tokens included: somebody other than the owner can redeem a valid code if and only if the last change of that delegate by the campaign's owner that survives is an addition |
| LedgerEntries.CreationRecords | contracts/coupon-ledger/src/lib.rs:291-340 | a new campaign has the next id, the terms asked for and nothing issued or burned |
| LedgerEntries.BatchRecords | contracts/coupon-ledger/src/lib.rs:633-690 | a batch moves the campaign's minted counter by its length and touches tokens and their index alone |
| LedgerEntries.RedemptionRecords | contracts/coupon-ledger/src/lib.rs:744-785 | a redemption burns the token under its code with commitment and time, adds one to burned, changes nothing else, and the receipt repeats the campaign's terms |
| LedgerEntries.RegistrationIff | contracts/coupon-ledger/src/lib.rs:850-912 | a shared code is registered if and only if the owner of a live campaign signed, the code is well-formed and new, and there is a payout token exactly with a positive rate and somebody to pay; it is then on record with these terms |
| LedgerEntries.CommitIff | contracts/coupon-ledger/src/lib.rs:929-988 | a tally is committed if and only if the owner signed, the code is registered, the period is new and the credits are those of the code; it is then on record as sent |
| LedgerEntries.WrongCredits | contracts/coupon-ledger/src/lib.rs:951-978 | credits for anybody but the target are a mismatch, another sum for the target is invalid |
| LedgerEntries.CreationRefusals | contracts/coupon-ledger/src/lib.rs:280-300 | create_campaign is refused for the signature, then for the terms, then for the id counter |
| LedgerEntries.BatchRefusals | contracts/coupon-ledger/src/lib.rs:592-650 | a batch is refused for its owner, the campaign's time, its length, the supply, in this order, and else for a code |
| LedgerEntries.MintAllErrors | contracts/coupon-ledger/src/lib.rs:650-672 | and the error that is named for a code is one that the batch has |
| LedgerEntries.RegistrationRefusals | contracts/coupon-ledger/src/lib.rs:850-900 | why a registration is refused, in order |
| LedgerEntries.CommitRefusals | contracts/coupon-ledger/src/lib.rs:929-978 | why a commit is refused, in order |
| LedgerEntries.SettlementRefusals | contracts/coupon-ledger/src/lib.rs:1044-1092 | what settle decides by itself it refuses with its own error in order, without any signature; the rest is the token's |
| LedgerEntries.RegisteredCodesAreShort | contracts/coupon-ledger/src/lib.rs:866-871 | in every run registered codes have 1 to 64 characters |
| LedgerIndex.ListsOwnCampaigns | contracts/coupon-ledger/src/lib.rs:357-375 | campaigns_of lists exactly the owner's campaigns, in creation order |
| LedgerIndex.SlotInverse | contracts/coupon-ledger/src/lib.rs:315-324 | CampaignOwnerSlot is the inverse of OwnerCampaign |
| LedgerIndex.PageIsSlice | contracts/coupon-ledger/src/lib.rs:380-413 | for any cursor and any limit in 1..100 the page is the slice of campaigns_of, saturation at the top of u64 included |
| LedgerIndex.PagesConcatenate | contracts/coupon-ledger/src/lib.rs:380-413 | following the pages from cursor 0 with any limit gives campaigns_of |
| LedgerExactlyOnce.SettledAtMostOnce | contracts/coupon-ledger/src/lib.rs:1074-1110 | for every run with hostile tokens: the surviving transfers of a period are none while it is unmarked, and one batch of count x rate once it is marked |
| LedgerSettlement.ExecSettles | contracts/coupon-ledger/src/lib.rs:1060-1117 | one call tree at a time: for every period that a call newly marks, the surviving transfers grow by exactly the batch of its tally, and for no other period, however the token re-enters and whatever fails inside |
| LedgerExactlyOnce.BatchShape | contracts/coupon-ledger/src/lib.rs:947-978 | the batch of a settled period is one transfer of count x rate from the owner to the registered address, none when the count is zero |
| LedgerMoney.PreviewIsPaid | contracts/coupon-ledger/src/lib.rs:1013-1106 | a successful settle returns compute_payouts filtered to positive amounts, with the same total, which is count x rate |
| LedgerMoney.PreviewIff | contracts/coupon-ledger/src/lib.rs:1013-1037 | compute_payouts answers for a configured code if and only if the period is committed and count x rate fits i128, with that total |
| LedgerMoney.HonestSettleIff | contracts/coupon-ledger/src/lib.rs:1044-1106 | with an honest token settle succeeds if and only if owner, configuration, tally, guard, i128 bound, allowance and balance all allow it; otherwise nothing changes |
| LedgerMoney.LifetimePaid | contracts/coupon-ledger/src/lib.rs:1044-1120 | in any run and with any token, what a code has been paid in its lifetime is its rate times the redemptions counted in its settled periods |
| LedgerMoney.KeeperEffect | contracts/coupon-ledger/src/lib.rs:1040-1120 | a settlement by whoever calls changes nothing, or moves exactly count x rate from the owner to the target and spends that much allowance |
| LedgerMoney.Conservation | cloud/api/handlers_tally.go:636-662 | whole runs with approvals, keepers and any other calls interleaved: the token's supply is unchanged and no holder's outflow exceeds what it has approved |
| Merkle.BuildLevels | cloud/api/merkle.go:27-47 | the loops of merkleLevels build the recursive levels, hashing n - 1 pairs |
| Merkle.BuildNext | cloud/api/merkle.go:35-43 | one level: neighbours are hashed, an unpaired last node moves up; half as many hashes as nodes |
| Merkle.ProofFromLevels | cloud/api/merkle.go:174-189 | the loop that halves the index reads off the sibling path, or nothing for an index out of range |
| Merkle.LevelsComputeTreeHash | cloud/api/merkle.go:27-47 | for every n >= 1 and every parent function the level-by-level root is the tree hash that splits at the largest power of two below n (the shape of section 2.1 of RFC 6962, without its prefixes) |
| Merkle.SplitPointIsPower | cloud/api/merkle.go:27-47 | the split point of that definition, which lies in [n/2, n), is a power of two |
| Merkle.ProofFolds | cloud/api/merkle.go:174-189 | every generated proof leads from its leaf to the root |
| Merkle.TreeSize | cloud/api/merkle.go:33-44 | there are e + 1 levels and no proof is longer than e, for the least e with n <= 2^e |
| Merkle.ProofHasShape | cloud/api/merkle.go:179-187 | the left/right directions of a proof depend on n and the index only |
| Merkle.ShapesAreSuffixFree | cloud/api/merkle.go:179-187 | for one n the directions of different indices are different and none is a suffix of another |
| Merkle.RootBinds | cloud/api/merkle.go:17-54 | two lists of one length with one root are equal, or an explicit pair of inputs with the same parent is produced |
| Merkle.LengthsMatter | cloud/api/merkle.go:27-47 | without equal lengths that is false: for any two lengths and any parent function there are lists of these lengths with one root |
| Merkle.BindingIff | cloud/api/merkle.go:17-54 | with a parent function free of collisions, roots bind lists of lengths m and n if and only if m = n |
| Merkle.ProofBinds | cloud/api/merkle.go:174-189 | a proof of the shape of index i that reaches the root starts from leaf i, or yields a collision |
| TallyStore.Gather | cloud/api/handlers_tally.go:421-464 | the loop over the selected rows yields the leaves, the total and the last id of the head of the code's queue, at most 10,000 rows |
| TallyStore.RowAt | cloud/api/handlers_tally.go:421-424 | selected rows stand in id order, none left out |
| TallyStore.StampMoves | cloud/api/handlers_tally.go:497-501 | the update moves exactly the pending rows up to the last id, in order, under a period that nothing carried before |
| TallyStore.StampKeepsQueues | cloud/api/handlers_tally.go:497-501 | and leaves the queues of all other codes as they are |
| TallyStore.QuarantineKeeps | cloud/api/store.go:434-441 | the migration's quarantine removes unsigned rows from the queue and touches no committed row and no cleared queue |
| TallyService.RootOfLeaves | cloud/api/merkle.go:17-23 | merkleRoot, with the zero root for no leaves |
| TallyService.Service.CommitTally | cloud/api/handlers_tally.go:376-513 | the handler: every reply if and only if the state before, the account and the chain's answer say so, from the period asked for or the automatic choice to the rows; its steps are a run of the pipeline's, and what it reports as committed is in the rows |
| TallyService.Service.Settle | cloud/api/handlers_tally.go:586-706 | the settle handler and its reconciliation: every reply if and only if the state before and the answers say so, with the amount approved; its steps are a run of the pipeline's and the row gets the amount of its own settlement |
| TallyReplies.CommitIsCharged | cloud/api/handlers_tally.go:479-489 | the account after a commit: 15 credits less for every batch that the chain has reported as accepted, indexed or not; unchanged without a reservation; restored after a refusal, unless the refund fails |
| TallyReplies.CommitCostsIff | cloud/api/handlers_tally.go:479-489 | so with the refund working 15 credits are gone if and only if the chain has accepted and reported the batch |
| TallyReplies.SettleIsCharged | cloud/api/handlers_tally.go:607-690 | the account after a settlement: 25 credits less for one of its own, restored after every other answer |
| TallyReplies.SettleCostsIff | cloud/api/handlers_tally.go:607-690 | so with the refund working 25 credits are gone if and only if the handler has settled the period itself |
| TallyReplies.ChosenIsFresh | cloud/api/handlers_tally.go:392-402 | the automatic choice is a valid period of the week, without a row of this code and later than all that have one; there is none if and only if this code has a row for batch 99 |
| TallyReplies.CommitAcceptedIff | contracts/coupon-ledger/src/lib.rs:929-988 | the chain accepts what the service sends for a registered code if and only if the period is new there |
| TallyReplies.CommitSucceedsIff | cloud/api/handlers_tally.go:415-513 | in every safe state, with the lock free: nothing to commit if and only if nothing is pending, no credits if and only if 15 are not covered, refused if and only if the chain has the period or its answer is lost, committed otherwise unless the process or the transaction fails; the total never overflows |
| TallyReplies.HonestSettlesIff | cloud/api/handlers_tally.go:607-690 | with a token that allows what the handler approves, the handler settles if and only if 25 credits are covered, the account is idle, the period is configured, committed and unsettled, its payment fits, is approved and on the owner's balance, and the answer comes back; it has then approved exactly count x rate |
| TallyReplies.SettledRowSaysSo | cloud/api/handlers_tally.go:690-706 | and the chain then has the mark and the one batch of transfers, and the row the amount |
| TallySafety.StepIsSafe | cloud/api/handlers_tally.go:421-513 | every step of every account keeps the invariant of both stores, crashes and lost answers included |
| TallySafety.IndexingNeverFails | cloud/api/handlers_tally.go:491-508 | after a reported commit the unique key is free and the update touches exactly the batch: the 'batch changed' refusal cannot happen while the lock is held |
| TallySafety.PaidIsDue | cloud/api/handlers_tally.go:671-686 | the total that a settlement reports, which goes into the row, is the count times the rate of the period |
| TallySafety.SettleAnchors | cloud/api/handlers_tally.go:650-668 | a settle that answers success or AlreadySettled leaves the period settled on chain, whatever the token did in between |
| TallyRuns.RowsNeverRunAhead | cloud/api/handlers_tally.go:484-517 | in every run every local tally row has a chain tally with the same count, root and attribution, is marked settled only if the chain has settled it, and records as paid, if anything, its count times the code's rate |
| TallyRuns.TallyIsItsEvents | cloud/api/handlers_tally.go:434-501 | count and root of every indexed tally are the sum and the Merkle root of exactly the events stamped with its period, in id order, all signed, 1 to 10,000 of them |
| TallyRuns.BatchesFit | cloud/api/handlers_tally.go:456-467 | a batch counts at most 10^8 redemptions, so the guard before the cast to u32 never fires |
| TallyRuns.OneBatchAtATime | cloud/api/handlers_tally.go:421-430 | the selected batch is determined by the rows |
| TallyRecords.EventBook.RecordEvents | cloud/api/handlers_tally.go:187-345 | the handler that records redemptions: every reply if and only if the state before says so, the row and the order reference written together or not at all, 0.2 credits for each redemption recorded and none otherwise unless a refund fails |
| TallyRecords.RecordingAddsARow | cloud/api/handlers_tally.go:323-345 | a request for a known code with a count from 1 to 10,000 adds one pending row behind the others, with a receipt signed for that campaign, code and count, and nothing else; any other request changes nothing |
| TallyRecords.RecordingRecords | cloud/api/handlers_tally.go:323-345 | so the code's recorded and pending redemptions grow by exactly the count, and no other number does |
| TallyRecords.RecordedIsRequested | cloud/api/handlers_tally.go:323-345 | what is recorded after a run is what was recorded before it plus the counts of the requests that were accepted in it |
| TallyRecords.EveryRedemptionIsCounted | cloud/api/handlers_tally.go:323-513 | so in every run each accepted redemption is, once, pending, quarantined or in exactly one indexed tally |
| TallyRecords.RegistrationIsIndexed | cloud/api/handlers_tally.go:166-182 | an accepted registration adds the code locally unless its row is not written, and the chain has it with the same terms in a campaign of the account |
| TallyRecords.MigrationClears | cloud/api/store.go:434-441 | after the migration the unsigned check passes for every code, and every other row is as it was |
| TallyRuns.EventsAreFinal | cloud/api/handlers_tally.go:497-501 | no event ever changes what it recorded, and once out of the queue it keeps its period: none is in two tallies |
| TallyRuns.RedemptionsAreConserved | cloud/api/handlers_tally.go:421-501 | the redemptions recorded for a code are those pending plus those quarantined plus the counts of its tallies |
| TallyOrphans.Completes | cloud/api/handlers_tally.go:421-513 | a batch at the head of its queue that the chain accepts ends up in the rows exactly |
| TallyOrphans.OrphanIff | cloud/api/handlers_tally.go:484-517 | in every safe state a step leaves a tally of the chain without a row if and only if it is an accepted commit whose answer is lost, a stop or failure between the chain and the rows, or a settlement or a call from elsewhere in whose tree a commit_tally of the period succeeds and survives; and what has no row never gets one |
| TallyOrphans.CommittedIff | contracts/coupon-ledger/src/lib.rs:929-988 | such a call is recognised by its tree: the chain has the period afterwards and not before if and only if a commit of it survives in the tree |
| TallyOrphans.OnlyCommitsCommit | contracts/coupon-ledger/src/lib.rs:929-988 | a call other than settle brings a tally onto the chain if and only if it is the successful commit_tally of it |
| TallyOrphans.CommitFreeCallsLeaveNone | cloud/api/handlers_tally.go:586-706 | settlements whose token makes no commit of the period when it calls back, or does not call back at all, and calls from elsewhere without one, leave no such tally |
| TallyOrphans.OrphansStayOrphans | cloud/api/handlers_tally.go:491-517 | a period that the chain has and the rows do not never gets a row and never any events, in any run |
| TallyOrphans.NoOrphansIff | cloud/api/handlers_tally.go:484-517 | a run that starts without such periods ends without them if and only if none of its steps is one of those |
| TallyOrphans.ChainIsRows | cloud/api/handlers_tally.go:484-517 | without them the chain's tallies of a local code are exactly its rows and the row about to be written |
| TallyOrphans.ChainCountsOnceAndOrphans | cloud/api/handlers_tally.go:421-513 | in every run the chain counts each redemption that has left the queue once, plus exactly what the tallies without rows count |
| TallyOrphans.AnchoredOnce | cloud/api/handlers_tally.go:421-513 | so in a run without such steps every redemption is anchored once |
| TallyOrphans.AnchoredTwice | cloud/api/handlers_tally.go:484-517 | otherwise the same batch can be anchored again under any other free period, after a lost answer and after a stop before the rows are written alike, and is then twice on the chain and once in the rows |
| TallyOrphans.AutomaticCommitsAreStuck | cloud/api/handlers_tally.go:54-77 | once the automatic choice offers such a period, runs in which the code's commits rely on that choice keep the offer and give the code no further row, whatever else happens |
| TallyOrphans.LostCommitsStick | cloud/api/handlers_tally.go:54-77 | and that is where every accepted commit under an automatically chosen period leads whose answer is lost, or comes before the process stops |
| TallyOrphans.StuckCommitsAreRefused | cloud/api/handlers_tally.go:484-487 | each of these commits is refused by the chain and changes nothing |
| TallyRuns.ReconciliationCatchesUp | cloud/api/handlers_tally.go:695-706 | for a period that somebody else settled, two steps mark the row and change nothing else |
| TallyAudit.AuditTally | cloud/api/handlers_audit.go:82-247 | the handler's loops and exits compute the audit as specified, problem by problem in order |
| TallyAudit.AuditAlwaysPasses | cloud/api/handlers_audit.go:82-158 | in every state of every run the audit of every indexed tally passes at every cursor and limit and returns the count and root that the commit anchored |
| TallyPages.QueryIff | cloud/api/handlers_audit.go:24-66 | which queries are well-formed |
| TallyPages.PageIff | cloud/api/handlers_audit.go:67-223 | there is a page if and only if the named tally's rows are 1 to 10,000, all signed, add up to its count and hash to its root, the cursor is within them, and the receipts of the page are genuine |
| TallyPages.NoPageIff | cloud/api/handlers_audit.go:67-80 | nothing is found if and only if no local tally has that name or another contract is asked for |
| TallyPages.SetProblemsAreReal | cloud/api/handlers_audit.go:82-158 | the problem of a set that is named is one that the rows have |
| TallyPages.PageSays | cloud/api/handlers_audit.go:160-247 | over any rows whatever: a page carries the tally's count, which is the sum of its rows, root, number of rows and next cursor, and each receipt has signed for the count of its own row |
| TallyPages.PageShowsTheChain | cloud/api/handlers_audit.go:20-247 | in every state of every run, at every cursor and page size, the audit of an indexed tally answers with the count and the root that are on the chain |
| TallyPages.SignedCountsAddUp | cloud/api/handlers_audit.go:225-247 | a client that reads from cursor 0 to the end has seen receipts signed for exactly the announced count, over any rows whatever |
| TallyAudit.PublishedIsConvincing | cloud/api/handlers_audit.go:184-238 | over any rows whatever, a published receipt hashes to its leaf, carries a valid signature, names the campaign and code asked for, and its proof, of the shape of its place, folds to the published root |
| TallyAudit.FollowingSeesEachReceiptOnce | cloud/api/handlers_audit.go:225-238 | following next_cursor from 0 with any limit shows each receipt once, in order, each with a proof that folds to the root |
| TallyAudit.AuditsAgree | cloud/api/handlers_audit.go:225-247 | two audits of one root and total, over any rows, show the same payload at the same place, or exhibit a collision |
| Periods.ValidIff | cloud/api/handlers_tally.go:38-51 | a period is valid exactly when it is an ISO week of 1970 to 9999, or such a week followed by 01..99; never both |
| Periods.ValidWeekIff | cloud/api/handlers_tally.go:38-51 | a week is one from 1 to the last of a year from 1970 to 9999 |
| Periods.LabelReadsBack | cloud/api/handlers_tally.go:26-36 | the label of a valid period can be read back |
| Periods.LabelsAreInjective | cloud/api/handlers_tally.go:26-36 | so different valid periods have different labels |
| Periods.BatchZeroWouldClash | cloud/api/handlers_tally.go:38-46 | batch 00, which validity excludes, would have the label of its week |
| Periods.NextIsFresh | cloud/api/handlers_tally.go:54-77 | what is offered is unused, valid, in the week, and later than every period of the week in use |
| Periods.RefusedIff | cloud/api/handlers_tally.go:65-70 | a week is refused if and only if its batch 99 is in use |
| Periods.OneBatchCanExhaustAWeek | cloud/api/handlers_tally.go:68-70 | so one explicit commit of batch 99 brings about the refusal that speaks of 100 batches |
| Periods.AHundredPeriods | cloud/api/handlers_tally.go:54-77 | from an untouched week the automatic choice yields exactly 100 different, new, valid periods and then refuses |
| Amounts.FormatUnits | cloud/api/handlers_tally.go:709-729 | the steps on whole, padded remainder and trimmed zeros compute the decimal notation |
| Amounts.MatchIff | cloud/console/src/api.js:53-54 | the pattern accepts digits, optionally a dot and digits, with exactly these groups, and nothing else |
| Amounts.UnitsReadBack | cloud/console/src/api.js:51-60 | decimalToBaseUnits(formatUnits(n), 7) = n for every n >= 0; a negative amount is refused |
| Amounts.AcceptedAmountsKeepTheirValue | cloud/console/src/api.js:51-60 | whatever decimal is accepted, formatting its value and reading it again gives the same base units |
| Amounts.RoundingIsNearest | cloud/console/src/api.js:62-73 | the number of hundredths is at most half a hundredth off, and exact on whole ones |
| Amounts.DisplayReadsBack | cloud/console/src/api.js:62-73 | the displayed text without grouping is, but for the sign, the decimal of that rounding: read back as an amount it gives exactly it |
| Amounts.SameDisplayIff | cloud/console/src/api.js:62-73 | with any grouping that tells numbers apart, two amounts look the same if and only if sign and hundredths agree |
| Amounts.I128RoundTrip | sdk/go/scval.go:67-76 | scI128 accepts exactly [-2^127, 2^127 - 1], and i128ToBig undoes it |
| Amounts.PartsRoundTrip | sdk/go/scval.go:150-154 | every pair of words is the encoding of the number it decodes to |
| Idempotency.RunsAreADayApart | cloud/api/idempotency.go:71-83 | for every interleaving with crashes and sweeps, under a clock that does not go back: a later run under the same key is reserved more than 24 h after the instant on the earlier run's row |
| Idempotency.StallingShrinksTheGap | cloud/api/idempotency.go:71-77 | the bound is exact: a request that stalls d seconds before reserving shrinks the gap between the two reservations to 24 h + 1 s - d, down to none |
| Idempotency.ReplaysAreRuns | cloud/api/idempotency.go:79-107 | a replay gives status and body with which a run under the same key and request hash ended; within 24 h of a reservation no other hash is replayed |
| IdempotencySpeakers.SpeaksIff | cloud/api/idempotency.go:116-131 | a row that holds the answer of its key's last run keeps doing so through every step but one: an UPDATE that finds key and hash on a row which a later run has reserved; and that step does end it |
| IdempotencySpeakers.AlwaysSpeaksIff | cloud/api/idempotency.go:71-138 | so along a run the row of a key speaks for the key's last run at every moment if and only if no store of the key is overtaken in this way |
| IdempotencySpeakers.RowsSpeakForTheLastRunIff | cloud/api/idempotency.go:71-138 | the same from the first day on, read off the history: if and only if every stored answer was stored by the run that was then the key's last |
| IdempotencySpeakers.ReplayIsTheLastRunIff | cloud/api/idempotency.go:98-131 | each replay gives the answer that was stored last for its key, and it comes from the key's last run if and only if that store was not overtaken |
| IdempotencySpeakers.OvertakenIsLate | cloud/api/idempotency.go:116-131 | a store is overtaken only more than 24 h after its request has read the clock |
| IdempotencySpeakers.ReplayIsTheLastRun | cloud/api/idempotency.go:98-131 | so the replay comes from the last run unless some run stored its answer more than 24 h after its own instant |
| IdempotencySpeakers.LateRunsAnswerForTheLast | cloud/api/idempotency.go:119-121 | and for every delay of more than 24 h there is a run that is overtaken by exactly that much: it overwrites its successor's row, and a retry hears the old answer while the last run has not ended |
| Idempotency.AcksAreStored | cloud/api/idempotency.go:119-137 | a run is acknowledged only after its own answer has been stored |
| Idempotency.AckedIsNotBusy | cloud/api/idempotency.go:98-102 | after the acknowledgement of a key's last run nobody is told that it is in progress |
| Idempotency.NextIsGood | cloud/api/idempotency.go:71-138 | every statement of every request, every crash, sweep and tick keeps what these promises rest on |
| IdempotencyHandler.Recorder.Serve | cloud/api/idempotency.go:18-34 | the recorder keeps the first status and the concatenated body of a handler |
| IdempotencyHandler.FirstHeaderWins | cloud/api/idempotency.go:24-29 | a handler that begins with a header has that status, whatever follows |
| IdempotencyHandler.IdempotencyTable.Idempotent | cloud/api/idempotency.go:43-138 | one undisturbed request: reserve, or conflict, busy or replay; run, persist, answer, sweep |
| IdempotencyHandler.ServeIsARun | cloud/api/idempotency.go:71-138 | that request is a run of the protocol's steps: it leaves the same table, and its response is the last thing that happens |
| IdempotencyHandler.StatusIsFirst | cloud/api/idempotency.go:24-34 | read from the front: the first header decides, or 200 when something is written before it |
| IdempotencyHandler.BodyIsAll | cloud/api/idempotency.go:29-34 | the recorded body is everything written, in order |
| IdempotencyHandler.FreshIsTheHandlers | cloud/api/idempotency.go:108-138 | a request under a new key hears its handler's status, body and type, with 200 and JSON as the defaults, leaves a row that says so, and sweeps exactly the rows older than 24 h |
| IdempotencyHandler.RetriesAreReplayed | cloud/api/idempotency.go:79-107 | a retry while the row lives gets the first answer, or a conflict for other parameters, and changes nothing, whatever the handler would do now |
| IdempotencyHandler.UnstoredFailsClosed | cloud/api/idempotency.go:122-135 | a run whose record could not be stored is not run again while its row lives |
| CreditMeter.Credits.EnsureMonthlyGrant | cloud/api/meter.go:30-72 | the transaction: opening grant, top-up to the floor, or the month alone; nothing when it is rolled back |
| CreditMeter.Credits.Charge | cloud/api/meter.go:75-114 | the charge with its two transactions, either of which may fail |
| CreditMeter.ChargeReservation.CommitUsed | cloud/api/meter.go:171-190 | clamps, closes the reservation and refunds the rest |
| CreditMeter.ChargeReservation.Refund | cloud/api/meter.go:192-200 | closes the reservation and refunds all of it |
| CreditMeter.ReserveCharge | cloud/api/meter.go:155-160 | a reservation exists exactly when the charge went through, and is active exactly when something was charged |
| Meter.BooksBalance | cloud/api/meter.go:30-220 | for every run with failed transactions: the balance is the sum of the ledger's deltas and not negative, each row records its prefix sum, and balance + outstanding + kept = granted |
| Meter.CreditsAreConserved | cloud/api/meter.go:30-220 | the invariant behind it, from any state that has it |
| Meter.OnlyTheFirstCounts | cloud/api/meter.go:162-200 | of any sequence of Commit, CommitUsed and Refund only the first has an effect |
| Meter.NetDebit | cloud/api/meter.go:146-200 | the net debit of a reservation is exactly what the first of them keeps, between 0 and the reserved amount |
| Meter.ChargeIff | cloud/api/meter.go:75-114 | a charge succeeds if and only if there is nothing to pay, or both transactions commit and it is at most what the month's grant leaves on the account; it then debits exactly its amount with one row, and a refused one changes nothing beyond the grant |
| Meter.AllPaidIff | cloud/api/meter.go:75-114 | the charges of a month all succeed if and only if together they are covered |
| Meter.FirstMonth | cloud/api/meter.go:30-114 | a new account can be charged 25,000 credits in its first month, in whatever parts, and no more |
| Meter.OneTopUpAMonth | cloud/api/meter.go:57-69 | while the clock does not go back over a month there is at most one top-up in a month |
| Meter.ClockGoingBackTopsUpTwice | cloud/api/meter.go:57-69 | if it does go back and return, there can be two |
| Meter.TopUpIff | cloud/api/meter.go:30-72 | a step writes a grant row, of its own month, if and only if it asks for the grant and finds no account, or another month on record and less than the grant |
| Meter.SecondTopUpIff | cloud/api/meter.go:57-69 | whatever the clock does, a step gives a month a second top-up if and only if it tops up and the month has had one |
| Meter.OnePerMonthIff | cloud/api/meter.go:57-69 | so at the end of a run no month has two top-ups if and only if no step of it tops up a month that has had one |
| Meter.StepWithinIff | cloud/api/meter.go:27-72 | balance plus outstanding reservations stays within one grant in a step if and only if the step is no top-up while something is reserved |
| Meter.OneGrantIff | cloud/api/meter.go:27-220 | so a run stays within one grant throughout if and only if no top-up meets a reservation |
| Meter.CalmAccountsHoldOneGrant | cloud/api/meter.go:27-220 | and in such a run grants never stack: the balance never exceeds one |
| Meter.RefundsReachTheSum | cloud/api/meter.go:192-220 | otherwise they do: giving back what is reserved puts exactly balance plus outstanding on the account |
| Meter.RefundAfterTopUpStacks | cloud/api/meter.go:27-72 | for instance, a reservation refunded in the next month leaves more than one grant |
| Issuance.IssueCodes | cloud/api/handlers_campaigns.go:410-479 | checks, reservation, chunk loop and settlement of the reservation: the world, the reply and the account afterwards |
| Issuance.IssueChunks | cloud/api/handlers_campaigns.go:446-473 | the loop of chunks of 100 computes the specified progress and fails exactly when codes are left |
| Issuance.RequestErrorIff | cloud/api/handlers_campaigns.go:410-430 | which requests are turned away before anything is reserved, and for which reason |
| Issuance.AnswerSays | cloud/api/handlers_campaigns.go:446-479 | the answer is that everything is issued if and only if every call was accepted and reported, and that nothing is if and only if the first was not; otherwise it lists what is |
| Issuance.UndisturbedIssuesAllIff | cloud/api/handlers_campaigns.go:446-473 | left to itself, a request issues everything if and only if the campaign is the owner's, its supply has room, and the codes are well-formed, new and different, however many calls it takes |
| Issuance.IssuedIsAPrefix | cloud/api/handlers_campaigns.go:446-473 | the codes reported are a prefix of the request made of whole chunks, or all of it; an unreported chunk comes right after it |
| Issuance.IssuedIsOnLedger | cloud/api/handlers_campaigns.go:446-473 | each is on the chain under the reported token id, and the codes of an unreported chunk are on the chain, whatever others do in between |
| Issuance.CounterMoves | cloud/api/handlers_campaigns.go:446-473 | with nobody in between, the chain's token counter moves by exactly the codes reported plus the codes of the unreported chunk |
| Issuance.ChargedForIssued | cloud/api/handlers_campaigns.go:431-461 | when refunds succeed the request costs exactly the codes reported, and so the codes minted if and only if no call of its turns was accepted without its success coming back |
| CampaignSetup.Create | cloud/api/handlers_campaigns.go:150-201 | the create handler with its deferred CommitUsed |
| CampaignSetup.KeptForWhatWasReported | cloud/api/handlers_campaigns.go:150-201 | 20 credits are kept if and only if the creation was accepted and reported, 10 more if and only if the registration then was, and the chain has the campaign and the code with the terms asked for |
| CampaignSetup.ChargedForWhatExists | cloud/api/handlers_campaigns.go:150-201 | when the refund succeeds it costs 20 credits for each campaign and 10 for each shared code that the chain now has more if and only if no accepted call went unreported, and less otherwise |
| Loyalty.Books.HandlePunch | cloud/api/handlers_loyalty.go:305-527 | the handler under the program's lock, with its places to fail, changes rows and chain as specified |
| Loyalty.Books.Migrate | cloud/api/handlers_loyalty.go:530-556 | the merge of a legacy reference: punches, rewards and unsigned events, or nothing |
| Loyalty.MergedIs | cloud/api/handlers_loyalty.go:530-556 | two different references are merged: punches and rewards of the old one are the new one's, unsigned events are renamed, signed ones and everything else stay |
| Loyalty.AcceptedIff | cloud/api/handlers_loyalty.go:305-527 | a punch is accepted if and only if it fits, can be paid for, its vouchers, if it earns any, are issued and come back decoded, and the rows are written; the other replies say exactly which failed |
| Loyalty.RefusedBefore | cloud/api/handlers_loyalty.go:340-419 | and which requests do not fit, by reply |
| Loyalty.AcceptedRecords | cloud/api/handlers_loyalty.go:484-527 | what an accepted punch records and answers: the customer's punches so far, the vouchers that they have earned and did not have, the signed event, the event reference |
| Loyalty.HandleIsFair | cloud/api/handlers_loyalty.go:390-413 | a request leaves every customer with at most floor(punches / threshold) rewards, and the one whose punch is accepted with exactly that |
| Loyalty.NothingIsTakenBack | cloud/api/handlers_loyalty.go:406-409 | what is due is never negative, so the clamp never fires |
| Loyalty.MergeKeepsEarned | cloud/api/handlers_loyalty.go:530-556 | merging two references keeps everybody within what they have earned |
| Loyalty.ProgramsStayGood | cloud/api/handlers_loyalty.go:305-556 | after any run of punches and merges: the bound holds, recorded vouchers are on the chain, no event reference is accepted twice, and the events queued for anchoring add up to the punches |
| Loyalty.ChargedForWhatHappened | cloud/api/handlers_loyalty.go:419-515 | a request costs exactly the punches recorded and the vouchers minted if and only if no minted vouchers went unreported, less otherwise, and never more than reserved |
| Loyalty.VouchersStayInStepIff | cloud/api/handlers_loyalty.go:419-505 | a request keeps the vouchers on the chain in step with those on record if and only if it does not mint vouchers and then end unreported, undecoded or unpersisted; the difference never shrinks |
| Loyalty.InStepIff | cloud/api/handlers_loyalty.go:419-505 | after a run that starts in step they are in step if and only if no visit was such a one |
| Loyalty.CarefulRunsAreBoundedOnChain | cloud/api/handlers_loyalty.go:390-505 | along such runs the vouchers on the chain are exactly those on record, and at most floor(all punches / threshold) |
| Loyalty.LostVouchersAreIssuedAgain | cloud/api/handlers_loyalty.go:419-505 | after any of the three exits the retry mints as many vouchers again |

## Left out

- Storage lifetimes, the `bump_*` entry points, events and logging: they change no logical state; entries are taken not to expire.
- Cryptography: SHA-256 of payloads and pairs is an arbitrary function, a signature is a fact that is true or false, opaque references and random codes are inputs.
- JSON, HTTP, SQL text, sessions, XDR and the RPC client: a table is a map or a sequence with its key constraints, and a chain call is one atomic step whose answer may be lost.
- Strings are sequences of characters, each counted as one byte; trimming, upper-casing and Unicode are done before the model begins.
- CouponLedgerContract.CouponLedger.Invoke: the storage is one field holding a record of maps, one per kind of key, rather than separate entries; authorisation is the set of addresses that signed the call.
- LedgerExec: the payout token acts through its answers and its calls back; a contract that such a token calls, and that calls back in turn, is one of these calls.
- LedgerMoney.HonestSettleIff: the token's allowance and balance are taken at the call; allowances that expire by ledger number are not modelled, so an approval here lasts until it is spent or replaced.
- TallySafety.SettleAnchors: an error code that the payout token itself raises is a trap here; the service's reading of such a code out of a failed transaction is not modelled.
- TallyRecords.EventBook.RecordEvents: hashing of references, the length checks of the optional fields, evidence and location; a receipt is its signed payload.
- Tallies committed before receipts were signed: the model starts from rows without committed tallies, so the audit's answer for such tallies is in `TallyAudit.AuditTally` but not in the theorems about runs.
- Registering a further shared code: the chain call and the row are a step of the pipeline (`TallyRecords.RegistrationIsIndexed`), the handler's checks and charge are those of `CampaignSetup`.
- Rewriting of plain order references into hashed ones during the security migration: only the quarantine of unsigned rows is modelled.
- Requests without an idempotency key, malformed keys and oversized bodies: they are run or refused before the protocol begins.
- The order of the attribution map on the wire: it has at most one useful entry.
- Calendar computation: the number of ISO weeks of a year is a parameter, as is the current week.
- The locale's grouping of thousands is any function; the console's rounding of credits is not modelled.
- TallyService.Service.CommitTally: waiting for an account's lock is an immediate answer.
- TallyService.Service.Settle: the approval is an amount that is handed out and may fail; that the token honours it is the subject of `LedgerMoney`.
- TallyAudit.AuditTally: the rows are those of the current deployment, so an audit of the previous one finds nothing.
- Idempotency.RunsAreADayApart: the wall clock does not go back.
- Meter.BooksBalance: amounts are unbounded integers, where the service has 64 bits; a transaction either takes effect and reports it, or neither.
- Issuance.IssueCodes: normalising and generating codes, the local rows of codes and the local `minted` mirror, which the partial path does not update.
- Loyalty.Books.HandlePunch: the chain is a list of voucher codes to which a batch is added or not, and the events queued for anchoring are a list of the program's own; that issuance and anchoring go through the contract and the tally rows is shown for `Issuance` and `TallyPipeline`, not again here.
- The console, the scanner, the web site, the generated TypeScript client, account funding and QR images.
