# AXEL: a verified model of the revenue ledger and its backend

AXEL pays car income to share holders from an on-chain accumulator. A backend collects the
car's days, appends them to a hash chain on-chain, co-signs deposits that pay out published
reports, indexes the program's events and publishes the data; a seed executor fills a cluster
with a demo plan. These files model those parts in Dafny and prove what they keep over whole
runs: with crashes between any two steps, transactions whose outcome is unknown, and other
actors moving in between.

`dafny verify dfyconfig.toml` checks everything.

## What is modelled

**Ledger** (`Program`, `Solvency`, `Instructions`, `Payouts`, `ProjectCheck`, `Sums`). `Program` is the
on-chain program `axel_v2` as a state machine over its instructions: positions, share
accounts, vault, escrow, and the events each instruction writes. `Solvency` proves its
invariant for every run, with entitlements scaled by 2^64 so that every floor is accounted
for. `Instructions` says of every reachable state exactly when each instruction is accepted and
what it moves. `Payouts` is the replay of one wallet from its indexed events, and `ProjectCheck` the
checker of I1 to I5; both are loops, tied to the ledger of all wallets.

**Telemetry** (`HashChain`, `TelemetryStore`, `TelemetryProtocol`, `TelemetrySafety`,
`TelemetryTheorems`, `TelemetryService`, `TelemetryProgress`). The oracle's append protocol: a batch is recorded,
sent, then confirmed, abandoned or left pending, and reconciled later. Chain, store,
transaction in flight and memory are one state. The service's methods are runs of that
protocol.

**Deposits** (`DepositStore`, `Attestation`, `AttestationSafety`, `AttestationTheorems`,
`AttestationService`, `AttestationProgress`, `KeyedQueue`). Attested deposits and drafts, checked against the chain
and the store, signed, saved, and landing or expiring at any time. Between the checks of a
request and its save the network moves freely; requests for one car run one at a time, which
is what `KeyedQueue` proves of the queue.

**Indexer** (`ProgramLogs`, `IndexerStore`, `IndexerProtocol`, `IndexerTheorems`,
`IndexerService`, `IndexerScheduler`). Paging, cursor, storing, the adoption of a cluster; the
log parser against a printer of call trees; and when syncs start, wait and stop.

**Publication** (`Published`, `Reports`, `CanonicalJson`, `CanonicalText`,
`CanonicalTheorems`, `Differences`).
Month files and their verifier, reports as segments of the chain, the canonical text of a
record (RFC 8785), and the comparison of a stated report with the rebuilt one.

**Executor** (`Executor`, `ExecutorTheorems`, `ExecutorService`, `ExecutorProgress`) and **algorithms** (`Dates`,
`IsoDates`, `Decimals`, `Allocate`, `Collector`). The `Progress` modules prove that no protocol gets
stuck: whatever happened, some further run reaches the goal.

Hashes are parameters. A theorem that needs one to be collision-free says so in its
`requires`; dates are the `YYYYMMDD` integers of the program, and `IsoDates` proves that the
texts the backend stores convert to them and back in the same order. `Wrappers` and `Signatures`
are helpers.

## What is assumed of the environment

- A transaction lands at most once and never past its last valid block; a deposit lands only
  at the period index it was built for. (Only deposits with a plain recent blockhash are
  co-signed, since their transactions hold nothing but compute budget and the deposit.)
- The backend is the only writer of a project's telemetry, and only it holds the oracle key it
  co-signs with. `TelemetryTheorems.DivergedIffForeign` says what happens otherwise.
- A database transaction happens whole or not at all.
- What a node says of a transaction's status is true. That a send is reported as expired only
  of a batch that did not land, and that a step's send throws only when its transaction cannot
  land any more, are conditions on the run (`TelemetryProtocol.HonestRun`,
  `Executor.HonestRun`), since the client library promises no more than that an expired
  transaction can no longer land. `TelemetryTheorems.SettlingIsSafeIff` and
  `ExecutorTheorems.ForgettingIsSafeIff` show that neither can be weakened.
- One `reconcile`, and the checks of one deposit request, read the chain at one moment.
  `TelemetryTheorems.SplitReadsAreSafeIff` and `AttestationTheorems.SplitChecksAreSafeIff`
  give the exact conditions without that.
- Nodes list prefixes of the program's history. `IndexerTheorems.AGapIsPassed` shows why.

## Where the code does less than it says

Each of these has a theorem with the exact condition and one with a concrete input.

- I4 of the checker calls the escrow equal to open purchases, but anyone can send tokens to
  it: it holds exactly when nobody did (`ProjectCheck.RunPassesTheCheck`,
  `ProjectCheck.DonationBreaksI4`).
- `reconcile` reads the project before the block height. A batch that lands between the two
  reads and expires by the second goes back to unsubmitted although it is on-chain
  (`TelemetryTheorems.SplitReadsAreSafeIff`, `TelemetryTheorems.SplitReadsCanLoseABatch`).
- A send reported as expired is abandoned without another look. That is right exactly when the
  batch has not landed (`TelemetryTheorems.SettlingIsSafeIff`,
  `TelemetryTheorems.FalseExpiryLosesABatch`).
- "Nothing after the car's sale" needs attested deposits to name the next period. `attest`
  also signs for a later index, and that deposit can land after the final one
  (`AttestationTheorems.NothingAfterTheSale`, `AttestationTheorems.DepositCanFollowSaleIff`,
  `AttestationTheorems.ADepositCanFollowTheSale`).
- The executor forgets a step when sending it throws. After a lost answer of a node that did
  take the transaction, a later run can land the step twice
  (`ExecutorTheorems.ForgettingIsSafeIff`, `ExecutorTheorems.LostAnswerLandsTwice`). Its lookup
  of an earlier run's transaction has the race of `reconcile`
  (`ExecutorTheorems.SettleReportsTrulyIff`, `ExecutorTheorems.LandsBetweenTheReads`).
- A second step can be pending when runs select different phases: a run looks at a pending step
  only when it comes to it, so it signs another if the pending one is not selected or an
  untouched one comes first (`ExecutorTheorems.OnePendingIff`,
  `ExecutorTheorems.TwoSelectionsTwoPending`).
- The indexer adopts an empty database with two writes. A process that dies between them
  leaves one that every later run halts on (`IndexerTheorems.TakesASourceIff`,
  `IndexerTheorems.HalfWrittenStateHalts`).
- A program that logs `success` or `invoke [n]` misleads the log parser
  (`ProgramLogs.LogLineIsInertIff`, `ProgramLogs.SuccessMessageLosesARecord`).
- A field `__proto__` is compared with `Object.prototype` where the other side lacks it, and
  goes unnoticed with a value that looks like it (`Differences.AgreeIffSame`,
  `Differences.BacksIffSubTree`, `Differences.ProtoHidesADifference`).
- Published files do not verify while a landed batch is not confirmed yet
  (`Published.PublishedDataVerifiesIff`, `Published.LandedDayIsMissed`).
- Collected days have a gap once a car was not collected for more than a month
  (`Collector.StaysGapFreeIff`, `Collector.AMonthLater`); the collector documents this limit.

## Model

| member | source | states |
|---|---|---|
| `Solvency.RunKeeps` | programs/axel-v2/src/instructions/deposit_revenue.rs:92-170 | every run of any instructions from `create_project` keeps the ledger invariant: checkpoints at or behind the accumulator, positions summing to sold - refunded - retired = mint supply, claims within net deposits, the vault covering them, every thawed canonical account equal to its position, the escrow covering open purchases |
| `Solvency.RunIsSolvent` | scripts/seed-devnet/verify-invariants.ts:108-117 | in any run, total pending <= deposited net - claimed <= vault, and the part of it no holder can claim is below one base unit per deposit, settlement and open position |
| `Solvency.SurplusIsDust` | scripts/seed-devnet/verify-invariants.ts:108-117 | the same bound in any state that satisfies the invariant |
| `Solvency.ClaimAlwaysPays` | programs/axel-v2/src/instructions/claim.rs:63-115 | in any run after activation, a wallet with something pending and not frozen by the payment token always can claim, is paid exactly its pending amount, and the vault still covers everyone else; no overflow check can stop it |
| `Solvency.SettleNeverFails` | programs/axel-v2/src/math.rs:77-99 | in any reachable state settling a position cannot overflow: owed and accrued stay below 2^64 and the product below 2^128 |
| `Solvency.ExecuteKeeps` | programs/axel-v2/src/instructions/mod.rs:1-39 | each accepted instruction keeps the invariant |
| `Solvency.DepositKeeps` | programs/axel-v2/src/instructions/deposit_revenue.rs:92-170 | a deposit raises the accumulator by a floor, so what it owes never exceeds what it paid in |
| `Solvency.DepositWeights` | programs/axel-v2/src/math.rs:103-115 | raising the accumulator by one step raises the total 2^64-scaled entitlement by the step times the outstanding shares |
| `Solvency.BuyKeeps` | programs/axel-v2/src/instructions/buy_shares.rs:84-180 | a purchase keeps the invariant: shares, supply, account and escrow move together |
| `Solvency.RefundKeeps` | programs/axel-v2/src/instructions/refund.rs:76-145 | a refund keeps the invariant: the escrow still covers the other buyers |
| `Solvency.ActivateKeeps` | programs/axel-v2/src/instructions/activate_project.rs:77-131 | activation empties the escrow and keeps the invariant |
| `Solvency.TransferKeeps` | programs/axel-v2/src/instructions/execute.rs:62-150 | a transfer through the hook settles both sides, conserves shares and keeps the invariant, also to oneself |
| `Solvency.ClaimKeeps` | programs/axel-v2/src/instructions/claim.rs:63-115 | a claim moves exactly the settled amount out of accrued, vault and unclaimed |
| `Solvency.ClosePositionKeeps` | programs/axel-v2/src/instructions/close_position.rs:55-110 | closing retires the position's shares and loses nothing that is owed |
| `Solvency.RecoverKeeps` | programs/axel-v2/src/instructions/execute_recovery.rs:108-161 | a recovery moves shares and a pro rata part of the accrued amount between two owners and keeps the invariant |
| `Instructions.RunIsSound` | programs/axel-v2/src/instructions/mod.rs:1-39 | every state a run reaches satisfies what the following rows assume |
| `Instructions.OpenIff` | programs/axel-v2/src/instructions/open_position.rs:60-95 | in every reachable state a position can be opened exactly while the raise or the operation is on; a new one starts empty at the accumulator, an open one stays as it is |
| `Instructions.BuyIff` | programs/axel-v2/src/instructions/buy_shares.rs:84-180 | shares are sold exactly while the raise is on and enough are left; the buyer gets them, the escrow their price and nobody else moves; selling the last one funds the raise |
| `Instructions.RefundIff` | programs/axel-v2/src/instructions/refund.rs:76-145 | after a failed raise every holder not frozen can take back the price of all their shares; no consistency check can stop it |
| `Instructions.ActivateIff` | programs/axel-v2/src/instructions/activate_project.rs:77-131 | a funded project can always be activated, and only phase and escrow change |
| `Instructions.DepositIff` | programs/axel-v2/src/instructions/deposit_revenue.rs:92-170 | in every reachable state a deposit is taken exactly while the project operates, somebody holds shares and the net total fits; read off the state: fee = gross - net is the largest whole part within the basis points, the vault gains net, the accumulator the most per share that net covers, and the event says so |
| `Instructions.TransferIff` | programs/axel-v2/src/instructions/execute.rs:62-150 | shares move exactly between open positions with thawed accounts and no more than the sender has; what anybody is owed stays the same |
| `Instructions.ClaimIff` | programs/axel-v2/src/instructions/claim.rs:63-115 | a claim is taken exactly from a wallet not frozen with something pending after activation, pays all of it and leaves nothing pending |
| `Instructions.ClosePositionIff` | programs/axel-v2/src/instructions/close_position.rs:55-110 | a position can be closed exactly when nothing is owed to it and it is empty or the project closed; its shares are retired |
| `Instructions.RecoverIff` | programs/axel-v2/src/instructions/execute_recovery.rs:108-161 | a recovery is possible exactly for shares a wallet not frozen holds; the other owner gets them and the pro rata part of what was owed, rounded down |
| `Instructions.LeavesPhaseIff` | programs/axel-v2/src/instructions/finalize_raise.rs:23-58 | a phase is left only for one that can follow it and only by the instruction for it, or by selling the last share |
| `Instructions.PhaseStepIff` | programs/axel-v2/src/instructions/manage_project.rs:28-125 | each administrative step is possible exactly from the phases it is for, and changes the phase alone |
| `Instructions.RevenueOnlyGrows` | programs/axel-v2/src/instructions/deposit_revenue.rs:92-170 | net deposits, claims and accumulator never fall; only a deposit raises the first and last, only a claim the second, and only a claim lowers the vault |
| `Instructions.OthersTakeNothing` | programs/axel-v2/src/instructions/mod.rs:1-39 | what others do around the program (donations, accounts made or closed, wallets frozen) changes no position, balance or right to claim of anybody else |
| `Payouts.ReplayPosition` | backend/src/indexer/payouts.ts:83-190 | the replay loop computes exactly the fold of the event steps, with its periods and claims lists |
| `Payouts.SelectionIsEnough` | backend/src/indexer/indexer.store.ts:217-234 | replaying only the rows `positionEvents` selects gives the same result as replaying every row of the project |
| `Payouts.LogFollows` | backend/src/indexer/payouts.ts:83-176 | along any run of the program the replay of one wallet agrees with its on-chain position, and its listed earnings explain what it got |
| `Payouts.ReplayIsThePosition` | backend/src/indexer/payouts.ts:76-190 | for every run and every table that interleaves other projects' events: the replay of the selected rows equals the wallet's entry in the ledger of all wallets (shares, accrued, checkpoint, claimed) and `pending` is what a claim pays |
| `Payouts.ListsAreTheRows` | backend/src/indexer/payouts.ts:107-165 | the lists of a replay are the rows of its log, in order: each of the wallet's claims, which add up to what it was paid, and each deposit made while it held shares, with its part rounded down |
| `Payouts.MintIsTheProjects` | backend/src/indexer/payouts.ts:100-106 | a replay shows the share mint of the project's creation |
| `Payouts.DepositRow` | backend/src/indexer/payouts.ts:107-126 | a deposit row lists the deposit exactly while the wallet holds shares, and the listed earning loses at most one base unit of what the wallet gains |
| `Payouts.PeriodsExplainPayouts` | backend/src/indexer/payouts.ts:107-126 | claimed + pending - recovered amounts minus the sum of the listed per-deposit earnings is between 0 and the number of deposits listed, however transfers and claims interleave |
| `Payouts.RecoverFollows` | backend/src/indexer/payouts.ts:167-174 | both sides of a recovery replay to the on-chain positions, including the account a recovery opens |
| `Payouts.TransferFollows` | backend/src/indexer/payouts.ts:145-151 | both sides of a transfer replay to the on-chain positions |
| `ProjectCheck.CheckProject` | scripts/seed-devnet/verify-invariants.ts:103-185 | the checker reports each of I1-I5 as ok exactly when it holds of the snapshot, with the owed sum, the surplus and the number of holders |
| `ProjectCheck.UnbackedPositions` | scripts/seed-devnet/verify-invariants.ts:133-140 | finds nothing exactly when every position has its thawed canonical account with the same amount |
| `ProjectCheck.UnownedAccounts` | scripts/seed-devnet/verify-invariants.ts:141-152 | finds nothing exactly when frozen accounts are empty and thawed ones are canonical accounts of positions |
| `ProjectCheck.ByAddress` | scripts/seed-devnet/verify-invariants.ts:131 | the index by address finds an account exactly when one is listed, the last one if several are |
| `ProjectCheck.RunPassesTheCheck` | scripts/seed-devnet/verify-invariants.ts:103-172 | of any snapshot of any reachable state the checker finds I1, I2, I3 and I5 to hold, and I4 exactly when the escrow is closed or nobody sent it tokens outside of a purchase |
| `ProjectCheck.VerdictsAreExact` | scripts/seed-devnet/verify-invariants.ts:103-185 | in any state of the ledger, reachable or not, each verdict is about the ledger itself: what all positions are owed, their shares against supply and sales, their accounts, the price of what was sold, their checkpoints |
| `ProjectCheck.LastAtAddress` | scripts/seed-devnet/verify-invariants.ts:131 | the index by address holds the last account listed at each address |
| `ProjectCheck.HoldersAreCounted` | scripts/seed-devnet/verify-invariants.ts:178 | the number of holders is that of the positions with shares |
| `ProjectCheck.DonationBreaksI4` | scripts/seed-devnet/verify-invariants.ts:156-167 | one unit sent to the escrow makes the checker report I4 |
| `TelemetryTheorems.ChainIsTheStore` | backend/src/telemetry/telemetry-chain.service.ts:71-236 | after any run with crashes anywhere and any truly reported send outcomes, the chain past the adopted tip is the confirmed days or those followed by the whole pending batch; each day once, in date order, at its position and with its heads |
| `TelemetryTheorems.AtMostOnePending` | backend/src/telemetry/telemetry-chain.service.ts:86-108 | at most one batch is pending |
| `TelemetryTheorems.ReconcileIsExact` | backend/src/telemetry/telemetry-chain.service.ts:81-115 | the single writer never sees its chain diverged; `in_sync` means the confirmed days are the chain's and nothing is pending; `pending` changes nothing |
| `TelemetryTheorems.SettlingIsSafeIff` | backend/src/telemetry/telemetry-chain.service.ts:210-236 | settling a batch by what its send is reported to have done keeps store and chain in step if and only if the report is true; an expiry with the height past the last valid block is true if and only if the batch has not landed |
| `TelemetryTheorems.FalseExpiryLosesABatch` | backend/src/solana/solana.service.ts:81-102 | a concrete state in which a send reported as expired loses a day that has landed |
| `TelemetryTheorems.SplitReadsAreSafeIff` | backend/src/telemetry/telemetry-chain.service.ts:82-105 | with the project read before the block height and any network steps between, reconcile keeps the store true if and only if the pending batch did not land between the reads and expire by the second |
| `TelemetryTheorems.SplitReadsCanLoseABatch` | backend/src/telemetry/telemetry-chain.service.ts:82-105 | a concrete run in which a landed day goes back to unsubmitted |
| `TelemetryTheorems.DivergedIffForeign` | backend/src/telemetry/telemetry-chain.service.ts:93-114 | whoever wrote the chain: with a collision-free step `diverged` means exactly that the chain holds neither the stored days nor those without the pending batch, and a batch is settled exactly by whether its days are on it |
| `TelemetryProgress.EveryDayCanBeWritten` | backend/src/telemetry/telemetry-chain.service.ts:81-236 | from any state that any honest run, crash, failure or expiry leaves, some further honest run puts every stored day later than the chain's last on the chain under its own hash and confirms it: nothing the store remembers blocks a day for good |
| `TelemetryProgress.Plans` | backend/src/telemetry/telemetry-chain.service.ts:155-176 | with nothing pending a sync plans exactly the days not submitted that come after the chain's last |
| `TelemetryTheorems.BatchLandsIff` | programs/axel-v2/src/instructions/record_telemetry.rs:42-87 | a batch lands exactly while its blockhash is valid, on a project that records for this oracle, with 1 to 20 real days going forwards from the last one; it then extends the chain by exactly its days |
| `TelemetryTheorems.BatchesFit` | backend/src/telemetry/telemetry-chain.service.ts:155-164 | in any run no transaction carries more days than the program takes, or none |
| `TelemetryTheorems.PendingBatchIsAccepted` | backend/src/telemetry/telemetry-chain.service.ts:178-209 | in any honest run the program would take the pending batch while its blockhash is valid: its days never collide with the chain |
| `TelemetryTheorems.SendIsSettledAs` | backend/src/telemetry/telemetry-chain.service.ts:211-235 | a reported send writes exactly its outcome: confirmed days with their time, or a failed or expired row and its days given back, or nothing when the outcome is unknown; all other rows stay |
| `TelemetryTheorems.ReconcileSettlesAs` | backend/src/telemetry/telemetry-chain.service.ts:81-115 | reconcile confirms the pending batch exactly when it landed, gives its days back exactly when it cannot land any more, and otherwise changes nothing |
| `TelemetrySafety.RunKeeps` | backend/src/telemetry/telemetry-chain.service.ts:81-236 | the invariant of store, chain, in-flight transaction and memory holds after every run |
| `TelemetrySafety.RecordKeeps` | backend/src/telemetry/telemetry-chain.service.ts:178-209 | recording a planned batch is never refused and its days follow the confirmed ones |
| `TelemetrySafety.BatchIsRecorded` | backend/src/telemetry/telemetry.store.ts:263-289 | in any safe state a planned batch finds all its days unsubmitted |
| `TelemetrySafety.ConfirmKeeps` | backend/src/telemetry/telemetry.store.ts:291-300 | confirming a landed batch makes all its days confirmed and none pending |
| `TelemetrySafety.AbandonKeeps` | backend/src/telemetry/telemetry.store.ts:303-316 | abandoning a batch that cannot land gives back exactly its days |
| `TelemetrySafety.ReconcileKeeps` | backend/src/telemetry/telemetry-chain.service.ts:81-115 | reconcile from one snapshot keeps the invariant, and its answer says whether a batch is still pending |
| `TelemetrySafety.BatchEnds` | backend/src/telemetry/telemetry.store.ts:253-260 | links in chain order give the first and the last day of the batch |
| `TelemetrySafety.ConfirmedTipIsLast` | backend/src/telemetry/telemetry.store.ts:204-212 | the newest confirmed link is the last confirmed day, at its position and head |
| `TelemetrySafety.PlanContinues` | backend/src/telemetry/telemetry-chain.service.ts:169-176 | the links planned after a tip are the links of the whole chain at those places |
| `TelemetrySafety.LinkedAll` | backend/src/telemetry/telemetry.store.ts:273-288 | linking distinct unsubmitted days never fails and changes nothing but their links |
| `TelemetryService.TelemetryChainService.ReconcileNow` | backend/src/telemetry/telemetry-chain.service.ts:81-115 | the method computes the reconcile step of the protocol on store and view |
| `TelemetryService.TelemetryChainService.SettlePending` | backend/src/telemetry/telemetry-chain.service.ts:89-108 | a pending batch is confirmed, kept, abandoned or found diverged by its first and last link, the tip and the height |
| `TelemetryService.TelemetryChainService.Plan` | backend/src/telemetry/telemetry-chain.service.ts:169-176 | positions and heads of the days appended after the tip |
| `TelemetryService.TelemetryChainService.WriteBatch` | backend/src/telemetry/telemetry-chain.service.ts:178-236 | one batch is a run of the protocol whatever the send reports and wherever the process dies; a confirmed one has extended the chain by its days |
| `TelemetryService.TelemetryChainService.SendBatch` | backend/src/telemetry/telemetry-chain.service.ts:178-213 | the batch is recorded before it is sent, and store and chain are in step with it pending whatever was reported |
| `TelemetryService.TelemetryChainService.WriteDays` | backend/src/telemetry/telemetry-chain.service.ts:155-164 | batch by batch, the written days are on the chain in order |
| `TelemetryService.TelemetryChainService.SyncNow` | backend/src/telemetry/telemetry-chain.service.ts:124-166 | every sync is a run of the protocol; one that ends in sync has appended exactly the collected days later than the chain's last, all confirmed; every other answer is explained by the chain read, by a pending batch, or by a send that failed or expired |
| `TelemetryService.Network.SendAndConfirm` | backend/src/solana/solana.service.ts:85-102 | a confirmation or failure is reported only of a transaction with that status; an expiry is passed on as the client concluded it |
| `TelemetryService.OneOrder` | backend/src/telemetry/telemetry.store.ts:215-223 | there is one way to list the unsubmitted days in order |
| `TelemetryService.ReconciledIs` | backend/src/telemetry/telemetry-chain.service.ts:81-115 | whichever pending row and order of equal positions the queries return, reconcile answers the same |
| `TelemetryStore.Store.SaveDay` | backend/src/telemetry/telemetry.store.ts:123-142 | a stored day never changes |
| `TelemetryStore.Store.PendingSubmission` | backend/src/telemetry/telemetry.store.ts:236-250 | a pending submission if there is one |
| `TelemetryStore.Store.SubmissionLinks` | backend/src/telemetry/telemetry.store.ts:253-260 | the batch's days in chain order |
| `TelemetryStore.Store.ConfirmedTip` | backend/src/telemetry/telemetry.store.ts:204-212 | the newest confirmed day, or none |
| `TelemetryStore.Store.ConfirmedChain` | backend/src/telemetry/telemetry.store.ts:193-201 | exactly the confirmed days, in chain order |
| `TelemetryStore.Store.UnsubmittedAfter` | backend/src/telemetry/telemetry.store.ts:215-223 | exactly the unsubmitted days after a date, in date order |
| `TelemetryStore.Store.DaysBetween` | backend/src/telemetry/telemetry.store.ts:170-179 | the first `limit` stored days of the range |
| `TelemetryStore.Store.RecordSubmission` | backend/src/telemetry/telemetry.store.ts:263-289 | all links and the pending row, or nothing when a day is not unsubmitted |
| `TelemetryStore.Store.ConfirmSubmission` | backend/src/telemetry/telemetry.store.ts:291-300 | outcome and all days of the batch |
| `TelemetryStore.Store.AbandonSubmission` | backend/src/telemetry/telemetry.store.ts:303-316 | outcome, and the links of exactly the batch's days removed |
| `HashChain.HeadConcat` | backend/src/telemetry/day-record.ts:93-102 | folding the chain step over two stretches one after the other |
| `HashChain.HeadCommits` | backend/src/telemetry/day-record.ts:93-102 | with a collision-free step a head commits to every day before it, in order |
| `AttestationTheorems.CoSignedDepositsAreDisjoint` | backend/src/reports/attestation.service.ts:476-542 | over any interleaving of attest and draft requests, landings, failures, expiries and deposits of other oracles: no two co-signed deposits on-chain pay for the same day, nor for a day of a period that was there before |
| `AttestationTheorems.DepositPaysItsReport` | backend/src/reports/attestation.service.ts:442-474 | a co-signed deposit on-chain pays exactly the income of a published report, for its days, under its hash and kind |
| `AttestationTheorems.NothingAfterTheSale` | backend/src/reports/attestation.service.ts:476-499 | if every attested deposit was built for the next period when it was checked, no co-signed deposit lands after a final one |
| `AttestationTheorems.DepositCanFollowSaleIff` | backend/src/reports/attestation.service.ts:222-226 | after a sale, some run puts another co-signed deposit on-chain if and only if an unexpired one is out for this or a later index |
| `AttestationTheorems.ADepositCanFollowTheSale` | backend/src/reports/attestation.service.ts:222-226 | the run in which a deposit attested for a later index lands after the final one |
| `AttestationTheorems.RunKeeps` | backend/src/reports/attestation.service.ts:205-309 | every run keeps the co-signing invariant |
| `AttestationTheorems.RunKeepsSaleLast` | backend/src/reports/attestation.service.ts:476-499 | with next-index signing, no transaction out there can land past a sale |
| `AttestationTheorems.NothingMoreLands` | backend/src/reports/attestation.service.ts:494-499 | once a sale is on-chain nothing more is co-signed |
| `AttestationTheorems.CoSignedIff` | backend/src/reports/attestation.service.ts:210-226 | exactly what is co-signed, by days: the rebuilt report and its deposit, while no period is final or shares a day, and no attested deposit or draft whose report is final or shares a day may still pay |
| `AttestationTheorems.RequestIsCoSigned` | backend/src/reports/attestation.service.ts:210-309 | what may be co-signed is saved with its report |
| `AttestationTheorems.RunIsReal` | programs/axel-v2/src/instructions/deposit_revenue.rs:92-106 | in every run all periods and reports run forwards, which the row above assumes |
| `AttestationTheorems.ExcludesIff` | backend/src/reports/reports.store.ts:218-227 | a stored report is in the way exactly when it is final or shares a day |
| `AttestationTheorems.LandsIff` | programs/axel-v2/src/instructions/deposit_revenue.rs:92-170 | a deposit lands exactly while its blockhash is valid, at its period index, on an operating project of this oracle, and is then the newest period |
| `AttestationTheorems.FailsForGood` | backend/src/reports/attestation.service.ts:506-527 | a co-signed deposit may fail at any time until it lands, and then never lands: the adversary the theorems above stand up to |
| `AttestationProgress.EveryReportCanBePaid` | backend/src/reports/attestation.service.ts:205-309 | from any state of any run, some further run co-signs a report for days that no period has paid and lands its deposit, which pays all of it: only a sale or a shared day can be in the way for good |
| `AttestationSafety.CheckedApart` | backend/src/reports/attestation.service.ts:485-542 | a transaction for days of the report that passes the checks, read at one moment, is dead or built for the same index |
| `AttestationTheorems.SplitChecksAreSafeIff` | backend/src/reports/attestation.service.ts:485-549 | with periods, statuses and blockhashes read one after another and any network steps between, a transaction for days of the report that passes the checks is out of the way if and only if it did not land after the periods were read |
| `AttestationSafety.CheckKeeps` | backend/src/reports/attestation.service.ts:210-226 | an accepted request may be signed, whatever lands before it is saved |
| `AttestationSafety.SaveKeeps` | backend/src/reports/reports.store.ts:135-176 | saving before answering keeps every transaction out there known to the checks |
| `AttestationSafety.MoveKeeps` | backend/src/reports/attestation.service.ts:476-542 | no landing, failure, expiry or foreign deposit breaks the invariant |
| `AttestationService.AttestationService.CheckOverlaps` | backend/src/reports/attestation.service.ts:485-542 | passes exactly when nothing overlapping is on-chain or can still land; a refusal names the first period, attestation or draft in the way, with what the node says of it |
| `AttestationService.RefusedForADay` | backend/src/reports/attestation.service.ts:485-549 | every refusal for an overlap comes with a shared day or a final report, on-chain or of a deposit or draft that landed or may still pay |
| `AttestationService.AttestationService.CheckAttestations` | backend/src/reports/attestation.service.ts:506-527 | the loop over attestations |
| `AttestationService.AttestationService.CheckDrafts` | backend/src/reports/attestation.service.ts:529-541 | the loop over drafts of the next index |
| `AttestationService.AttestationService.AttestDeposit` | backend/src/reports/attestation.service.ts:210-250 | co-signs exactly the requests that may be, and is then the check, whatever happens meanwhile, and the save |
| `AttestationService.AttestationService.DraftDeposit` | backend/src/reports/attestation.service.ts:265-309 | the same for a draft, at the next index |
| `DepositStore.ReportsStore.SaveAttested` | backend/src/reports/reports.store.ts:136-154 | report once per hash, attestation once per signature |
| `DepositStore.ReportsStore.SaveDraft` | backend/src/reports/reports.store.ts:157-176 | report and draft, or nothing when the draft exists |
| `DepositStore.ReportsStore.ConflictingAttestations` | backend/src/reports/reports.store.ts:218-227 | exactly the attestations whose report overlaps or is final |
| `DepositStore.ReportsStore.ConflictingDrafts` | backend/src/reports/reports.store.ts:230-239 | exactly the drafts whose report overlaps or is final |
| `KeyedQueue.OneAtATime` | backend/src/common/keyed-serial-queue.ts:9-24 | tasks of one key never overlap, and start in the order they were given |
| `KeyedQueue.NeverStuck` | backend/src/common/keyed-serial-queue.ts:9-24 | the oldest unsettled task of a key runs or may start, whatever other keys do |
| `KeyedQueue.NothingLeaks` | backend/src/common/keyed-serial-queue.ts:18-22 | an entry belongs to the newest task of its key and goes when that settles |
| `KeyedQueue.RunsInTurn` | backend/src/common/keyed-serial-queue.ts:9-24 | in any run a task starts exactly when all earlier tasks of its key have settled, and waits for no others |
| `KeyedQueue.KeyedSerialQueue.Enqueue` | backend/src/common/keyed-serial-queue.ts:9-17 | queues behind the tail and becomes the tail |
| `KeyedQueue.KeyedSerialQueue.Unlink` | backend/src/common/keyed-serial-queue.ts:18-22 | deletes the entry only while the task is still the tail |
| `IndexerTheorems.IndexIsAPrefix` | backend/src/indexer/indexer.service.ts:257-323 | while nodes list prefixes of the history: under paging, errors, crashes and a forgotten `until`, what is stored is a prefix of one history, each transaction once and whole, its events in chain order, and everything at or before the cursor is stored |
| `IndexerTheorems.FinishedSyncIsComplete` | backend/src/indexer/indexer.service.ts:262-283 | a sync without an error stores everything its first listing showed |
| `IndexerTheorems.PagesAreASlice` | backend/src/indexer/indexer.service.ts:308-323 | the pages of one listing, however views change between them, are a contiguous part of the history that leaves no gap after the cursor |
| `IndexerTheorems.PageIsASlice` | backend/src/testing/fake-ledger.ts:161-188 | what one page holds |
| `IndexerTheorems.RecordKeeps` | backend/src/indexer/indexer.store.ts:126-162 | storing the next transaction extends the prefix by one, events included |
| `IndexerTheorems.StoredEventsAreTheProgramsOwn` | backend/src/indexer/indexer.service.ts:364-384 | in any run the events stored of a transaction are the records the program itself wrote, in order |
| `IndexerTheorems.EventIdsFollowTheChain` | backend/src/indexer/indexer.store.ts:217-234 | ordering rows by id orders events by transaction and place in it |
| `IndexerTheorems.StoredAsItHappened` | backend/src/indexer/indexer.service.ts:325-362 | in any honest run every stored transaction has the slot and outcome it has on-chain, and one that failed has no record, no truncation mark and no event row |
| `IndexerTheorems.EveryEventHasItsRow` | backend/src/indexer/indexer.store.ts:132-159 | every event of a stored transaction has its row, at its place among all rows |
| `IndexerTheorems.TakesOnlyItsSource` | backend/src/indexer/indexer.service.ts:289-305 | a database serves a cluster and program exactly when it is empty or was filled from them |
| `IndexerTheorems.HalfWrittenStateHalts` | backend/src/indexer/indexer.service.ts:293-297 | a process that dies between the two first writes leaves a database every later run halts on |
| `IndexerTheorems.TakesASourceIff` | backend/src/indexer/indexer.service.ts:289-305 | a database can take some source if and only if it holds both halves of one or neither |
| `IndexerTheorems.AGapIsPassed` | backend/src/indexer/indexer.service.ts:308-323 | with a listing that omits an older transaction the cursor passes it unstored |
| `IndexerService.IndexerService.Sync` | backend/src/indexer/indexer.service.ts:257-283 | each sync is a run of the protocol; one that finishes has stored everything listed |
| `IndexerService.IndexerService.StoreListed` | backend/src/indexer/indexer.service.ts:265-278 | oldest first, until stopped or an error |
| `IndexerService.IndexerService.StoreOne` | backend/src/indexer/indexer.service.ts:269-275 | moves the cursor past a stored transaction, else stores what its logs say |
| `IndexerService.IndexerService.NewSignatures` | backend/src/indexer/indexer.service.ts:308-323 | collects pages until a short one |
| `IndexerService.IndexerService.CheckChain` | backend/src/indexer/indexer.service.ts:289-305 | adopts, accepts or refuses the cluster |
| `IndexerService.IndexerService.Load` | backend/src/indexer/indexer.service.ts:325-362 | notified logs and fetched ones give the same record |
| `IndexerService.IndexerService.AwaitsNotified` | backend/src/indexer/indexer.service.ts:411-419 | keeps exactly the notified transactions neither stored nor too old |
| `IndexerService.GetSignaturesForAddress` | backend/src/testing/fake-ledger.ts:144-189 | the page the RPC serves |
| `IndexerStore.IndexerStore.Save` | backend/src/indexer/indexer.store.ts:126-162 | transaction, events and cursor together; what is stored stays |
| `IndexerStore.IndexerStore.IsIndexed` | backend/src/indexer/indexer.store.ts:110-115 | whether the transaction is stored |
| `IndexerStore.InsertedNew` | backend/src/indexer/indexer.store.ts:132-159 | rows of a new transaction are all added |
| `IndexerStore.RecordedTwice` | backend/src/indexer/indexer.store.ts:126-162 | storing a transaction again changes nothing |
| `IndexerScheduler.OneSyncAtATime` | backend/src/indexer/indexer.service.ts:180-190 | two syncs never run at once, and no retry is armed while one runs |
| `IndexerScheduler.RequestIsServed` | backend/src/indexer/indexer.service.ts:164-191 | a request made while syncs may start is followed by a start or an armed timer, whenever no sync runs and nothing halted or stopped the indexer |
| `IndexerScheduler.TimerStartsASync` | backend/src/indexer/indexer.service.ts:242-251 | a fired timer starts one sync, at the latest when the running one has ended |
| `IndexerScheduler.BackoffHolds` | backend/src/indexer/indexer.service.ts:173-176 | while a failed sync waits for its delay no request starts another |
| `IndexerScheduler.ShutdownIsFinal` | backend/src/indexer/indexer.service.ts:145-194 | after shutdown began nothing starts and no timer is armed; once nothing runs nothing ever does, and that is so when the sync that ran has ended and its callback has been called |
| `IndexerScheduler.DelayDoubles` | backend/src/indexer/indexer.service.ts:78-81 | 1 s, doubling, at most 60 s |
| `IndexerScheduler.FirstRetryIsShort` | backend/src/indexer/indexer.service.ts:232-251 | the first failed sync is retried after 1 s |
| `IndexerScheduler.RequestStartsIff` | backend/src/indexer/indexer.service.ts:169-191 | in any run a request starts a sync exactly when syncs are on, none runs and none failed that still waits; one that comes while a sync runs is kept |
| `IndexerScheduler.DisabledStays` | backend/src/indexer/indexer.service.ts:169-172 | a disabled indexer never starts a sync |
| `IndexerScheduler.SyncEndLeadsTo` | backend/src/indexer/indexer.service.ts:213-251 | in any run a failed sync is retried, one that still waits is repeated, one on another chain ends everything, and otherwise exactly a kept request starts the next |
| `IndexerScheduler.IndexerScheduler.RequestSync` | backend/src/indexer/indexer.service.ts:169-191 | starts, queues or ignores a request |
| `IndexerScheduler.IndexerScheduler.RunOnceEnds` | backend/src/indexer/indexer.service.ts:213-240 | state, attempts and retry after a sync |
| `IndexerScheduler.IndexerScheduler.AfterSync` | backend/src/indexer/indexer.service.ts:185-190 | the callback that serves a queued request |
| `IndexerScheduler.IndexerScheduler.ScheduleRetry` | backend/src/indexer/indexer.service.ts:242-251 | arms a timer unless stopped |
| `IndexerScheduler.IndexerScheduler.BeforeApplicationShutdown` | backend/src/indexer/indexer.service.ts:145-153 | stops and disarms |
| `ProgramLogs.ProgramLogEvents` | backend/src/indexer/program-logs.ts:30-51 | the loop computes the fold of the line steps |
| `ProgramLogs.ParserUndoesPrinter` | backend/src/indexer/program-logs.ts:18-51 | from the printed logs of any tree of successful calls the parser recovers exactly the program's own records, in order, at any depth |
| `ProgramLogs.TruncatedLogsGiveAPrefix` | backend/src/indexer/program-logs.ts:34-36 | cut logs give a prefix of those records and say so |
| `ProgramLogs.LogLineIsInertIff` | backend/src/indexer/program-logs.ts:18-20 | a logged message is passed over if and only if it is not `success` and not `invoke [n]` |
| `ProgramLogs.DataLineReads` | backend/src/indexer/program-logs.ts:46-48 | a record line is read as a record if and only if its payload is neither |
| `ProgramLogs.MisreadIff` | backend/src/indexer/program-logs.ts:18-20 | the texts misread as lines of the runtime are `success` and `invoke [` digits `]`, and no others |
| `ProgramLogs.ConsumedLineIsInert` | backend/src/testing/program-log-writer.ts:46-50 | the runtime's `consumed` line is passed over |
| `ProgramLogs.SuccessMessageLosesARecord` | backend/src/indexer/program-logs.ts:19-20 | a program that logs `success` loses the record after it |
| `Published.PublishedDataVerifiesIff` | scripts/seed-devnet/verify-published.ts:47-71 | in every reachable state, the published files verify against the chain if and only if this backend started the chain and every day on it is confirmed in the store |
| `Published.LandedDayIsMissed` | scripts/seed-devnet/verify-published.ts:47-71 | a concrete state with a landed day not confirmed yet, whose published files do not verify |
| `Published.LaterChain` | backend/src/published/car-data.ts:93-100 | of a chain another writer started nothing is published |
| `Published.VerifiedIff` | scripts/seed-devnet/verify-published.ts:47-71 | whoever made the files: with a collision-free step they verify if and only if each claim in them is true and their records are, in order, the days on-chain |
| `Published.OneTruth` | scripts/seed-devnet/verify-published.ts:47-71 | two sets of files that verify against one chain publish the same records |
| `Published.RecordsDecideClaims` | scripts/seed-devnet/verify-published.ts:47-71 | of two sets of files that verify with the same records month by month every claim is the same: no head or hash in them can be changed unnoticed |
| `Published.FilesAreTruthful` | backend/src/published/car-data.ts:102-159 | files cut from a chained list of days hold it whole, with true heads and hashes |
| `Published.MonthsAreTheDays` | backend/src/published/car-data.ts:136-142 | of days in date order, the months put together are the days again |
| `Published.InMonthOfFlat` | backend/src/published/car-data.ts:102-123 | a month file holds exactly the days the index counts for it |
| `Published.MonthsAreCalendarMonths` | backend/src/published/car-data.ts:76-78 | two days are in one file exactly when they are of one calendar month, and files follow the calendar |
| `Published.CarIndex` | backend/src/published/car-data.ts:129-142 | the grouping loop |
| `Published.VerifyTelemetry` | scripts/seed-devnet/verify-published.ts:47-71 | reports no problem exactly when every claim holds and count and head match the chain |
| `Published.VerifyDays` | scripts/seed-devnet/verify-published.ts:54-61 | the inner loop over a month's days |
| `Published.ConfirmedInOrder` | backend/src/telemetry/telemetry.store.ts:193-201 | confirmed days in chain order are the chain's days in its order |
| `Reports.ReportIsAChainSegment` | backend/src/reports/reports.service.ts:97-155 | in every reachable state a report lists exactly the calendar days of its period, at consecutive positions, as the chain holds them, and folding the step over them from `head_before` gives `head_after` |
| `Reports.HeadsCommitToDays` | backend/src/reports/revenue-report.ts:264-270 | no other days of that number lead from one head to the other |
| `Reports.ReportsService.Build` | backend/src/reports/reports.service.ts:101-156 | succeeds exactly when the chain is this backend's, every day is confirmed and the deposit fits a u64; refuses the amount exactly when only that fails, and otherwise lists exactly the missing days |
| `Reports.ReportsService.BuildReport` | backend/src/reports/revenue-report.ts:220-272 | refuses exactly the inputs whose deposit exceeds a u64; else rent and sale proceeds equal distributable, park fee and expenses, and days and chain ends are those stored |
| `Reports.ExpensesCountOnce` | backend/src/reports/revenue-report.ts:215-227 | one more expense raises its total by its amount, lowers what is distributed by as much and changes nothing else; sale proceeds raise it |
| `Reports.NoExpenses` | backend/src/reports/revenue-report.ts:215-227 | without items nothing is spent |
| `Reports.RentCountsEveryDay` | backend/src/reports/revenue-report.ts:223 | one more day adds exactly its rent |
| `Reports.AmountsAreShares` | backend/src/reports/revenue-report.ts:224-228 | the park fee is its part of the rent rounded down; the deposit is what is left, in units of the payment token, or nothing of a loss |
| `Reports.ValidInputIff` | backend/src/reports/revenue-report.ts:171-183 | a period is accepted exactly if it runs forwards over at most 31 real days |
| `Reports.FitsIffReportExists` | backend/src/reports/revenue-report.ts:228-233 | of confirmed days an amount is refused exactly when no report of them could state its deposit |
| `Reports.Consecutive` | backend/src/reports/reports.service.ts:119-128 | consecutive calendar days that are confirmed stand next to each other on the chain |
| `Reports.ChainHoldsRealDays` | programs/axel-v2/src/instructions/record_telemetry.rs:58-73 | the chain holds real calendar days only |
| `Reports.LimitCutsNothing` | backend/src/reports/reports.service.ts:114-118 | the row limit never hides a day of the period |
| `ExecutorTheorems.EachStepLandsAtMostOnce` | scripts/seed-devnet/execute.ts:586-673 | across any runs, crashes and phase selections no two transactions of one step land, if reports are true |
| `ExecutorTheorems.OnePendingIff` | scripts/seed-devnet/execute.ts:586-673 | from any checkpoint with at most one step pending, runs of one selection keep it so if and only if that step is selected with all earlier selected steps done, or all selected steps are done |
| `ExecutorTheorems.AtMostOnePending` | scripts/seed-devnet/execute.ts:586-673 | from an empty checkpoint, while runs select the same phases, at most one step is pending |
| `ExecutorTheorems.StepsLandInPlanOrder` | scripts/seed-devnet/execute.ts:611-672 | from any checkpoint whatever is pending: what runs of one selection sign lands in plan order, each step after all selected steps before it are done |
| `ExecutorTheorems.TwoSelectionsTwoPending` | scripts/seed-devnet/execute.ts:612-622 | two concrete runs that leave two steps pending: the first is not selected the second time, or is selected behind an untouched one |
| `ExecutorTheorems.ForgettingIsSafeIff` | scripts/seed-devnet/execute.ts:647-653 | in any state of any run, forgetting a step whose send threw is safe if and only if its transaction can no longer land |
| `ExecutorTheorems.LostAnswerLandsTwice` | scripts/seed-devnet/execute.ts:647-653 | a concrete run in which the answer of a send is lost and the step lands twice |
| `ExecutorTheorems.SubmitReportsTruly` | scripts/seed-devnet/lib/chain.ts:149-178 | while sending, `outcome` is true however the network moves between its reads |
| `ExecutorTheorems.SettleReportsTrulyIff` | scripts/seed-devnet/lib/chain.ts:154-178 | the lookup of an earlier run's step is true if and only if the transaction did not land between the reads and expire by the second |
| `ExecutorTheorems.LandsBetweenTheReads` | scripts/seed-devnet/lib/chain.ts:154-178 | concrete moves between the two reads after which a landed transaction is reported as expired |
| `ExecutorTheorems.FailsForGood` | scripts/seed-devnet/lib/chain.ts:154-178 | a transaction may fail at any time until it lands, and then never lands |
| `ExecutorTheorems.RunKeeps` | scripts/seed-devnet/execute.ts:586-673 | every honest run keeps the executor's invariant |
| `ExecutorProgress.EverySelectionCanFinish` | scripts/seed-devnet/execute.ts:586-673 | from any checkpoint that any honest runs of any selections leave, some further honest runs of any one selection finish all its steps: no record blocks a step for good |
| `ExecutorProgress.SubmitLeaves` | scripts/seed-devnet/execute.ts:641-669 | a sent step is done once confirmed and forgotten once it cannot land; a failure ends the run, and an expiry is tried again, three times in all |
| `ExecutorProgress.SettleLeaves` | scripts/seed-devnet/execute.ts:587-633 | a step an earlier run left pending is done once confirmed, forgotten once it cannot land, and else left as it is |
| `ExecutorProgress.ThreeAttempts` | scripts/seed-devnet/execute.ts:634-670 | no run tries a step more than three times |
| `ExecutorService.ExecutorService.Execute` | scripts/seed-devnet/execute.ts:611-673 | each run is a run of the protocol; one that completes has every selected step done, and one that does not met a deferral, a failed, expired or throwing send, or ran out of answers |
| `ExecutorService.ExecutorService.RunSteps` | scripts/seed-devnet/execute.ts:614-671 | the loop over the selected steps: a run of the protocol that, when it reaches the end, leaves every one of them done |
| `ExecutorService.ExecutorService.RunStep` | scripts/seed-devnet/execute.ts:614-671 | one step: passed over, settled, deferred or sent |
| `ExecutorService.ExecutorService.SettlePending` | scripts/seed-devnet/execute.ts:587-609 | looks a pending step up until it is known |
| `ExecutorService.ExecutorService.SendStep` | scripts/seed-devnet/execute.ts:634-670 | at most three attempts |
| `ExecutorService.ExecutorService.SendOnce` | scripts/seed-devnet/execute.ts:641-669 | recorded before it is sent, then settled by the report |
| `ExecutorService.SeedState.MarkPending` | scripts/seed-devnet/lib/state.ts:74-77 | the record of a signed step |
| `ExecutorService.SeedState.MarkDone` | scripts/seed-devnet/lib/state.ts:79-82 | the record of a finished step |
| `ExecutorService.SeedState.Clear` | scripts/seed-devnet/lib/state.ts:84-87 | no record |
| `CanonicalTheorems.CanonicalTextIdentifies` | backend/src/common/canonical-json.ts:10-51 | two values have the same canonical text if and only if they are equal, in whatever order their keys were set |
| `CanonicalTheorems.ReaderRecovers` | backend/src/common/canonical-json.ts:14-59 | a reader of the grammar recovers the value from its text |
| `CanonicalTheorems.SerializesIff` | backend/src/common/canonical-json.ts:14-59 | canonicalizing throws exactly on what is not JSON or holds a lone surrogate |
| `CanonicalTheorems.SerializesNormal` | backend/src/common/canonical-json.ts:39-51 | the text is the value printed with the keys of every object sorted |
| `CanonicalTheorems.SameIffNormal` | backend/src/common/canonical-json.ts:45-46 | values are equal if and only if their sorted forms are the same |
| `CanonicalTheorems.ReadsValue` | backend/src/common/canonical-json.ts:14-37 | reading what was printed, followed by anything that cannot continue it |
| `CanonicalTheorems.ReadsEscaped` | backend/src/common/canonical-json.ts:53-59 | escaping of strings can be undone |
| `CanonicalTheorems.SortSorts` | backend/src/common/canonical-json.ts:45-46 | distinct keys come out strictly ascending by UTF-16 code units |
| `CanonicalTheorems.HashIdentifies` | backend/src/telemetry/day-record.ts:56-58 | a collision-free hash of the text identifies the value |
| `CanonicalText.LessIff` | backend/src/common/canonical-json.ts:45-46 | keys compare at the first code unit in which they differ, and a prefix comes first |
| `CanonicalText.HasLoneSurrogateIff` | backend/src/common/canonical-json.ts:7-8 | a text is refused exactly when some half of a surrogate pair has no other half beside it |
| `CanonicalText.EscapesAreTheShortest` | backend/src/common/canonical-json.ts:53-59 | two characters for the seven with a short escape, `\u00` and two lower-case digits for the other controls, all else as it is |
| `CanonicalText.NumberIsItsDigits` | backend/src/common/canonical-json.ts:21-26 | decimal digits without a leading zero, after a minus if negative |
| `CanonicalText.WordsAndStrings` | backend/src/common/canonical-json.ts:14-28 | null, true, false, and strings in quotes with each unit escaped |
| `CanonicalText.ArrayText` | backend/src/common/canonical-json.ts:30-32 | items in brackets, with commas between them |
| `CanonicalText.ObjectText` | backend/src/common/canonical-json.ts:39-51 | members in braces, the least key first whatever order they were set in, a colon before each value |
| `Dates.DateRoundTrip` | backend/src/common/dates.ts:8-21 | YYYYMMDD to day number and back |
| `Dates.DayRoundTrip` | backend/src/common/dates.ts:8-21 | day number to YYYYMMDD and back |
| `Dates.DatesInOrder` | backend/src/common/dates.ts:28-31 | both forms are in the same order |
| `Dates.FromDayOfToDay` | backend/src/common/dates.ts:8-21 | civil date to day number and back, for every year |
| `Dates.DaysInOrder` | backend/src/common/dates.ts:8-21 | day numbers follow the calendar |
| `Dates.AddDaysComposes` | backend/src/common/dates.ts:38-40 | adding days composes additively |
| `Dates.CalendarIsGregorian` | backend/src/common/dates.ts:8-21 | the days a month has, with February by the leap years of the Gregorian calendar |
| `Dates.CountedFrom1970` | backend/src/common/dates.ts:8-21 | days are counted from January 1st of 1970 |
| `Dates.EachDay` | backend/src/common/dates.ts:43-49 | lists exactly the calendar days of the range, once each, ascending, one day apart |
| `IsoDates.ToUtcIff` | backend/src/common/dates.ts:8-17 | a text is a day exactly when it spells a real day of the years 100 to 9999 |
| `IsoDates.IsIsoDateIff` | backend/src/common/dates.ts:24-26 | the accepted texts are exactly those of the days the program accepts as integers |
| `IsoDates.TextAndNumber` | backend/src/common/dates.ts:28-36 | text to integer and back without loss |
| `IsoDates.TextsInOrder` | backend/src/common/dates.ts:24-36 | texts compare like the days |
| `IsoDates.AddDaysText` | backend/src/common/dates.ts:38-40 | adding days to a text is adding them to its day |
| `Allocate.Allocate` | scripts/seed-devnet/plan.ts:264-287 | ends, with shares that sum to the total, at least one each, unless there are more buyers than shares or nobody to give shares to |
| `Allocate.Correct` | scripts/seed-devnet/plan.ts:274-285 | the correction goes round the buyers, largest first, one share at a time, and ends |
| `Allocate.CorrectionIsEven` | scripts/seed-devnet/plan.ts:276-285 | two buyers' shares move by the same, give or take one, unless one is down to a single share |
| `Allocate.SortedOrder` | scripts/seed-devnet/plan.ts:275 | every buyer once, larger shares first |
| `Allocate.NotAllOnes` | scripts/seed-devnet/plan.ts:281-284 | while shares must be taken away somebody has more than one |
| `Differences.Differences` | backend/src/reports/revenue-report.ts:316-340 | empty exactly when the trees agree field by field; every path in it leads to a place where they differ, and below the limit none is missing |
| `Differences.StatedDifferences` | backend/src/reports/revenue-report.ts:279-313 | empty exactly when the stated tree is backed by the rebuilt one; every path in it leads to a stated place that is not, and below the limit none is missing |
| `Differences.AgreeIffSame` | backend/src/reports/revenue-report.ts:316-340 | for every two JSON trees: empty exactly when they are equal, except when they are equal but for a `__proto__` of `{}` or `{"__proto__": null}` that one of them lacks |
| `Differences.AgreeIffAlike` | backend/src/reports/revenue-report.ts:316-340 | for every two JSON trees, `differences` is empty if and only if they are equal up to such fields |
| `Differences.SameIffAlike` | backend/src/reports/revenue-report.ts:316-340 | equal up to such fields and without a one-sided one means equal |
| `Differences.BacksIffSubTree` | backend/src/reports/revenue-report.ts:279-313 | for every two JSON trees: empty exactly when the stated one is a sub-tree, except when it is one but for such a `__proto__` that the rebuilt tree lacks |
| `Differences.BacksIffBacked` | backend/src/reports/revenue-report.ts:279-313 | for every two JSON trees, `statedDifferences` is empty if and only if the stated one is a sub-tree up to such fields |
| `Differences.RightWithoutProto` | backend/src/reports/revenue-report.ts:279-340 | both are right of trees without a `__proto__` field |
| `Differences.ProtoUnnoticedIff` | backend/src/reports/revenue-report.ts:285-293 | whatever else is stated, a stated field that the report lacks goes unnoticed if and only if it is `__proto__` with `{}` or `{"__proto__": null}` |
| `Differences.ProtoHidesADifference` | backend/src/reports/revenue-report.ts:329-332 | a concrete pair of unequal trees with no difference found, and a statement not in the report that goes unnoticed |
| `Differences.WalkItems` | backend/src/reports/revenue-report.ts:322-327 | the walk over two arrays: empty exactly when they agree, and every reported path leads to a differing place |
| `Differences.WalkKeys` | backend/src/reports/revenue-report.ts:329-332 | the walk over the keys of two records, the same |
| `Collector.TelemetryCollector.CollectAll` | backend/src/telemetry/telemetry-collector.service.ts:42-87 | each car's result is that of trying its due days, which are exactly those it misses, in order until one fails, whatever the other cars' days do |
| `Collector.CollectedIsAPrefix` | backend/src/telemetry/telemetry-collector.service.ts:97-112 | collected days are the due days before the first that fails, which is `failedAt` |
| `Collector.DueIff` | backend/src/telemetry/telemetry-collector.service.ts:89-95 | a car is due exactly for the days up to yesterday, none older than 30 days, after its last stored one; with none stored from its start date on, and without one only yesterday |
| `Collector.StaysGapFreeIff` | backend/src/telemetry/telemetry-collector.service.ts:89-95 | stored days without a gap stay so whatever succeeds and fails if and only if none is stored yet or the last one is at most 31 days before yesterday |
| `Collector.RunLeavesNoGapIff` | backend/src/telemetry/telemetry-collector.service.ts:89-95 | one run leaves no gap if and only if it collected nothing or that holds |
| `Collector.AMonthLater` | backend/src/telemetry/telemetry-collector.service.ts:89-95 | a concrete car and date at which a day is left out |
| `Collector.TelemetryCollector.Save` | backend/src/telemetry/telemetry-collector.service.ts:97-112 | stores a published day at once; a reading that cannot be published stops its car |
| `Collector.TelemetryCollector.CollectFleet` | backend/src/telemetry/telemetry-collector.service.ts:57-85 | reading date by date gives each car the same as reading car by car |
| `Collector.NextTried` | backend/src/telemetry/telemetry-collector.service.ts:60-68 | the next date of the merged list is a car's next due day or none of its days |

## Left out

- The program `axel_v2` is modelled on values, as the environment of the backend: its Rust handlers update accounts in place, and account creation, rent and signer checks are not captured. Checks that depend on time, KYC records or the protocol's pause switch are left out; each only refuses more, so every run of the program is a run here. The platform's fee total is not tracked.
- Several cars in one store: telemetry, deposits and publication are modelled for one car, whose rows no query mixes with another's.
- TelemetryService.TelemetryChainService.ReconcileNow: reads tip and height at one moment; what two reads do is `TelemetryTheorems.SplitReadsAreSafeIff`. A missing project account, which only ends the call early, is not modelled.
- TelemetryService.TelemetryChainService.SyncNow: a missing oracle key or project, which only ends a sync early, is not modelled.
- AttestationService.AttestationService.AttestDeposit: the transaction's shape, its other signatures and the operator's key are checked before this point and not modelled; the comparison of the submitted report is equality here, which `Differences.AgreeIffSame` justifies but for an unnoticed `__proto__`. All chain reads of the checks are one moment.
- AttestationSafety.CheckedApart: all chain reads of one request are one moment; what separate reads do is `AttestationTheorems.SplitChecksAreSafeIff`.
- AttestationService.AttestationService.DraftDeposit: the comparison with the stated fields is `Differences.StatedDifferences`, not repeated here.
- IndexerService.IndexerService.Load: block times and the decoding of an event's Borsh data are not modelled; an event is its record text.
- IndexerScheduler.IndexerScheduler.BeforeApplicationShutdown: it also waits until nothing runs; that this happens is `IndexerScheduler.ShutdownIsFinal`.
- IndexerScheduler: the event loop is a sequence of steps; the poll and the subscription appear as requests, and timers fire at any time after they are armed.
- KeyedQueue: promises are tasks that wait, run and settle.
- Reports.ReportsService.BuildReport: data origin, active days, trips and kilometres are sums or sets over the same days and left out; money is whole tenge.
- Payouts.ReplayPosition: the dates, kind, block time and signature a listed row carries along are left out.
- Published.CarIndex: data origins, day counts, acquisition and recovery documents and the list of reports in an index.
- CanonicalJson.Serialize: numbers are integers that a double holds exactly; the text of a fraction is ECMAScript's own.
- Allocate.Allocate: the jittered weights are arbitrary floors, as the correction needs nothing more.
- ExecutorService.ExecutorService.SendStep: what a step's transaction does, and when a step needs none, are inputs; when a signature was used before, the source waits for another blockhash and the model ends the run.
- Collector: the reading of figures and their publication succeed or fail as inputs; local time is not modelled.
- SQLite, SHA-256, Borsh, ed25519, HTTP, configuration, KYC and the frontend.
- Texts of messages, logs and details.
