# Trillionnium core: verified model

A Dafny model of five cores of the Trillionnium repository and proofs of what they are for.

1. **Proof-of-work ledger** (`ledger.py`, `contract_wire.py`, `reference.py`): the block tree with deltas, snapshots and a
   reorganisation protocol that can stop between any two steps; the twelve-command transaction machine with escrow, expiry,
   claims, reviews and block rewards; retargeting and median time; the state, sequence and allocation commitments; the wire codecs.
2. **Work relation** (`pon_work.rs` with its oracle `work_oracle.py`): the tiled, noise-masked matrix product modulo Q and its verifier.
3. **Data-availability kernel** (`store.rs`, `types.rs`, `retrieval.rs`): the batch store with its redundant counters and
   attestation journal, weighted certificates, equivocation evidence and Merkle inclusion paths.
4. **Node commit ledger** (`node_commit_ledger_v1.rs`): write, rename, sync, then publish, on a disk that may lose unsynced names.
5. **Checkpoint authority** (`trnm-checkpoint-store/src/lib.rs`, `record.rs`): compare-and-advance over a hash-chained journal.

Conventions. Digests are injective, tag-separated constructors (or a function parameter where only its output bytes matter),
signatures are opaque predicates, configuration values are parameters. Each SQL transaction is one atomic step; each rename,
write and directory sync of the two file-based stores is one disk step, and a `fuse` or `cut` parameter stops a run between any two.
Code that updates state in place is a class or a method with loops, proved against a specification; pure code is functions and lemmas.
Every lemma carries `{:induction false}`: each induction is written out as a recursive call, and no proof rests on automatic induction.

Where the code and its documentation disagree the model follows the code: the doc comment of the checkpoint authority's `open`
calls a stale anchor a hard failure, while the code moves an anchor that is behind the journal up to it without comparing its hash.

One property turned out not to hold as stated. The authority's anchor can get ahead of the durable journal: when syncing a
record fails, the record is visible but not durable, and reopening the journal without a power cut moves the anchor up to it
(`CheckpointAuthority.AnchorOvertakes`, and `CheckpointAuthority.Overtake` on the authority itself). `CheckpointAuthority.ReopenSound` states exactly
when one reopening does so, and `CheckpointAuthority.AnchorBehindExactly` that the anchor is behind at every point of a run if and only if no
reopening did. No acknowledged advance is ever lost either way (`CheckpointAuthority.AcknowledgedLasts`).

Layout: `LedgerState`, `Solvency`, `TransactionSafety`, `Movements`, `Reviews`, `BlockExecution` (execution); `Runs`, `Releases`, `Chain` (whole
chains); `BlockTree`, `BlockLedger`, `Consensus`, `LedgerTips` (block tree, and the tree joined with execution); `Allocation`, `AllocationTree`, `StateTree`, `SequenceRoot`, `WireCodec` (commitments and codecs); `FieldMatrix`,
`WorkNoise`, `PonWork` (work); `DaCommittee`, `DaTables`, `DaAudit`, `DaStore`, `MerklePath` (data availability); `NodeLedger`,
`Checkpoints`, `CheckpointAuthority` (checkpoints); `MapSums` (sums over maps), `Wrappers` (options and results).

`dafny verify dfyconfig.toml` checks the whole project.

## Model

| member | source | states |
|---|---|---|
| BlockLedger.Run | formal/pon-nakamoto-v1/ledger.py:325-495 | over any sequence of admits, activations, recoveries and reads, stopped at any cut, the live slot equals the delta replay of the active tip, the event log leads from genesis to it and the tip never loses work; every read, and nothing else, is answered with the execution of its block's branch, and that answer stays right |
| BlockLedger.Ledger.constructor | formal/pon-nakamoto-v1/ledger.py:246-309 | a fresh ledger stands on genesis with the invariant established |
| BlockLedger.Ledger.ReadActive | formal/pon-nakamoto-v1/ledger.py:325-331 | readers get exactly the replayed state of the active tip, and its root always matches |
| BlockLedger.Ledger.ApplyDelta | formal/pon-nakamoto-v1/ledger.py:426-432 | a delta is applied (or undone) exactly when every replaced value is the expected one, and otherwise nothing changes |
| BlockLedger.Ledger.StageStep | formal/pon-nakamoto-v1/ledger.py:470-477 | one staged step keeps the staging slot equal to the replay of the walk so far and never touches the live slot |
| BlockLedger.Ledger.Publish | formal/pon-nakamoto-v1/ledger.py:478-489 | publication moves the active row to the target, whose slot then holds exactly the target's replayed state |
| BlockLedger.ReadyToPublish | formal/pon-nakamoto-v1/ledger.py:478-484 | a fully staged slot holds the target's state and root, and the event log leads to the target |
| BlockLedger.Ledger.RecoverIntent | formal/pon-nakamoto-v1/ledger.py:465-489 | an interrupted reorganisation leaves readers on the old state until publication and ends on the target |
| BlockLedger.Ledger.Extend | formal/pon-nakamoto-v1/ledger.py:441-450 | a direct child of the tip is activated in one step |
| BlockLedger.Ledger.Begin | formal/pon-nakamoto-v1/ledger.py:451-461 | the intent is persisted with a walk that leads from the old tip to the target |
| BlockLedger.Ledger.Reorganise | formal/pon-nakamoto-v1/ledger.py:451-463 | a reorganisation is started and driven, and may stop at any cut with the invariant intact |
| BlockLedger.Ledger.Advance | formal/pon-nakamoto-v1/ledger.py:437-463 | a heavier target is reached by a child step or a reorganisation |
| BlockLedger.Ledger.Activate | formal/pon-nakamoto-v1/ledger.py:434-463 | activation refuses targets of no more work and otherwise strictly raises the work of the active tip |
| BlockLedger.Ledger.HeaviestBlock | formal/pon-nakamoto-v1/ledger.py:493-493 | the chosen block is the first by most chain work, then least height, then least id |
| BlockLedger.Ledger.Recover | formal/pon-nakamoto-v1/ledger.py:491-495 | uninterrupted recovery ends on a block of maximal work; when it moves it takes the first in recovery order |
| BlockLedger.Ledger.StateAt | formal/pon-nakamoto-v1/ledger.py:333-359 | the state of any admitted block, through the nearest retained snapshot and the deltas, equals full execution from genesis |
| BlockLedger.Ledger.NearestSnapshot | formal/pon-nakamoto-v1/ledger.py:340-349 | the walk down to a retained snapshot terminates, because genesis keeps one |
| BlockLedger.Ledger.ReplayOne | formal/pon-nakamoto-v1/ledger.py:350-358 | one delta forward from a parent's state gives the child's state and passes both checks |
| BlockLedger.Ledger.Forward | formal/pon-nakamoto-v1/ledger.py:353-356 | a delta applies on a private state exactly when all replaced values are the expected ones |
| BlockLedger.Ledger.AncestorHeaders | formal/pon-nakamoto-v1/ledger.py:361-366 | the collected headers are the newest ones of the branch, as many as retargeting and the median need |
| BlockLedger.Ledger.Target | formal/pon-nakamoto-v1/ledger.py:368-373 | the next target computed from the collected headers is the one the whole chain prescribes |
| BlockLedger.Ledger.CheckHeader | formal/pon-nakamoto-v1/ledger.py:401-404 | a header passes exactly with the prescribed target and a timestamp above the median and within the future bound |
| BlockLedger.Ledger.Admit | formal/pon-nakamoto-v1/ledger.py:385-424 | a candidate is accepted exactly when it repeats a known block or is a valid executed child of one; nothing else changes, and every stored row stays right |
| BlockLedger.Ledger.Store | formal/pon-nakamoto-v1/ledger.py:413-423 | storing a leaf and pruning snapshots keeps the whole store consistent with full replay |
| BlockLedger.StoreLeaf | formal/pon-nakamoto-v1/ledger.py:410-418 | a stored leaf that executed on its parent keeps every block row in agreement with execution |
| BlockLedger.PruneKeeps | formal/pon-nakamoto-v1/ledger.py:419-421 | whatever snapshots pruning removes, the kept ones equal full replay and genesis stays |
| BlockLedger.RecentTarget | formal/pon-nakamoto-v1/ledger.py:368-373 | the retained headers suffice for the exact next target, which stays in range |
| BlockLedger.RecentTimes | formal/pon-nakamoto-v1/ledger.py:402-404 | the retained headers give admission the same median window as the whole chain |
| BlockTree.DiffRoundTrip | formal/pon-nakamoto-v1/ledger.py:416-432 | a delta turns the earlier state into the later one and, reversed, the later into the earlier |
| BlockTree.PathBetween | formal/pon-nakamoto-v1/ledger.py:451-456 | the walk leads from the old tip to the target, detaches before it attaches, and never detaches and attaches the same block |
| BlockTree.ChainworkGrows | formal/pon-nakamoto-v1/ledger.py:410-410 | chain work strictly grows along every edge |
| BlockTree.ChainworkIsTotal | formal/pon-nakamoto-v1/ledger.py:410-410 | chain work is the sum of the works of the chain's blocks |
| LedgerTips.TipState | formal/pon-nakamoto-v1/ledger.py:333-420 | every admitted block stores the result of executing its branch, and that state's books are in order |
| LedgerTips.TipHistory | formal/pon-nakamoto-v1/ledger.py:91-420 | on every branch no transaction is applied twice, no contribution is paid twice, and every closed release is settled |
| LedgerTips.Operate | formal/pon-nakamoto-v1/ledger.py:325-495 | after any sequence of ledger operations, stopped anywhere, the live state conserves funds: balances, escrows and rewards are exactly what was issued |
| Consensus.Work | formal/pon-nakamoto-v1/reference.py:13-16 | the work of a target is positive for every admissible target |
| Consensus.RetargetBounds | formal/pon-nakamoto-v1/reference.py:19-29 | a retarget stays in [1, limit], at most four times and at least a quarter of the parent target |
| Consensus.TimestampState | formal/pon-nakamoto-v1/reference.py:32-38 | a candidate is invalid exactly when it is later than no more than half of the recent ancestors, and otherwise deferred exactly when it is beyond the future bound |
| Consensus.MedianMonotone | formal/pon-nakamoto-v1/reference.py:32-38 | sliding the window by one later timestamp never lowers the median, for odd and even widths |
| Consensus.TargetInRange | formal/pon-nakamoto-v1/ledger.py:368-373 | along every admitted chain each target lies between one and the proof-of-work limit |
| Consensus.TargetMovesByFour | formal/pon-nakamoto-v1/ledger.py:368-373 | along every admitted chain a target is at most four times and at least a quarter of its parent's |
| Consensus.MedianTimeMonotone | formal/pon-nakamoto-v1/ledger.py:402-404 | median time past never decreases along an admitted chain |
| Consensus.TimestampExceedsEveryMedian | formal/pon-nakamoto-v1/ledger.py:402-404 | every admitted timestamp exceeds the median of every earlier prefix |
| TransactionSafety.TransferKeeps | formal/pon-nakamoto-v1/ledger.py:120-121 | a transfer conserves funds and never leaves the range of a balance |
| TransactionSafety.ReserveTaskKeeps | formal/pon-nakamoto-v1/ledger.py:122-125 | reserving a task moves its budget into escrow and respects the deadline slots |
| TransactionSafety.CancelTaskKeeps | formal/pon-nakamoto-v1/ledger.py:126-128 | cancelling refunds exactly the escrow |
| TransactionSafety.RecordReceiptKeeps | formal/pon-nakamoto-v1/ledger.py:129-131 | recording a receipt moves no money |
| TransactionSafety.AcceptTaskKeeps | formal/pon-nakamoto-v1/ledger.py:132-134 | accepting pays exactly the escrow |
| TransactionSafety.ContributeKeeps | formal/pon-nakamoto-v1/ledger.py:135-144 | contributing moves no money |
| TransactionSafety.EvaluateKeeps | formal/pon-nakamoto-v1/ledger.py:145-151 | evaluating moves no money |
| TransactionSafety.PublishReleaseKeeps | formal/pon-nakamoto-v1/ledger.py:152-168 | publishing funds a release in full against the rows its root commits to |
| TransactionSafety.ClaimRewardKeeps | formal/pon-nakamoto-v1/ledger.py:169-175 | a claim conserves funds and its FUNDS and RANGE checks never fail |
| TransactionSafety.ReserveQuotaKeeps | formal/pon-nakamoto-v1/ledger.py:176-180 | reserving quota moves its cost into escrow |
| TransactionSafety.ConsumeQuotaKeeps | formal/pon-nakamoto-v1/ledger.py:181-189 | consuming quota takes exactly the fee out of the books, from the escrow |
| TransactionSafety.RegisterWorkKeeps | formal/pon-nakamoto-v1/ledger.py:190-191 | registering work moves no money |
| TransactionSafety.CommandKeeps | formal/pon-nakamoto-v1/ledger.py:120-192 | every command conserves funds, keeps every escrow in order and never reports RANGE or CONSERVATION |
| TransactionSafety.TransactionKeeps | formal/pon-nakamoto-v1/ledger.py:105-193 | an applied transaction takes exactly its fee out of the books |
| Solvency.PaidWithinBudget | formal/pon-nakamoto-v1/ledger.py:174-175 | shares rounded down never add up to more than the budget |
| Solvency.ClaimKeeps | formal/pon-nakamoto-v1/ledger.py:169-175 | a committed row's claim on an open release is always covered, and remaining plus paid stays the budget |
| Movements.TransactionMoves | formal/pon-nakamoto-v1/ledger.py:105-193 | after an applied transaction every account holds exactly what it held, less the fee of the sender and less or plus the one amount the command moves |
| Movements.OnlySenderPays | formal/pon-nakamoto-v1/ledger.py:169-189 | nobody but the sender loses, except the owner of a claimed release or of a quota whose consumer signed |
| Movements.TransferMoves | formal/pon-nakamoto-v1/ledger.py:120-121 | a transfer moves its amount from sender to recipient and nothing else |
| Movements.AcceptMoves | formal/pon-nakamoto-v1/ledger.py:132-134 | acceptance moves the escrow from its owner to the provider |
| Movements.ClaimMoves | formal/pon-nakamoto-v1/ledger.py:169-175 | a claim moves exactly the rounded share from the release's owner to the claimant |
| Movements.ConsumeMoves | formal/pon-nakamoto-v1/ledger.py:181-189 | consumption moves its cost from the quota's owner to the provider, who pays the fee out of it |
| Reviews.TransactionReviewed | formal/pon-nakamoto-v1/ledger.py:135-168 | every transaction keeps the review rules: only evaluators other than the author vote, and evaluated scores are the least of at least the threshold's votes |
| Reviews.RowsAgreed | formal/pon-nakamoto-v1/ledger.py:156-159 | every row a release commits to is an agreed, positive score of a candidate on the current release |
| Reviews.EvaluateReviewed | formal/pon-nakamoto-v1/ledger.py:145-151 | a vote that reaches the threshold fixes the least score of all votes |
| Reviews.PublishReviewed | formal/pon-nakamoto-v1/ledger.py:152-168 | adoption marks only candidates whose score was agreed |
| BlockExecution.RetireKeeps | formal/pon-nakamoto-v1/ledger.py:68-88 | retirement drops no money |
| BlockExecution.RetireHolds | formal/pon-nakamoto-v1/ledger.py:68-88 | retirement leaves every account's holdings as they were |
| BlockExecution.DueFits | formal/pon-nakamoto-v1/ledger.py:95-101 | at most the mandatory number of funded objects is due at the next height |
| BlockExecution.SelectDue | formal/pon-nakamoto-v1/ledger.py:95-99 | exactly the first objects due, each once, in deadline and name order, cut off at the mandatory number: every one kept is before every one left |
| BlockExecution.ExpireOne | formal/pon-nakamoto-v1/ledger.py:100-101 | one expiry empties the object and credits its owner, never out of range |
| BlockExecution.ExpiryKeeps | formal/pon-nakamoto-v1/ledger.py:100-101 | a refund changes neither the books nor anybody's holdings |
| BlockExecution.ExpireDue | formal/pon-nakamoto-v1/ledger.py:95-101 | mandatory expiry refunds every object due to its owner in order, and leaves nothing due at or below the height |
| BlockExecution.MatureRewards | formal/pon-nakamoto-v1/ledger.py:102-104 | every matured reward is paid to its owner in range, and no other is touched |
| BlockExecution.RanKeeps | formal/pon-nakamoto-v1/ledger.py:105-193 | over any run of transactions what leaves the state is exactly the fees collected |
| BlockExecution.RunTransactions | formal/pon-nakamoto-v1/ledger.py:105-193 | the loop computes the in-order run, its fee total and one receipt per transaction |
| BlockExecution.AddFunds | formal/pon-nakamoto-v1/ledger.py:41-47 | the loop computes the total of balances, escrow and rewards |
| BlockExecution.CloseBlock | formal/pon-nakamoto-v1/ledger.py:194-200 | closing books the reward and the subsidy and applies the final size limits; the conservation check never fails |
| BlockExecution.OpenBlock | formal/pon-nakamoto-v1/ledger.py:91-104 | a block opens with retirement, expiry and maturity in exactly the specified state: every account gets what its due objects held and its matured rewards, no other account appears, and nobody's holdings change |
| BlockExecution.OpenedKeeps | formal/pon-nakamoto-v1/ledger.py:91-104 | the opened state conserves funds and holds nothing due |
| BlockExecution.BalanceFixed | formal/pon-nakamoto-v1/ledger.py:99-104 | unchanged holdings determine every balance after opening |
| BlockExecution.FinishBlock | formal/pon-nakamoto-v1/ledger.py:105-201 | the transactions and the close run in order, with neither CONSERVATION nor an unjustified RANGE |
| BlockExecution.ExecuteBlock | formal/pon-nakamoto-v1/ledger.py:91-201 | a block on a good parent yields a good state, exactly the one result its inputs determine and its receipts, never CONSERVATION, and RANGE only when the issued supply itself leaves u64 |
| BlockExecution.ReceiptsUnique | formal/pon-nakamoto-v1/ledger.py:99-193 | the receipts of a block are determined: each object due once, in order, then each transaction |
| BlockExecution.BlockGood | formal/pon-nakamoto-v1/ledger.py:91-201 | the result of a block on a good parent is good, with the subsidy issued |
| Movements.NonceAdvances | formal/pon-nakamoto-v1/ledger.py:105-193 | an applied transaction is signed, unexpired, within its fee limit and the sender's next, and moves only the sender's nonce, by one |
| Runs.BlockRun | formal/pon-nakamoto-v1/ledger.py:91-201 | a block is the run of its acts: open, each transaction, close |
| Runs.NoReplay | formal/pon-nakamoto-v1/ledger.py:105-193 | no transaction is applied at two places of a run |
| Runs.RunNonces | formal/pon-nakamoto-v1/ledger.py:91-201 | a run moves an account's nonce on by the number of its transactions that were applied |
| Runs.RunReviewed | formal/pon-nakamoto-v1/ledger.py:68-201 | the review rules hold at every point of a run |
| Releases.ReleaseBooks | formal/pon-nakamoto-v1/ledger.py:99-175 | over any run, what a release held and was given equals what its claims paid, what expiry refunded and what it still holds |
| Releases.PublishedTwice | formal/pon-nakamoto-v1/ledger.py:152-168 | a release is published at most once in a run, retired or not |
| Releases.ClaimStays | formal/pon-nakamoto-v1/ledger.py:169-175 | a paid contribution stays on its release's list while the release exists |
| Releases.ContributionsPaidOnce | formal/pon-nakamoto-v1/ledger.py:135-175 | in any run from a bare start no two applied claims name the same contribution, whichever release they name |
| Releases.ClaimsAreAgreed | formal/pon-nakamoto-v1/ledger.py:144-175 | every paid claim goes to the owner of a contribution whose score the threshold of evaluators had agreed when its release was published |
| Releases.ReleasesSettled | formal/pon-nakamoto-v1/ledger.py:99-175 | every release whose window has closed paid by claims and refunded at expiry exactly its budget |
| Chain.ExecuteChain | formal/pon-nakamoto-v1/ledger.py:91-201 | after every block of any chain the funds on the books are the subsidies issued so far, every object is backed and nothing due is left funded; no transaction is applied twice, no contribution is paid twice, and every closed release is settled |
| Chain.Genesis | formal/pon-nakamoto-v1/ledger.py:34-39 | genesis sets every listed account to the funding and issues it once per key |
| Chain.GenesisGood | formal/pon-nakamoto-v1/ledger.py:34-39 | genesis satisfies conservation exactly when no key repeats or the funding is zero, and the issue fits u64 |
| Allocation.CheckLoop | formal/pon-nakamoto-v1/contract_wire.py:175-178 | the loop accepts exactly the proofs of at most eight siblings that fold to the root |
| Allocation.DepthIsBitLength | formal/pon-nakamoto-v1/ledger.py:172-172 | the required proof length is the depth of the tree |
| Allocation.ProofVerifies | formal/pon-nakamoto-v1/contract_wire.py:161-178 | every generated proof has the fixed length and folds to the root |
| Allocation.CheckSound | formal/pon-nakamoto-v1/contract_wire.py:160-178 | a proof of the fixed length is accepted only for a committed row |
| Allocation.CheckComplete | formal/pon-nakamoto-v1/contract_wire.py:160-178 | every committed row has an accepted proof, for up to 256 rows |
| AllocationTree.BuildTree | formal/pon-nakamoto-v1/contract_wire.py:161-174 | the one-pass loop returns the root and every row's canonical proof, and refuses exactly empty and oversized lists |
| AllocationTree.LiftLevel | formal/pon-nakamoto-v1/contract_wire.py:164-173 | one level gives the parents, the merged groups and one more sibling for every row |
| AllocationTree.AllocationRoot | formal/pon-nakamoto-v1/contract_wire.py:161-174 | the rows are sorted by contribution, and every row gets a proof that verifies against the root |
| AllocationTree.RootIgnoresOrder | formal/pon-nakamoto-v1/contract_wire.py:163-163 | rows of distinct contributions give the same sorted list, hence the same root, in any order |
| Releases.PublishedRoot | formal/pon-nakamoto-v1/ledger.py:157-160 | the root a publication is checked against is the root of its rows as the allocation tree sorts them |
| StateTree.Lift | formal/pon-nakamoto-v1/contract_wire.py:145-148 | the parents of the nodes present, with the empty digest for absent ones |
| StateTree.Fold | formal/pon-nakamoto-v1/contract_wire.py:143-150 | the bottom-up fold equals the recursive sparse tree at any depth |
| StateTree.StateRoot | formal/pon-nakamoto-v1/contract_wire.py:133-150 | the commitment succeeds exactly within the limits and without colliding key digests, and then is the tree root |
| StateTree.RootInjective | formal/pon-nakamoto-v1/contract_wire.py:133-150 | different states have different roots |
| SequenceRoot.Compute | formal/pon-nakamoto-v1/contract_wire.py:152-158 | the level loop computes the root of the padded pairing |
| SequenceRoot.RootInjective | formal/pon-nakamoto-v1/contract_wire.py:152-158 | lists with the same root are the same list, whatever their lengths |
| WireCodec.EncodePayload | formal/pon-nakamoto-v1/contract_wire.py:73-92 | the encoding loop computes the fields of the schema in order |
| WireCodec.DecodePayload | formal/pon-nakamoto-v1/contract_wire.py:94-116 | the position loop computes the recursive reading of the schema |
| WireCodec.PayloadExact | formal/pon-nakamoto-v1/contract_wire.py:73-116 | a payload encodes to a string exactly when that string decodes to it |
| WireCodec.DecodeHeader | formal/pon-nakamoto-v1/contract_wire.py:64-71 | with length and magic right the header loop cannot fail |
| WireCodec.HeaderExact | formal/pon-nakamoto-v1/contract_wire.py:60-71 | headers and their 318 bytes correspond one to one |
| WireCodec.TxRoundTrip | formal/pon-nakamoto-v1/contract_wire.py:118-131 | a signed encoding is read back exactly when it fits the size limit, and otherwise refused as LIMIT |
| WireCodec.TxCanonical | formal/pon-nakamoto-v1/contract_wire.py:123-131 | whatever is accepted is the signed encoding of what was read |
| WireCodec.TxExact | formal/pon-nakamoto-v1/contract_wire.py:118-131 | accepted transactions and byte strings correspond one to one |
| WireCodec.ValueRoundTrip | formal/pon-nakamoto-v1/contract_wire.py:78-91 | every encoded value is read back, including sorted allocations and bounded proofs |
| WireCodec.ReadValueRoundTrip | formal/pon-nakamoto-v1/contract_wire.py:99-114 | what is read off is exactly the encoding of the value read |
| WorkNoise.NativeExpand | trillionnium/crates/trnm-crypto-primitives/src/pon_work.rs:76-96 | the expansion is the first words below Q of the hash stream, or the budget error after 128 blocks |
| WorkNoise.OracleExpand | formal/pon-nakamoto-v1/work_oracle.py:15-21 | the oracle's expansion is the same stream prefix and the same error |
| WorkNoise.NoiseBudgetExceeded | trillionnium/crates/trnm-crypto-primitives/src/pon_work.rs:76-96 | an expansion longer than the 1024 words of 128 blocks always ends in the budget error |
| PonWork.NativeMul | trillionnium/crates/trnm-crypto-primitives/src/pon_work.rs:97-109 | the row loops compute the matrix product modulo Q without u128 overflow |
| PonWork.NativeCell | trillionnium/crates/trnm-crypto-primitives/src/pon_work.rs:135-150 | one tile step accumulates a cell modulo Q within u128 |
| PonWork.NativeTiled | trillionnium/crates/trnm-crypto-primitives/src/pon_work.rs:135-150 | the in-place tiled loops compute the masked product and emit exactly its trace |
| PonWork.NativeMasks | trillionnium/crates/trnm-crypto-primitives/src/pon_work.rs:112-134 | the masks are the four noise expansions of the challenge |
| PonWork.NativeCorrection | trillionnium/crates/trnm-crypto-primitives/src/pon_work.rs:151-158 | subtracting both corrections stays in range and is subtraction modulo Q |
| PonWork.NativeProduct | trillionnium/crates/trnm-crypto-primitives/src/pon_work.rs:112-160 | the masked product less both corrections is the true product |
| PonWork.NativeEvaluate | trillionnium/crates/trnm-crypto-primitives/src/pon_work.rs:112-160 | evaluation returns the true product and the hash of the transcript, or the first error |
| PonWork.UnmaskedProduct | trillionnium/crates/trnm-crypto-primitives/src/pon_work.rs:112-160 | unmasking is exact for all field matrices |
| PonWork.OracleTiled | formal/pon-nakamoto-v1/work_oracle.py:30-37 | the oracle's tile loops compute the same product and trace |
| PonWork.OracleProduct | formal/pon-nakamoto-v1/work_oracle.py:24-40 | the oracle returns the true product and the same trace bytes |
| PonWork.OracleEvaluate | formal/pon-nakamoto-v1/work_oracle.py:24-40 | the oracle's evaluation is the same function of challenge and inputs |
| PonWork.VerifyComplete | trillionnium/crates/trnm-crypto-primitives/src/pon_work.rs:161-217 | every proof whose ticket meets a nonzero target is accepted |
| PonWork.VerifySound | trillionnium/crates/trnm-crypto-primitives/src/pon_work.rs:171-217 | an accepted proof carries the true product of its matrices |
| PonWork.VerifyExact | trillionnium/crates/trnm-crypto-primitives/src/pon_work.rs:171-217 | a proof is accepted exactly when it is the prover's own bytes for its matrices and the ticket meets the target |
| PonWork.OracleAgrees | formal/pon-nakamoto-v1/work_oracle.py:44-55 | the specified verdicts of oracle and native verifier agree on every nonzero target, and both refuse a zero one |
| PonWork.NativeProve | trillionnium/crates/trnm-crypto-primitives/src/pon_work.rs:161-170 | the native prover returns the honest proof |
| PonWork.NativeVerify | trillionnium/crates/trnm-crypto-primitives/src/pon_work.rs:171-217 | the native verifier, through its own tiled evaluation, accepts exactly the honest proofs for the stated task and target |
| PonWork.OracleVerify | formal/pon-nakamoto-v1/work_oracle.py:44-55 | the oracle, through its own loops, answers every nonzero target as the native verifier does and accepts exactly the honest proofs |
| DaCommittee.MemberTotal | trillionnium/crates/trnm-data-availability/src/types.rs:459-488 | the checked sum succeeds exactly on ordered members with distinct usable keys and positive weights below u128 |
| DaCommittee.ValidateCommittee | trillionnium/crates/trnm-data-availability/src/types.rs:364-396 | validation accepts exactly committees with the threshold floor(2W/3)+1 |
| DaCommittee.NewCommittee | trillionnium/crates/trnm-data-availability/src/types.rs:323-362 | a new committee is exactly its arguments with the threshold floor(2W/3)+1, and is refused exactly when no valid one exists |
| DaCommittee.SignedWeight | trillionnium/crates/trnm-data-availability/src/types.rs:1437-1475 | the loop accepts exactly ordered, verified, binding attestations and sums their members' weight without overflow |
| DaCommittee.BuildCertificate | trillionnium/crates/trnm-data-availability/src/types.rs:1413-1497 | a certificate is built exactly from a valid signer set that reaches the threshold |
| DaCommittee.VerifyCertificate | trillionnium/crates/trnm-data-availability/src/types.rs:1515-1530 | verification accepts exactly the certificates the builder would produce |
| DaCommittee.EvidenceExact | trillionnium/crates/trnm-data-availability/src/types.rs:1698-1734 | evidence exists exactly for two verified attestations of one coordinate and different batches, in either order, and verifies again |
| DaCommittee.QuorumOverlap | trillionnium/crates/trnm-data-availability/src/types.rs:335-350 | two certificates share signers of weight strictly above a third |
| DaCommittee.SharedSignerConvicted | trillionnium/crates/trnm-data-availability/src/types.rs:1413-1734 | every signer of two rival certificates is convicted by its own two attestations |
| DaCommittee.OneBatchPerSequence | trillionnium/crates/trnm-data-availability/src/types.rs:1413-1734 | with at most a third of the weight faulty an author sequence has at most one certified batch |
| DaStore.Run | trillionnium/crates/trnm-data-availability/src/store.rs:468-1742 | in any run the invariant holds after every operation and each is a legal step; each operation is answered with exactly the attestation it hands out, which stays in the journal, and no two of them conflict |
| DaStore.CommitteeSafety | trillionnium/crates/trnm-data-availability/src/store.rs:518-780 | when every member outside a faulty third signs only what its store had journalled at some point of a legal history, no author sequence is certified for two batches |
| DaStore.NoEquivocation | trillionnium/crates/trnm-data-availability/src/store.rs:656-780 | two attestations of one journal are never evidence against their attestor |
| DaStore.LegalEvolves | trillionnium/crates/trnm-data-availability/src/store.rs:468-1742 | what was certified, attested or collected at any point of a run stays so |
| DaStore.Store.Open | trillionnium/crates/trnm-data-availability/src/store.rs:1914-1931 | the journal audit before every write never fails in a sound store |
| DaStore.Store.AdmitBatch | trillionnium/crates/trnm-data-availability/src/store.rs:468-654 | admission succeeds exactly for the stored batch itself or the author's next sequence within all quotas, and changes nothing on error |
| DaStore.Store.Readmit | trillionnium/crates/trnm-data-availability/src/store.rs:519-540 | a taken sequence admits only the very batch it holds, intact |
| DaStore.Store.InsertNext | trillionnium/crates/trnm-data-availability/src/store.rs:542-653 | a free sequence is inserted exactly when it is the next one within every quota |
| DaStore.Store.PrepareAttestation | trillionnium/crates/trnm-data-availability/src/store.rs:656-780 | the intent for the batch asked for is journalled before anything is signed, under the next ordinal, or its existing attestation is returned |
| DaStore.Store.CompleteAttestation | trillionnium/crates/trnm-data-availability/src/store.rs:782-887 | a signature is recorded exactly for the journalled body of a live batch, once |
| DaStore.Store.AdmitCertificate | trillionnium/crates/trnm-data-availability/src/store.rs:889-983 | exactly a valid certificate of a live batch by its author settles it, and no counter underflows |
| DaStore.Store.Settle | trillionnium/crates/trnm-data-availability/src/store.rs:936-972 | the batch leaves the queue and its author's outstanding quota |
| DaStore.Store.LatchUnavailable | trillionnium/crates/trnm-data-availability/src/store.rs:1680-1742 | every row not collected is latched unavailable, a certified one exactly when the bounded queue has room |
| DaStore.Store.AuditBatch | trillionnium/crates/trnm-data-availability/src/store.rs:1362-1376 | an intact or collected row always answers its state and changes nothing; any other is latched exactly when the queue has room |
| DaStore.Store.RepairBatch | trillionnium/crates/trnm-data-availability/src/store.rs:1378-1499 | exactly the content of the manifest repairs an unavailable batch, and restores the state it had earned |
| DaStore.Store.UpdateObligation | trillionnium/crates/trnm-data-availability/src/store.rs:1501-1678 | an obligation changes only as the update says, on a certified intact row |
| DaStore.Store.GarbageCollect | trillionnium/crates/trnm-data-availability/src/store.rs:1523-1616 | collection happens exactly from a certified intact row with a released obligation, both bounds passed and the exact permit |
| DaStore.ExtendLater | trillionnium/crates/trnm-data-availability/src/types.rs:1602-1628 | an extension moves an active obligation forward only |
| DaStore.ReleaseLater | trillionnium/crates/trnm-data-availability/src/types.rs:1630-1651 | a release happens only after both retention bounds have passed |
| DaTables.CountersCover | trillionnium/crates/trnm-data-availability/src/store.rs:936-945 | the queue and author counters cover every row they count |
| DaTables.JournalInsert | trillionnium/crates/trnm-data-availability/src/store.rs:724-768 | a new coordinate takes the next ordinal, so the ordinals stay exactly 1..watermark |
| DaTables.RewriteSound | trillionnium/crates/trnm-data-availability/src/store.rs:889-1742 | rewriting one row with matching counter changes keeps the whole invariant |
| DaAudit.AuditJournal | trillionnium/crates/trnm-data-availability/src/store.rs:2676-2792 | the audit accepts exactly journals whose entries bind their batches and whose ordinals are 1..watermark |
| DaAudit.AuditAccounting | trillionnium/crates/trnm-data-availability/src/store.rs:2832-2934 | the recount accepts exactly fresh rows whose queue and author counters are right |
| DaAudit.SoundJournal | trillionnium/crates/trnm-data-availability/src/store.rs:2676-2792 | in a sound store the journal audit passes |
| DaAudit.SoundAccounting | trillionnium/crates/trnm-data-availability/src/store.rs:2832-2934 | in a sound store the accounting audit fails only for a row whose content was changed |
| MerklePath.MerkleRoot | trillionnium/crates/trnm-data-availability/src/types.rs:1787-1817 | the level loop computes the recursive duplicate-final root, or the stated error |
| MerklePath.BuildPath | trillionnium/crates/trnm-data-availability/src/retrieval.rs:908-959 | the loop returns the canonical path of the index, or the range error |
| MerklePath.VerifyPath | trillionnium/crates/trnm-data-availability/src/retrieval.rs:961-1046 | the loop accepts exactly the paths that lead to the root |
| MerklePath.ProofExact | trillionnium/crates/trnm-data-availability/src/retrieval.rs:908-1046 | a proof verifies exactly when it names the count, an index inside it, the leaf there and its canonical path |
| NodeLedger.Replay | trillionnium/crates/trnm-checkpoint-store/src/node_commit_ledger_v1.rs:346-384 | replay accepts a sound disk and ends on its last record; what it accepts is chained from the anchor |
| NodeLedger.Owner.constructor | trillionnium/crates/trnm-checkpoint-store/src/node_commit_ledger_v1.rs:118-158 | an initialised directory satisfies the invariant with no records |
| NodeLedger.Owner.CleanRecords | trillionnium/crates/trnm-checkpoint-store/src/node_commit_ledger_v1.rs:689-704 | cleaning makes every record name durable, exactly when the disk lasts for one step per abandoned file and one more |
| NodeLedger.Owner.CleanRoot | trillionnium/crates/trnm-checkpoint-store/src/node_commit_ledger_v1.rs:706-723 | cleaning leaves one durable head, exactly when the disk lasts for one step per abandoned file and one more |
| NodeLedger.Owner.PublishHead | trillionnium/crates/trnm-checkpoint-store/src/node_commit_ledger_v1.rs:678-687 | a head is published only for a durable record, and is durable afterwards exactly when the disk lasts for its three or four steps |
| NodeLedger.Owner.RecoverInner | trillionnium/crates/trnm-checkpoint-store/src/node_commit_ledger_v1.rs:323-439 | recovery changes nothing before every check has passed and adds no record; it succeeds exactly when the tip meets the step and the disk lasts for the repair |
| NodeLedger.Owner.Repair | trillionnium/crates/trnm-checkpoint-store/src/node_commit_ledger_v1.rs:417-431 | the head catches up only after the records directory was synced, exactly when the disk lasts for the repair |
| NodeLedger.Owner.Recover | trillionnium/crates/trnm-checkpoint-store/src/node_commit_ledger_v1.rs:296-309 | recovery succeeds exactly when the owner is not fenced, the tip meets the step and the disk lasts; a failed one fences the owner |
| NodeLedger.Owner.WriteRecord | trillionnium/crates/trnm-checkpoint-store/src/node_commit_ledger_v1.rs:246-254 | one record is written aside, renamed and synced, exactly when the disk lasts for three steps |
| NodeLedger.Owner.Append | trillionnium/crates/trnm-checkpoint-store/src/node_commit_ledger_v1.rs:217-272 | an append is acknowledged exactly when the owner is not fenced, the ledger stands at an end of the step and the disk lasts; from the source it adds exactly one record, and the target is durable |
| NodeLedger.Owner.Extend | trillionnium/crates/trnm-checkpoint-store/src/node_commit_ledger_v1.rs:231-271 | a written record is read back as the new durable head, exactly when the disk lasts for nine steps |
| NodeLedger.Owner.Resolve | trillionnium/crates/trnm-checkpoint-store/src/node_commit_ledger_v1.rs:274-290 | resolution names the end of the step the ledger stands at, exactly when it stands at one, the owner is not fenced and the disk lasts |
| NodeLedger.Owner.OpenExpected | trillionnium/crates/trnm-checkpoint-store/src/node_commit_ledger_v1.rs:167-211 | opening for a step yields source or target exactly when the ledger stands there and the disk lasts for the repair |
| NodeLedger.Owner.PowerCut | trillionnium/crates/trnm-checkpoint-store/src/node_commit_ledger_v1.rs:672-687 | a power cut keeps every durable record and leaves a sound disk |
| NodeLedger.CutSound | trillionnium/crates/trnm-checkpoint-store/src/node_commit_ledger_v1.rs:672-687 | whatever unsynced names are lost, no surviving head is ahead of the surviving records |
| NodeLedger.RunStep | trillionnium/crates/trnm-checkpoint-store/src/node_commit_ledger_v1.rs:217-439 | any sequence of appends, resolutions, restarts and power cuts for one step stands at source or target; an append is acknowledged exactly when its conditions hold, all together add at most one record, and from an acknowledgement on it is durable |
| NodeLedger.Converge | trillionnium/crates/trnm-checkpoint-store/src/node_commit_ledger_v1.rs:167-439 | after any attempts and failures, one restart and one append on a disk that lasts long enough leave exactly one durable record more than the step started from |
| Checkpoints.TipFixesChain | trillionnium/crates/trnm-checkpoint-types/src/record.rs:156-179 | chains that end in one checkpoint agree as far as both go, and are equal when they start at the same generation |
| CheckpointAuthority.Replay | trillionnium/crates/trnm-checkpoint-store/src/lib.rs:474-519 | replay succeeds exactly on a chained log and yields its map and hash |
| CheckpointAuthority.ScopeChain | trillionnium/crates/trnm-checkpoint-store/src/lib.rs:474-519 | each scope's accepted targets are one chain of generations 0, 1, 2, … ending in its current value |
| CheckpointAuthority.Authority.PersistAnchor | trillionnium/crates/trnm-checkpoint-store/src/lib.rs:562-624 | the anchor is written aside, renamed and synced, exactly as far as the disk lasts |
| CheckpointAuthority.Authority.Open | trillionnium/crates/trnm-checkpoint-store/src/lib.rs:201-268 | opening serves the replay exactly when the journal is readable and the disk lasts, and otherwise fails closed; an anchor behind the durable log stays behind exactly when the reopening does not overtake |
| CheckpointAuthority.ReopenSound | trillionnium/crates/trnm-checkpoint-store/src/lib.rs:521-560 | an anchor behind the durable log is moved past it exactly when a readable journal with an unsynced visible record is reopened for two disk steps or more |
| CheckpointAuthority.Authority.Reconcile | trillionnium/crates/trnm-checkpoint-store/src/lib.rs:521-560 | an older anchor is moved up to the journal |
| CheckpointAuthority.Authority.Load | trillionnium/crates/trnm-checkpoint-store/src/lib.rs:308-324 | a load answers from the replay of the journal |
| CheckpointAuthority.Authority.Advance | trillionnium/crates/trnm-checkpoint-store/src/lib.rs:326-400 | an advance is acknowledged exactly when it is due and the disk lasts; record and anchor are then durable, and a refused one changes nothing |
| CheckpointAuthority.Authority.Append | trillionnium/crates/trnm-checkpoint-store/src/lib.rs:357-399 | a fitting record is written, synced and anchored, or the authority is poisoned |
| CheckpointAuthority.Authority.PowerCut | trillionnium/crates/trnm-checkpoint-store/src/lib.rs:357-400 | a power cut keeps every durable record |
| CheckpointAuthority.AnchorOvertakes | trillionnium/crates/trnm-checkpoint-store/src/lib.rs:357-543 | from an empty directory, an advance whose sync fails and a reopening without a power cut put the anchor past the durable log, and a power cut then leaves a journal that never opens |
| CheckpointAuthority.Overtake | trillionnium/crates/trnm-checkpoint-store/src/lib.rs:201-543 | the authority itself runs into that state and after a power cut refuses to open |
| CheckpointAuthority.AnchorBehindExactly | trillionnium/crates/trnm-checkpoint-store/src/lib.rs:201-624 | the anchor is behind the durable log at every point of a run exactly when no reopening overtook it |
| CheckpointAuthority.CutAndReopen | trillionnium/crates/trnm-checkpoint-store/src/lib.rs:201-268 | after any power cut, reopening keeps every durable record and fails only on a torn tail, a missing anchor, an anchor that had overtaken the log, or the disk |
| CheckpointAuthority.Run | trillionnium/crates/trnm-checkpoint-store/src/lib.rs:326-624 | in any run the map is the replay of the journal while serving; each operation is answered with exactly the record of an acknowledged advance, which is durable at every later point; the anchor is behind throughout exactly when no reopening overtook it |
| CheckpointAuthority.AcknowledgedLasts | trillionnium/crates/trnm-checkpoint-store/src/lib.rs:326-400 | an acknowledged advance is durable at every later point of a run |

## Left out

- SHA-256, JSON and Borsh encodings, and Ed25519 arithmetic: digests are injective constructors and signatures opaque predicates.
- SQLite mechanics, file locks, inode and permission fences, sockets and request framing: plumbing around the modelled steps.
- Ledger and node-ledger initialisation cuts: the runs start from an initialised directory.
- Row-checksum tamper detection beyond the one content-corruption step that drives the latch and repair of a batch.
- Proof-driven chunk repair and retrieval request and response checks of the data-availability kernel: single-branch validation around the modelled paths.
- Update in place of the Python state dictionary: one command maps a state value to a state value. The source works on a copy and discards it when a command is refused, so partial updates are not observable there either.
- The missing-object and wrong-status refusals of the twelve commands share one error code here, as they share STATE in the source; codes of the batch re-derivation check are reported as one.
- Artifact, bundle and family fields a published release only stores: nothing modelled reads them.
- BlockLedger.Ledger.Admit: size limits, task, transaction and receipt roots and work evidence are one opaque predicate, because each is proved in its own module.
- BlockExecution.CloseBlock: whether every encoded key and value is within 160 and 4096 bytes is an opaque predicate of the state, because the JSON encoding is not modelled.
- LedgerTips.TipState: the encoding of ledger states as stored rows is any function under which the tree's execution is block execution.
- CheckpointAuthority.Authority.Advance: stale temporary anchor files are not modelled; a clash is one more disk failure.
- evaluation, model and inference scripts, benchmarks, the control plane, audit events and the mempool demonstration: statistics, drivers and reporting.
