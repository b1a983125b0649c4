# The chain state machine, the mempool and the protocol between them

Dafny 4.11 models of the core of a proof-of-work node, and proofs of what they guarantee.

The chain. A node keeps a tree of blocks, the active chain by height, a tip, running totals, a UTXO set, a block cache
and a database. `ChainModel.Deliver` is the simple form: the active chain is the ancestor path of the tip, and every
total, the UTXO set, the height index and the stored record are functions of that path. `Node.Blockchain` is the form of
the program: fields updated in place, loop by loop, through extension, fork choice, the two-phase reorganisation with
its two rollback paths, and cache trimming. `AddBlock` is proved to refine `Deliver` from every state within the invariant,
with one exact exception (grafts, below). What holds over whole runs (finality, monotone fork choice, convergence,
conservation, restart) is then proved of the simple form. Conservation is part of the refinement: after every delivery
total supply is the sum of the rewards of heights 0 to the tip and total burned the sum of the burns of the active
blocks, whatever was connected and disconnected on the way, and every subtraction the program checks is proved not to
fail.

The mempool. `Pool.Mempool` keeps four structures in agreement through admission, replacement, eviction, confirmation,
expiry and block selection.

The protocol. `Seqlock` interleaves the atomic steps of any number of chain updates and mempool admissions.

Results that are not what one would expect, each with its exact condition:

- A node that has created its genesis block and neither reorganised nor restarted credits genesis no work. Its fork
  choice differs from the documented rule exactly on ties against the larger hash and on forks one unit short with the
  smaller hash (`UncreditedDeviates`); two such nodes can end on different tips from the same blocks
  (`FreshNodesDiverge`).
- A failed reorganisation can leave height entries above the tip, exactly when it stops early at a block two or
  more above the old tip (`FailedReorgRestores`, `FailedReorgLeavesEntry`). Growing past them mends the index
  (`ExtendingMendsIndex`), and so does a restart (`Restart`).
- While such an entry names an ancestor of a fork block, the fork point found is that entry and not the common ancestor
  (`ForkPointIs`). If the fork wins and its blocks above the entry validate on the active chain's UTXO set, it is
  grafted: the node then holds two chains joined, and represents none (`Grafts`, `AddBlock`, `GraftInstance`), and a
  restart does not mend that (`RestartGrafted`). In every other case a delivery leaves a node that represents a chain.
- A rejected mempool submission changes the pool exactly when the 99 cheapest other transactions are not enough room and
  the 100 cheapest are (`RejectionIsClean`).
- A rollback leaves the work total too high; a restart corrects it. Rewards and burns of blocks that were not in memory
  stay in the totals (`RollbackAndRestart`).
- Cleaning up the mempool while another update's reorganisation is half-way can keep an invalid transaction if that
  reorganisation then fails (`HalfWayRevalidationMisleads`); if none such fails it cannot (`QuiescentPoolIsValid`).
- The stored record keeps 64 of the burn counter's 128 bits; a restart loses nothing exactly while the total fits
  (`Restart`).

Conventions. Hashes are 32-byte strings read as big-endian numbers. Integers are unbounded; 64- and 128-bit saturation,
capping and truncation are written out where the program has them. Additions the program leaves unchecked (the running
work total) are covered by the assumption `WorkFits` that the lineage's work fits 128 bits. Block validation, the
emission curve, the fee split and the difficulty adjustment are parameters (`Ledger.Rules`); what is assumed of them is
`Ledger.Sound`: the genesis block pays no fees and is pinned by the checkpoint table, a valid block spends and creates
nothing that exists already, and no block above genesis is valid without its parent.

| file | content |
|---|---|
| Ledger, Lineage, ForkChoice, MedianTime | blocks, UTXO set, sums over chains; block trees; fork choice; timestamps |
| ChainModel, ChainInvariant, ChainRuns | the simple chain machine, its invariant, whole runs |
| Receipt | what an accepted block has passed, what a reorganisation costs, checks and returns |
| Windows, Convergence, WorkAccounting | difficulty windows; arrival order; cumulative work |
| FailedReorg, GraftedReorg | what failed attempts leave, and what can come of it |
| ChainImage, Blockchain, Recovery | what a node holds for a chain; the in-place node; restart and rollback |
| OrderedKeys, FeeOrder, Admission, AdmissionLaws, Selection, Mempool | the mempool |
| Seqlock, Locators | the update protocol; output locators |

## Model

| member | source | states |
|---|---|---|
| `Ledger.DisconnectUndoesConnect` | src/storage/utxos.rs:653-770 | disconnecting a block gives back the UTXO set it was connected to, provided its outputs and key images were new: the one condition reorganisation relies on. What the set holds is pinned by ReplaySpent and ReplayOutputs |
| `Ledger.RecordOutputsIs` | src/storage/utxos.rs:690-735 | connecting adds exactly the block's outputs, each at the block's height, and leaves every other output alone |
| `Ledger.ReplaySpent` | src/storage/utxos.rs:690-735 | after a chain a key image is spent if and only if a transaction of one of its blocks, coinbases aside, carries it |
| `Ledger.ReplayOutputs` | src/storage/utxos.rs:690-735 | after a chain an output exists if and only if a transaction of one of its blocks creates it, at the height of the last block to do so |
| `Ledger.SpentOnce` | src/storage/utxos.rs:690-735 | on a chain whose blocks were fresh when connected no key image is spent by two blocks |
| `Ledger.CreatedOnce` | src/storage/utxos.rs:690-735 | nor is an output created by two |
| `Ledger.WorkOfTarget` | src/chain.rs:4113-4129 | every target is worth at least one unit of work and at most the largest 128-bit number; WorkIsQuotient says exactly how much |
| `Ledger.WorkIsQuotient` | src/chain.rs:4113-4129 | the work of a target is the largest 128-bit number divided by the target's top 128 bits and rounded down, and the maximum if those are zero |
| `Ledger.WorkAntitone` | src/chain.rs:4113-4129 | a harder (smaller) target is never worth less work |
| `Ledger.WorkGrows` | src/chain.rs:4113-4129 | a chain has strictly more work than any proper prefix of it |
| `Ledger.TotalFeesIsCapped` | src/chain.rs:4151-4158 | summing fees with saturation at every step equals the plain sum capped once at 64 bits |
| `Ledger.BurnStarts` | src/chain.rs:4131-4175 | a block burns nothing below the activation height or without fees, and otherwise the burned share of its capped fee total, the congested share exactly when it fills at least 80 percent of 2 MiB |
| `Ledger.SumsAppend` | src/chain.rs:2156-2220 | what one connected block adds to work, burn, transaction count and UTXO set |
| `Ledger.SumsDrop` | src/chain.rs:2671-2738 | what disconnecting the last block takes back: exactly what it added, so no checked subtraction can fail |
| `Ledger.TotalsFit` | src/chain.rs:2178-2213 | with 64-bit rewards, burns and heights the supply and burn totals fit 128 bits, so no checked addition can fail |
| `Lineage.LineageUnique` | src/chain.rs:3941-3976 | in a block tree the path from genesis to a block is determined by the block |
| `Lineage.MeetIsHighestCommonAncestor` | src/chain.rs:3941-3976 | the fork point is the highest common ancestor: the two chains share exactly the blocks up to it |
| `Lineage.AttachKeepsTree` | src/chain.rs:1896-1925 | a new block whose parent is stored one height below keeps the store a tree and changes no existing ancestor path |
| `ForkChoice.AcceptanceMonotone` | src/chain.rs:144-216 | over all three tiers a shallower, heavier fork against a lighter chain is accepted whenever the deeper one was; CostFree and CostCurve say exactly which are accepted |
| `ForkChoice.CostFree` | src/chain.rs:155-194 | a fork at most 10 deep, and any fork below height 1000, is accepted exactly when it is within the depth cap and has no less work |
| `ForkChoice.CostCurve` | src/chain.rs:196-216 | from height 1000 on a fork deeper than 10 and at least 10 + 20k deep needs more than 2^k times the work, k at most 40, the bound saturating at 128 bits; and up to the next step, or without end at k = 40, more than that is also enough |
| `ForkChoice.AcceptedHasWork` | src/chain.rs:144-216 | an accepted reorganisation never loses work and never exceeds the depth cap |
| `ForkChoice.MultiplierDoubles` | src/chain.rs:196-202 | the required factor doubles every 20 blocks of depth until it is capped at 2^40 |
| `ForkChoice.FloorMonotone` | src/chain.rs:2603-2607 | the finality floor does not drop as long as the chain stays above it |
| `MedianTime.MedianByCount` | src/chain.rs:1438-1442 | the sorted middle element is at least m exactly when more than half the timestamps are |
| `MedianTime.BackwardsMedian` | src/chain.rs:1428-1446 | walking the lineage backwards gives the median of the last eleven ancestors: the order of collection does not matter |
| `MedianTime.MedianMonotone` | src/chain.rs:2020-2029 | median-time-past never decreases along a lineage whose blocks pass the timestamp rule |
| `MedianTime.MedianStrictOverSix` | src/chain.rs:2020-2029 | it strictly increases over every six consecutive blocks |
| `MedianTime.LaterThanEveryAncestorMedian` | src/chain.rs:2020-2029 | a block is later than the median-time-past enforced on every one of its ancestors |
| `ChainModel.Screen` | src/chain.rs:1881-2118 | a block that passes the receipt checks is new, attaches one above a stored parent, spends nothing already spent on the active chain and respects its own lineage's median-time-past; Receipt.RefusalMeans and Receipt.AcceptedIff say exactly which blocks get which verdict |
| `ChainModel.FirstBad` | src/chain.rs:2766-2961 | the replay stops at the first fork block that fails validation or its target, every block below having passed |
| `ChainInvariant.EvictFromKeeps` | src/chain.rs:346-382 | cache trimming removes a block and its height entry together, only above genesis and more than 200 below the tip |
| `ChainInvariant.EvictSane` | src/chain.rs:346-382 | trimming keeps everything from 57 below the finality floor up in memory: no block a later reorganisation must disconnect is evicted |
| `ChainInvariant.ExtendedSane` | src/chain.rs:2139-2232 | extending the tip keeps the whole chain invariant, the active chain becomes the old one plus the block, and of the stray height entries exactly the one at its height is gone |
| `ChainInvariant.ReorganisedSane` | src/chain.rs:2628-3393 | a reorganisation from a fork point on the active chain whose blocks replay cleanly keeps the whole chain invariant; the active chain becomes the block's own lineage, and stray height entries up to its height are gone |
| `ChainInvariant.DeliverSane` | src/chain.rs:1879-3620 | delivering any block that is not grafted, accepted or not, keeps the chain invariant; height entries left by failed reorganisations only ever name stored blocks above the tip |
| `ChainInvariant.ForkPointIs` | src/chain.rs:3941-3976 | the fork point found in the height index is the highest common ancestor if and only if no entry left by a failed reorganisation names an ancestor of the block, and is above the tip otherwise |
| `ChainInvariant.HonestIsNotGrafted` | src/chain.rs:3941-3976 | a block none of whose ancestors such an entry names, and every block on top of the tip, is not grafted |
| `ChainRuns.StepPath` | src/chain.rs:1879-3620 | one delivery changes the active chain in one of three ways: not at all, by the block on top, or to the block's own lineage after winning fork choice within the depth and floor rules |
| `ChainRuns.TipOnlyImproves` | src/chain.rs:2492-2503 | on a node that has credited genesis every change of tip is a strict gain in (work, then smaller hash) |
| `ChainRuns.RunOnlyImproves` | src/chain.rs:2492-2503 | on such a node, over any sequence of deliveries the tip stays or ends strictly ahead |
| `ChainRuns.RunTip` | src/chain.rs:2492-2503 | on any node a run ends on the tip it started from or on a block that was not stored then |
| `ChainRuns.NoReturn` | src/chain.rs:2492-2503 | on any node no sequence of deliveries returns to a tip it has left |
| `ChainRuns.ReorgIsShallow` | src/chain.rs:2603-2618 | every accepted reorganisation disconnects at most 143 blocks, all of them in memory |
| `ChainRuns.StepKeepsFinal` | src/chain.rs:2603-2618 | one delivery keeps the finality floor from dropping and every block up to it in place |
| `ChainRuns.RunKeepsFinal` | src/chain.rs:2603-2618 | finality over whole runs: the floor never drops and no active block at or below it is ever replaced |
| `ChainRuns.RunKeepsStore` | src/chain.rs:2123-2133 | no block once stored is lost or altered by any run |
| `ChainRuns.RunKeepsPinned` | src/chain.rs:1947-1963 | no run stores, on any branch, a block that contradicts the hardcoded checkpoints |
| `Receipt.RefusalMeans` | src/chain.rs:1879-2000 | a block is already known exactly when it is stored, an orphan exactly when it is new, above genesis and its parent is missing, an error exactly when it attaches at an unpinned or rightly pinned height and the validator errs; every other refusal is a rejection |
| `Receipt.AcceptedIff` | src/chain.rs:1879-2118 | if the node sees the window, a block passes receipt if and only if it attaches, contradicts no pin, is valid against its parent, the active UTXO set and the last checkpoint, fewer than six of its last eleven ancestors are as late as it, and from height 2 on its target is the one its own last 144 ancestors demand |
| `Receipt.RunKeepsTargets` | src/chain.rs:2045-2118 | over any run in which the node sees the window of each block it accepts, every stored block on every branch carries the target its own ancestors demand |
| `Receipt.ReorgChecks` | src/chain.rs:2766-3130 | every block a reorganisation connects, the triggering one included, is valid against its own parent and the UTXO set of its own ancestors, and carries the target they demand if the shared heights of its window are indexed |
| `Receipt.ReorgCosts` | src/chain.rs:196-216 | on every state a run can reach, with 1000 blocks or more, a delivery switches to a fork deeper than 10 and at least 10 + 20k deep only if it has more than 2^k times the work accounted for the active chain, so more than double from depth 30 on |
| `Receipt.ForkVerdict` | src/chain.rs:2455-2618 | the status of every fork block that passed receipt, each if and only if: kept aside unless its chain has more work or as much and the smaller hash; too deep if the cost curve turns it away; switched to if it also leaves the chain at or above the last multiple of 144 and replays |
| `Receipt.ReorgReturns` | src/chain.rs:3580-3599 | a reorganisation returns exactly the transactions of the disconnected blocks, coinbases aside, each as often as it occurred |
| `Receipt.NoDoubleSpend` | src/storage/utxos.rs:690-735 | within the chain invariant, so on every state a run can reach, no key image is spent by two blocks of the active chain |
| `Receipt.CheckpointFollows` | src/chain.rs:2309-2349 | the recorded checkpoint never goes back, never passes the tip, and stays the last boundary of the chain as long as the chain grows block by block |
| `Receipt.EvictTrims` | src/chain.rs:346-382 | trimming removes the lowest cached heights above genesis first, never one of the last 200, one block each, and stops exactly at 500 cached blocks or when none is left to remove |
| `Windows.PickIsAncestors` | src/chain.rs:3623-3640 | a difficulty window equals the block's own recent ancestors exactly when all their heights can be seen |
| `Windows.MainWindow` | src/chain.rs:3623-3640 | a tip extension is checked against its own ancestors exactly when their heights are indexed |
| `Windows.ForkReceiptWindow` | src/chain.rs:2042-2106 | a fork block is checked on arrival against its own ancestors when they are in memory and no stray height entry names one of them |
| `Windows.ReplayWindow` | src/chain.rs:2802-2831 | so is every fork block on replay, and the triggering block (lines 3096-3123), exactly when the shared heights are indexed |
| `Windows.CutWindow` | src/chain.rs:2053-2106 | if an ancestor of a fork block down to the fork point is not in memory, the window is genesis, if in range and indexed, and the ancestors above the highest missing one, less as many as the range leaves out |
| `Windows.StrayWindow` | src/chain.rs:2053-2106 | entries a failed reorganisation left above the tip can stand in for a fork on top of it: the window is still the block's own ancestors if they name them and hold them in memory |
| `Windows.WindowsAgree` | src/chain.rs:2038-2106 | path independence: the same block faces the same history as a tip extension, on arrival as a fork and on replay |
| `Convergence.Converge` | src/chain.rs:2492-2540 | convergence: on an always-valid tree of height at most 100, nodes that have credited genesis, start alike and receive the same blocks in any parent-first orders, with any repetitions, end on the same chain, whose tip is the best block delivered |
| `Convergence.FollowStep` | src/chain.rs:1879-3620 | one delivery keeps a node on the best block it has stored |
| `Convergence.PassesReceipt` | src/chain.rs:1881-2118 | every block of such a tree passes every receipt check once its parent is stored, whatever the active chain is |
| `Convergence.BestUnlessRefused` | src/chain.rs:2492-2618 | on a node that has credited genesis, at any height and with any stray entries: the tip is the best stored block again after a delivery exactly when that block is not a winning fork turned away for depth, floor or a failing block |
| `WorkAccounting.UncreditedDeviates` | src/chain.rs:737-762 | an uncredited node decides otherwise exactly on ties against the larger hash and on forks one unit short with the smaller hash |
| `WorkAccounting.FreshNodesDiverge` | src/chain.rs:737-762 | two nodes that have only created their genesis block and receive the same two equal-work blocks in opposite orders end on different tips, for every two such blocks |
| `WorkAccounting.FreshNodesDivergeInstance` | src/chain.rs:737-762 | such blocks exist: a tree of three blocks on which the two nodes end on different tips |
| `FailedReorg.FailedReorgRestores` | src/chain.rs:2967-3245 | a failed reorganisation restores tip, totals, UTXO set, cache and database. The height index gains exactly the fork blocks connected above tip and fork point if it stopped early, and loses exactly the older strays up to the block if only the last difficulty re-check failed; it is restored if and only if there are none |
| `FailedReorg.ShortForksLeaveNothing` | src/chain.rs:3063-3066 | a block at most one above the tip is never grafted and never adds a stray height entry |
| `FailedReorg.FailedReorgLeavesEntry` | src/chain.rs:3063-3066 | an instance with four blocks where the restored index names a fork block one above the tip |
| `FailedReorg.ExtendingMendsIndex` | src/chain.rs:2139-2232 | what a failed reorganisation left is mended by growth: after any run of tip extensions exactly the entries above the new tip are left, so none are if and only if the run has outgrown them |
| `FailedReorg.ExampleUniverse` | src/chain.rs:2492-2540 | forked trees that satisfy the assumptions of convergence exist |
| `GraftedReorg.GraftSkipsRewards` | src/chain.rs:2645-2744 | a graft pays the rewards of the old chain and of the fork above the fork point only: supply is conserved if and only if the heights between pay nothing |
| `GraftedReorg.GraftInstance` | src/chain.rs:3941-3976 | one block after FailedReorgLeavesEntry the fork point found is 2 and not 0: the block is connected on the wrong parent, the index is no lineage, a spent key image is missing, a reward is missing and the stored index has a gap |
| `GraftedReorg.LeftStateReached` | src/chain.rs:1879-3620 | a run gets there: the four blocks delivered in order to a node with only a credited genesis block leave exactly the state the instance starts from |
| `ChainImage.GenesisWellFormed` | src/chain.rs:720-788 | a node that has just created its genesis block satisfies the chain invariant |
| `ChainImage.CountersSettle` | src/chain.rs:3324-3390 | subtracting what was disconnected and adding what was connected gives the block and transaction counts of the blocks now connected; the error branches are not taken |
| `ChainImage.RestoredIndex` | src/chain.rs:3063-3080 | clearing and refilling the index after a failed attempt gives the old index plus the strays and connected blocks outside the cleared range |
| `ChainImage.SwitchedIndex` | src/chain.rs:3424-3500 | setting the fork's heights and removing those above the new tip turns the stored index of the old chain into that of the new one |
| `Node.Blockchain.InitGenesis` | src/chain.rs:720-788 | the object represents the one-block chain; the in-memory work total starts at 0 while the stored record says 1 |
| `Node.Blockchain.FindForkPoint` | src/chain.rs:3941-3976 | ends on every store, cyclic ones included, and on a block tree returns the highest ancestor of the block that the height index names, by an active entry or a stray one |
| `Node.Blockchain.CollectForkChain` | src/chain.rs:3980-4008 | ends on every store, and on a block tree returns exactly the linked path above the fork point in ascending order |
| `Node.Blockchain.ForkCumulativeWork` | src/chain.rs:3828-3887 | the saturating walk back to genesis computes one plus the work of the whole lineage, capped at 128 bits; its step bound is never reached |
| `Node.Blockchain.MedianTimePastOfLineage` | src/chain.rs:1428-1446 | the median timestamp of the block's own last eleven ancestors |
| `Node.Blockchain.GetDifficultyBlocks` | src/chain.rs:3623-3640 | the cached blocks of the last 144 active heights, in ascending order |
| `Node.Blockchain.ReceiptHistory` | src/chain.rs:2038-2106 | the history a received block's target is checked against, including what the in-memory fork walk assembles when it meets an uncached block or a stray height entry |
| `Node.Blockchain.ScreenBlock` | src/chain.rs:1881-2118 | the receipt checks give the verdict of the specification, in order, for every block; that verdict is pinned by Receipt.RefusalMeans and Receipt.AcceptedIff |
| `Node.Blockchain.StoreBlock` | src/chain.rs:2123-2133 | the block is kept in memory and in the database and nothing else changes |
| `Node.Blockchain.EvictBlockCache` | src/chain.rs:346-382 | removes the lowest cached heights first, as many as exceed 500, sparing genesis and the last 200 |
| `Node.Blockchain.Extend` | src/chain.rs:2139-2363 | after extending, index, tip, totals, UTXO set, cache and database are those of the longer chain |
| `Node.Blockchain.DisconnectTo` | src/chain.rs:2645-2744 | after disconnecting, index, UTXO set and emission totals are those of the chain up to the fork point, or of the whole chain if that is above the tip, and every disconnected block is returned, highest first |
| `Node.Blockchain.ConnectFork` | src/chain.rs:2766-2931 | connects fork blocks until one fails; index, UTXO set and emission totals are those of what was left of the active chain followed by the fork blocks reached |
| `Node.Blockchain.RollBack` | src/chain.rs:2972-3091 | undoing the fork and re-applying the old blocks restores UTXO set, tip and totals exactly, for both rollback paths, and the index up to entries above the cleared range |
| `Node.Blockchain.Adopt` | src/chain.rs:3255-3393 | after adopting the fork, index, tip, all totals and counters and the UTXO set are those of the blocks now connected |
| `Node.Blockchain.PersistReorg` | src/chain.rs:3424-3531 | the batch sets the fork's stored heights, drops those above the new tip and writes its record, the last checkpoint unchanged |
| `Node.Blockchain.TryReorg` | src/chain.rs:2628-3393 | succeeds exactly when every fork block and the triggering block replay; otherwise tip, totals and UTXO set are as before and the index has exactly the specified stray entries |
| `Node.Blockchain.ChooseFork` | src/chain.rs:2455-2618 | fork choice, depth rule and finality floor give the verdict of the specification, in order, with the fork's work and fork point; that verdict is pinned by Receipt.ForkVerdict |
| `Node.Blockchain.AddFork` | src/chain.rs:2455-3618 | decides a fork block as specified, or grafts it exactly when the specification says so |
| `Node.Blockchain.GraftedRepresentsNothing` | src/chain.rs:3424-3531 | what a graft leaves represents no chain whatsoever |
| `Node.Blockchain.GraftKeeps` | src/chain.rs:2645-3531 | what survives a graft: every stored block, a tip that wins the fork choice against the old one, and the whole old chain at its heights, in memory and in the database, the finality floor included |
| `Node.Blockchain.AddBlock` | src/chain.rs:1879-3620 | one delivery in place, of any block in any state within the invariant: the object represents a chain again if and only if the block is not grafted; then status, new chain, index, tip, totals, UTXO set, cache and database are those specified and the invariant is kept, and otherwise it holds exactly the two chains joined |
| `Recovery.RecoveredWellFormed` | src/chain.rs:994-1131 | a restart on the active chain, or on any part of it that reaches up to the recorded checkpoint, keeps the whole invariant, with the last 200 heights in memory and no stray entries |
| `Recovery.RecomputeTotalDifficulty` | src/chain.rs:3914-3921 | from an intact database: one plus the work of every block above genesis, capped at 128 bits |
| `Recovery.RebuildUtxoSet` | src/chain.rs:994-1137 | on every database: what is stored up to the first block that does not link to the highest one below is replayed, heights without a block passed over, the last 200 kept in memory; at such a block tip, record and stored index are cut back to the height below |
| `Recovery.RebuildsChain` | src/chain.rs:994-1137 | as far as a stored chain goes, that replay gives its UTXO set, index, cache and counts, and no link breaks |
| `Recovery.StopsAtBreak` | src/chain.rs:1027-1109 | after a stored chain, and possibly a gap, a block with another parent ends the replay with exactly the chain replayed, and the cut names its last hash at the height below that block |
| `Recovery.Truncate` | src/chain.rs:1027-1109 | a broken link cuts the stored index above it and moves tip and record to the block before it, keeping the totals |
| `Recovery.LoadFromDatabase` | src/chain.rs:827-986 | on every database: exactly when loading is fresh, successful or an error, what is loaded and where it is cut; from a database that holds a chain the loaded state is that of the chain, whatever work total was recorded, with the recorded supply and burn |
| `Recovery.LoadsOwnChains` | src/chain.rs:827-986 | a database that holds a chain of this network loads, one of another network is refused, and so is one with blocks but no record; only an empty one is a fresh start |
| `Recovery.RecoveredHolds` | src/chain.rs:827-986 | exactly the last 200 heights below the tip, and the tip, come back into memory |
| `Recovery.Reload` | src/chain.rs:827-986 | a node started from a database that holds a chain represents that chain if and only if the recorded supply and burn are the chain's and the burn fits 64 bits, whatever work total was recorded |
| `Recovery.Restart` | src/chain.rs:827-986 | a restart comes back with the live tip, UTXO set and database, and with the live totals exactly when genesis was credited and the burn total fits 64 bits; it represents the live chain, now with genesis credited and without stray height entries, if and only if the burn total fits |
| `Recovery.UnwindAll` | src/chain.rs:1635-1727 | with every block above the target in memory, disconnecting leaves the UTXO set, supply and burn of the shortened chain |
| `Recovery.RollbackReach` | src/chain.rs:1611-1628 | every block a rollback must disconnect is in memory if the target is at most 58 below the finality floor |
| `Recovery.RollbackToHeight` | src/chain.rs:1604-1838 | refused exactly below the recorded checkpoint, nothing at or above the tip; otherwise the exact new index, tip, UTXO set, emission totals and record, blocks not in memory being passed over, and the totals that stay behind |
| `Recovery.RollbackReturns` | src/chain.rs:1636-1660 | a rollback hands back exactly the transactions of the disconnected blocks that were in memory, coinbases aside |
| `Recovery.RollbackNeedsRestart` | src/chain.rs:1790-1828 | with every disconnected block in memory the rolled-back node's work total is too high, but its database is intact for the shortened chain |
| `Recovery.RollbackAndRestart` | src/chain.rs:1604-1838 | rolling back to any permitted target and then restarting gives the tip, UTXO set and work total of the shortened chain and keeps the invariant; the node represents that chain if and only if the blocks above the target that were not in memory paid no reward and burned nothing modulo 2^64, and the burn total fits 64 bits |
| `Recovery.RestartGrafted` | src/chain.rs:827-1109 | a restart does not mend a graft: the first load is cut to the old tip's hash at the fork point's height, and the next load is refused |
| `FeeOrder.Rate` | src/mempool.rs:238-242 | the largest 64-bit number whose product with the size in bytes does not exceed the scaled fee |
| `Admission.RateFloor` | src/mempool.rs:584-592 | every transaction that pays the base fee has a rate of at least a billion |
| `Admission.FeeTiers` | src/mempool.rs:567-583 | the fee multiplier is 1, 2, 4 or 8 exactly by quarter of the pool in use |
| `Admission.RemoveKeeps` | src/mempool.rs:752-767 | removing one transaction keeps the key images disjoint and removes exactly its own from their union |
| `Admission.InsertKeeps` | src/mempool.rs:732-746 | inserting a transaction without conflicts keeps the key images disjoint and adds exactly its own |
| `Admission.FreedIs` | src/mempool.rs:642-646 | the bytes the simulation credits to replacements are the bytes their removal frees |
| `Admission.PlanReduced` | src/mempool.rs:647-670 | skipping the replaced transactions in the simulation is planning on the pool without them |
| `Admission.SettledIs` | src/mempool.rs:799-857 | dropping the block's transactions and then one match per spent key image drops exactly the settled ones |
| `AdmissionLaws.PlanIsLeast` | src/mempool.rs:647-670 | the plan takes the lowest (rate, hash) entries and is the shortest such prefix that makes room |
| `AdmissionLaws.RejectionIsClean` | src/mempool.rs:629-671 | a rejected submission changes the pool if and only if it passes the size, fee and replacement checks and, beside what it does not replace, evicting the 99 cheapest does not make room for it and evicting the 100 cheapest does |
| `AdmissionLaws.RefusedWhen` | src/mempool.rs:555-628 | a submission is too large exactly above 500000 bytes, pays too little exactly below 1000, 2000, 4000 or 8000 per byte by quarter of the pool in use, and is a duplicate exactly when a pending transaction shares a key image and is not outbid by a quarter |
| `AdmissionLaws.EvictsCheapest` | src/mempool.rs:680-725 | whatever is evicted for a submission has a lower rate than everything that stays, or the same rate and a smaller hash |
| `AdmissionLaws.RejectionEmptiesPool` | src/mempool.rs:683-725 | an instance: a full pool of 100 transactions is emptied by a submission that is then rejected |
| `AdmissionLaws.ReplacementExtends` | src/mempool.rs:593-628 | an admitted transaction raises the rate of everything it replaces by at least a quarter |
| `AdmissionLaws.GrowsGeometrically` | src/mempool.rs:608-616 | after n replacements rate times 4^n is at least the first rate times 5^n |
| `AdmissionLaws.AtMost105Replacements` | src/mempool.rs:608-616 | a payment can be replaced at most 105 times in a row |
| `AdmissionLaws.As105Replacements` | src/mempool.rs:608-616 | and 105 are possible: in any pool larger than 4,000 bytes a concrete line of bids for one key image is admitted, each of 105 replacing the one before |
| `AdmissionLaws.RunOfReplacements` | src/mempool.rs:593-746 | after any run of submissions and removals from an empty pool, every line of replacements that ends in a pending transaction has at most 105 of them, each raising the rate by at least a quarter |
| `Selection.PackFits` | src/mempool.rs:948-982 | the selection consists of pending transactions and stays within both limits |
| `Selection.PackDescends` | src/mempool.rs:948-982 | it comes highest rate first, and highest hash first among equal rates |
| `Selection.PackIsGreedy` | src/mempool.rs:948-982 | a pending transaction is selected if and only if it fits, in bytes and number, beside everything selected above it |
| `Pool.Mempool.constructor` | src/mempool.rs:302-312 | an empty pool satisfies the invariant |
| `Pool.Mempool.Remove` | src/mempool.rs:752-767 | removes the transaction from all four structures and keeps them in agreement; an absent one changes nothing |
| `Pool.Mempool.EvictLowestFee` | src/mempool.rs:1099-1108 | removes exactly the entry with the lowest (rate, hash) |
| `Pool.Mempool.FindReplacements` | src/mempool.rs:593-628 | finds exactly the transactions in conflict, and reports whether all of them may be replaced |
| `Pool.Mempool.Simulate` | src/mempool.rs:640-671 | reports exactly whether the plan makes room, and changes nothing |
| `Pool.Mempool.MakeRoom` | src/mempool.rs:680-725 | evicts exactly the planned transactions; succeeds exactly when the plan has fewer than 100 |
| `Pool.Mempool.AdmitAfterChecks` | src/mempool.rs:555-749 | the outcome and the exact new contents in every case, and the invariant, part of which is that all pending transactions together have at most as many bytes as the pool; the byte count stays within the limit for nonempty transactions |
| `Pool.Mempool.Add` | src/mempool.rs:409-431 | the same behind the preflight checks; every earlier rejection and a repeated submission change nothing |
| `Pool.Mempool.RemoveConfirmed` | src/mempool.rs:799-857 | leaves precisely the transactions that are not in the block and share no key image with it |
| `Pool.Mempool.ShadowEvictInvalid` | src/mempool.rs:897-927 | leaves precisely the transactions that still validate |
| `Pool.Mempool.SetHeight` | src/mempool.rs:315-362 | leaves precisely the transactions that have waited at most 288 blocks |
| `Pool.Mempool.Clear` | src/mempool.rs:1047-1052 | an empty pool again satisfies the invariant |
| `Pool.Mempool.GetBlockTransactions` | src/mempool.rs:948-982 | returns the greedy selection: the conflict check never passes over anything, because pending key images are disjoint; the returned transactions have at most the given bytes and number, and no two share a key image |
| `FeeOrder.NewEntry` | src/mempool.rs:195-233 | an entry holds the transaction, its height and time, its size but at least 1, and its fee per byte in millionths rounded down and capped at 64 bits |
| `Admission.PendingCounted` | src/mempool.rs:195-203 | the pool's byte count is at least the bytes of all pending transactions |
| `Seqlock.AdmitterAdvances` | src/mempool.rs:1369-1395 | what an admitter may rely on after each of its own steps |
| `Seqlock.UpdaterKeepsAdmitter` | src/chain.rs:432-445 | no step of an update takes that away: a change is visible as an update in progress until the generation is bumped, then as a clean-up owed |
| `Seqlock.StepKeepsCore` | src/chain.rs:4034-4049 | every atomic step keeps the counters, the lock, the chain states and every admitter's knowledge consistent |
| `Seqlock.UnchangedBetweenReads` | src/chain.rs:4041-4049 | in every interleaving of any number of updates and admissions: if an admission finds the generation it loaded unchanged at its second check, no step between that load and the second check's first counter load changed the chain, not even temporarily |
| `Seqlock.CommitsAgainstCurrentState` | src/chain.rs:4041-4049 | in every interleaving, a committed admission validated against the state that was canonical when its second stability check began |
| `Seqlock.QuiescentPoolIsValid` | src/mempool.rs:1369-1395 | in every interleaving in which no re-validation runs inside a reorganisation attempt that then fails, once all updates have cleaned up every pending transaction is valid against the committed chain |
| `Seqlock.InvalidIsAccounted` | src/mempool.rs:897-927 | under the same condition, at any time an invalid pending transaction is one some update still owes a re-validation or a drop, or an attempt that a re-validation has run in is still open |
| `Seqlock.SerializedPoolIsValid` | src/bin/node.rs:1161-1211 | in particular if updates, each with its clean-up, are taken one at a time |
| `Seqlock.HalfWayRevalidationMisleads` | src/chain.rs:2645-2770 | the condition cannot be dropped: for every validity that only the second chain state violates, a run from the start ends with nobody at work and an invalid transaction pending |
| `Seqlock.MisledInstance` | src/chain.rs:2645-2770 | such a validity exists |
| `Locators.LocatorIsRank` | src/decoy.rs:57-74 | every listed output and nothing else has a locator, and its ordinal is the output's rank by (hash, index), modulo 2^32 |
| `Locators.OrderDoesNotMatter` | src/decoy.rs:57-74 | two listings with the same outputs, in any order and with any repeats, give the same locators |
| `Locators.LocatorsIdentify` | src/decoy.rs:57-74 | locators identify outputs if and only if there are at most 2^32 of them, and then follow their order |

## Left out

- Node.Blockchain.AddBlock: assumes that the lineage's work fits 128 bits, since the running total is added to without a check.
- Runs of deliveries end where a block is grafted (`ChainRuns.Deliverable`): from there on the node represents no chain, and what further blocks do to it is not modelled. `GraftKeeps` says what it keeps.
- Convergence.Converge: heights are bounded by 100, the mainnet depth cap, because beyond it winning forks may be turned away; `BestUnlessRefused` says exactly when, at every height. Genesis must be credited, because nodes that have not credited it need not converge (`FreshNodesDiverge`).
- Receipt.RunKeepsTargets: assumes that the node sees the difficulty window of each block it accepts. The cache keeps everything from 57 below the finality floor up, which is less than a window of 144, so after evictions it may not; `Windows.CutWindow` and `Windows.PickIsAncestors` say what the block is then checked against.
- Recovery.RollbackToHeight: the database is assumed to hold the target's block, as a coherent node's does.
- Two chain updates racing inside their critical sections: updates of the chain are taken one at a time, so the branch that re-evaluates a block after the tip moved under it is not modelled.
- In the update protocol steps are sequentially consistent, the generation counter is unbounded, and the bound of four admission attempts is not modelled, since giving up is allowed at any point.
- Every update that changed the chain is assumed to be followed by the mempool clean-up, as block handling, block submission and mining do.
- Cryptography, consensus validation, the difficulty formula, the fee split and the emission curve: parameters.
- The output index, the transaction index, the address-keyed output cache and its trimming, and output indexes wrapping at 256.
- Rolling finality behind its feature flag, the phase-2 stores and their checkpoints, pruning and cut-through.
- Database failures, halting on them, and flushing.
- The mempool's audit log, age-based expiry by wall clock, conflict removal by key-image list, fee percentiles and disk save and load: they would only add easy members beside `Remove` and `SetHeight`.
- The bounded list of chain events, sync flags, stall timers, async wrappers, RPC, networking and mining.
