# Verified model of the Cosmos tax indexer

The indexer reads a Cosmos chain block by block, stores its transactions, fees,
messages, taxable amounts and block events in a relational database, and exports
one address's history as CSV files for tax tools. This project models the parts
of it that carry state or arithmetic, and proves what they promise. `dafny verify
dfyconfig.toml` checks everything.

## What is modelled

**Indexing.** `Pipeline` is the block-indexing command as a state machine: the
enqueuer, the workers, the writer, the closer of the data channel and the two
producers of events, each taking one step at a time in any interleaving, over
bounded channels. `PipelineSafety` holds what every interleaving keeps and what a
run has achieved once its blocks are dealt with. `PipelineProgress` holds that the
blocks must all be dealt with once the block channel is closed; that all goroutines
together then make a bounded number of moves exactly when block events have an end;
and that after those moves the command has returned, or only the producer of block
events is left and waits for the chain to grow. `RangeProgress` holds that the range
loop gets through a range below the tip, in a bounded number of steps under any
schedule and whatever the node answers. `EveryRun` says before a run whether every
schedule will cover the range. `StartHeight` is the choice of the first height,
`WorkerOutcome` what a worker makes of the node's answers.

**Storage.** `Tables` are the tables with surrogate ids and foreign keys, and
`ViewOf` the same content under natural keys. `Ledger` is the theory of that view:
every write is a find-or-create, an assignment, an overwriting of set columns or a
deletion at one key, and lists of those act on each key separately. `Database` is
the code that stores a block or a failed height, with nested find-or-create loops
over ids; every method is proved to be a list of keyed operations on the view, for
any ids the database hands out. `BlockData` says which operations a block is, and
proves the merge idempotent and independent of order. `BlockEvents` does the same
for block events: key text, stable sort, batches that commit separately and the
insertion loop that remembers the last chain and block. `WholeRun` joins the two
halves: the pipeline's log of commits, replayed on the view, gives the pipeline's
sets of indexed and failed heights at every moment, and two complete runs over the
same range end in the same view whatever their schedules were. `StoredHistory` says
the same of the rows with their ids, with block events inserted in between, and
`Interleaving` that the order in which blocks and batches of events were committed
does not show either.

**Around it.** `Epochs` is the backward walk that records epoch start heights;
`Backoff` the retry loop; `Normalization` the two event normalisers; `PoolShares`
the split of pool shares over rows.

**Export.** `ParsingGroups` groups messages by transaction and by class;
`Cointracker` attaches fees to rows and emits the left-over ones; `FeeRows` gives
every fee a row of its own; `DateWindow` cuts the sorted rows to a date range;
`Koinly` names unsupported currencies.

Queries to the node are oracles: functions or parameters that say what was
answered. Sorting by the library is any permutation that is sorted by date. Going
through a Go map is going through its keys in any order. GORM's `Where(struct)` is
taken as equality on the named columns and `Updates` as overwriting the set ones.
A database error is modelled as a rollback of the transaction when it commits.

## Where the code does less than one would expect

Each of these is a lemma with its exact condition, or a concrete run.

- A run with `exitWhenCaughtUp` that starts past the tip ends without covering its
  range (`CaughtUpExitLosesHeights`; the exact conditions are `RangeCoveredIff` for
  one run and `EveryRunCoversIff` beforehand, for all schedules). The tip itself is
  never sent, since the inner guard of the enqueuer is strict; a range that ends at the
  tip is not finished before the chain grows (`EndReachableIff`).
- For the same reason a run with `exitWhenCaughtUp` and no end block does not exit when
  it has caught up. It closes its channel of heights only when its start was past the
  tip from the beginning, and has sent nothing then (`EarlyReturn`); exactly when that
  can happen is `RangeWithoutEndClosesIff`.
- A worker passes over a height in silence when the fallback query returns neither
  a result nor an error (`ProcessBlock`). Exactly such heights, when they had no row
  before, end without one in a run that is not cut short (`CoveredByAnswersIff`;
  `SilentHeightIsMissed` is such a run). Whether the node's library can answer so is
  not part of this model: rpc/requests.go:31-40 hands on what it returns.
- The producer of block events waits for the chain to pass every height it has dealt
  with, its last one included, before it looks at its end and closes its channel. With
  `block-events-end-block` at or above the tip of a chain that stands still the command
  therefore need not return (`HaltedChainNeverReturns`). Exactly when nothing but the
  chain can move is `OnlyGrowsIff`. Exactly when every schedule comes to an end without
  any growth, and the command has returned there, is `ReturnsUnaidedIff`; once the chain
  is above that end it does (`PassedEndReturns`).
- When the query for a height fails until it is given up, that producer goes on without
  waiting. If it was the tip (`AheadOnlyByFailure`), it then asks for heights that the
  chain does not have yet and gives up on each of them, recording a failed event block.
  These are exactly the heights above the tip that it has left behind
  (`AheadOfTheChainIff`): all up to the end, if the command returns on such a chain
  (`ReturnedBeforeTheEnd`, `FailedQueryOvertakes`).
- With `block-events-end-block = -1` the producer of block events never closes its
  channel, so the writer never finishes and the command never returns
  (`EndlessNeverReturns`; exactly then the moves are unbounded, `RunEndsIff`). All
  blocks are dealt with nevertheless (`BlocksDrainWithinMeasure`, `StoredThoughEndless`).
- The insertion loop for events remembers a block by its height alone, which is right
  exactly when neighbouring events of one height are of one chain
  (`RememberedBlockIsRight`; each call has a single chain).
- An epoch walk that ends the process midway leaves a gap which no later walk from
  above fills (`WalkLeavesNoGapIff`, `InterruptedWalk`, `GapStays`).
- A pool split loses shares when the remainder of the division by the number of
  coins reaches the equal part (`LossBounds`, `InexactBelowSquare`).
- The cointracker export repeats fees of a transaction that has both plain and
  grouped messages, or messages of both groups, and emits fees of other payers for
  grouped ones (`ExactlyOnceIff`, `MixedRepeatsFee`).
- The exports with separate fee rows keep only the first fee of a transaction
  without taxable messages (`CompleteIff`, `SecondFeeIsMissing`).
- Two taxable rows of one message with the same two amounts share one stored row, in
  which the later one's columns win: of a pool join of coins with equal amounts and
  equal shares only the last coin remains (`EqualCoinsOverwrite`). Exactly when none is
  overwritten is `AllTaxablesSurviveIff`.
- Two events of a block that agree in address, amount and denomination share one row;
  exactly when no payout is lost is `PayoutsConservedIff`.
- The koinly export can give two currencies one name only if one of them is literally
  a replacement name (`SameReplacedIff`, `NullNameIsTaken`).
- With a start block of -1 and nothing new on the chain, -1 itself is the chosen
  start (`GetIndexerStartingHeight`).

Two hypotheses are shown to be needed, but hold of the data the code receives. The
event key text needs denominations that do not start with a digit
(`KeyTextAmbiguousDenom`), as coin denominations never do, and between different
heights addresses whose lengths are equal or far apart (`KeyTextAmbiguousAddress`),
as bech32 addresses of 20 and 32 bytes are. Backoff waits stay exact for every cap
on processors whose conversion of a too large number gives the least or the greatest
64-bit number (`ProcessorsAreSafe`); another one could make waits shorter for caps
from about 230 years on (`NeverShorterIff`).

## Model

| member | source | states |
|---|---|---|
| PipelineSafety.NothingDisappears | cmd/index.go:155-253 | in every reachable state of every interleaving a height was attempted exactly if it is on a channel, held by a worker or the writer, stored, marked failed or dropped; what is settled and not only dropped is covered, and rows once there stay covered |
| PipelineSafety.NoHeightIsLost | cmd/index.go:310-322 | when all blocks are dealt with, every height from the configured start to the cursor is indexed or failed, or was only ever dropped without result and error |
| PipelineSafety.ReturnedIsDone | cmd/index.go:249-253 | a command that has returned has dealt with all its blocks |
| PipelineSafety.CoverageAtReturn | cmd/index.go:646-680 | when all blocks are dealt with, the heights with a row are exactly those that had one before and those sent and not only dropped |
| PipelineSafety.RangeIsOrderly | cmd/block_enqueue.go:140-189 | heights are sent in strictly increasing order, from the chosen start, below an observed tip, not past the end; what is passed over is indexed |
| PipelineSafety.SendNeverBlocks | cmd/block_enqueue.go:173-186 | the range loop never waits for room on the block channel |
| PipelineSafety.EarlyReturn | cmd/block_enqueue.go:150-156 | leaving before the end block, or without one, needs the caught-up exit and a start past the tip that the chain had before the run, with nothing sent |
| PipelineSafety.HeightCoveredIff | cmd/block_enqueue.go:146-189 | a height of the range ends without a row if and only if it had none and the run was cut short or only dropped it |
| PipelineSafety.RangeCoveredIff | cmd/block_enqueue.go:146-189 | the range is covered if and only if no new height was only dropped and, when the caught-up exit is on and the chosen start is past the observed tip, everything from the start on had a row before |
| PipelineSafety.NotCutShort | cmd/block_enqueue.go:150-160 | with a chosen start at or below the tip the chain had at the beginning, only dropped heights can be missing |
| EveryRun.EveryRunCoversIff | cmd/block_enqueue.go:134-190 | from given tables and a given tip, every run under every schedule covers the range but for dropped heights, if and only if the caught-up exit is off, or the start that is chosen when all re-attempted blocks are stored first is not past the tip, or nothing from that start on is missing |
| EveryRun.ChosenIsFirstMissing | cmd/index.go:277-305 | the chosen start is the first height from the configured one on that is not indexed, if something is indexed behind it or the range goes on behind it |
| EveryRun.RangeWithoutEndClosesIff | cmd/block_enqueue.go:146-189 | without an end block, from given tables and a given tip, some run closes the channel of heights if and only if the caught-up exit is on and the latest start that can be chosen is past the tip |
| PipelineSafety.RangeCoveredWithoutCaughtUpExit | cmd/block_enqueue.go:150-152 | without the caught-up exit a height of the range ends without a row exactly when it had none and was only dropped |
| PipelineSafety.CaughtUpExitLosesHeights | cmd/block_enqueue.go:153-156 | a concrete run that returns with heights of its range missing |
| PipelineSafety.RunInv | cmd/index.go:155-253 | the five invariants (channels and closing, accounting, tables, range, re-attempts) hold in every reachable state |
| RangeProgress.FillingMoves | cmd/block_enqueue.go:173-187 | with the inner guard true the height at the cursor is skipped exactly if it is indexed and not to be redone, and else sent without waiting |
| RangeProgress.NeverStuckBefore | cmd/block_enqueue.go:146-189 | in every reachable state with the channel of heights open, the enqueuer, a worker or the writer has a step other than idling |
| RangeProgress.RangeEndsWithin | cmd/block_enqueue.go:146-189 | from every reachable state with the end of the range below the tip, the steps of the enqueuer other than idling, of the workers and of the writer on blocks are bounded by a measure, under any schedule |
| RangeProgress.ReachesTheEnd | cmd/block_enqueue.go:146-189 | from every such state, without growth and whatever the node answers, the channel of heights can be closed and all blocks be dealt with, with the cursor past the end unless the caught-up exit is due |
| RangeProgress.EndReachableIff | cmd/block_enqueue.go:150-173 | exactly when the range loop can get past its end without growth: the cursor is past it, or the end is below the tip and the caught-up exit is not due |
| RangeProgress.EveryNodeHasARun | cmd/index.go:310-322 | for every outcome per height there is a complete run with these outcomes over a range below the tip |
| RangeProgress.CommandEnds | cmd/index.go:155-253 | with the end of the range below the tip and block events with an end, all steps but idling and growth are bounded from the start of the command, under any schedule; when none is left all blocks are dealt with, and the command has returned or its producer of block events is starved |
| Pipeline.Threads | cmd/index.go:174-179 | the number of workers is between 1 and 64, 4 for a setting of 0, and the setting itself in that range |
| PipelineProgress.BlockWorkFalls | cmd/index.go:310-322 | every step of a worker, the closer, or the writer on blocks lowers a measure over blockChan, workers, txDataChan and the held block, and no step of a producer or on events raises it |
| PipelineProgress.WorkFalls | cmd/index.go:453-527 | a move lowers the measure of all work if and only if it is not a producer without end going on to its next height |
| PipelineProgress.StuckBlocksAreDone | cmd/index.go:310-322 | no block step is possible exactly when all blocks are dealt with and the writer has seen the data channel closed |
| PipelineProgress.NeverStuck | cmd/index.go:646-719 | until the command returns some goroutine has an enabled step, which lowers the measure when the producers end, unless all else is drained and the producer of block events is starved by the chain |
| PipelineProgress.OnlyGrowsIff | cmd/index.go:494-523 | nothing but the chain can move if and only if the command has returned, or all else is drained and the producer of block events waits at a height above the tip, or repeats a query for one without limit |
| PipelineProgress.ReturnsUnaidedIff | cmd/index.go:494-523 | from any state after the block channel is closed, on a chain that stands still, the length of all schedules is bounded and those that can go no further have returned, if and only if block events have an end and their producer has closed its channel, or its end is below the tip, or it is past the tip and gives up on the rest |
| PipelineProgress.PassedEndReturns | cmd/index.go:453-527 | in a run whose chain is above the end of the block events, or whose range loop sent a height from that end on, the command returns without further growth, in a bounded number of moves |
| PipelineProgress.HaltedChainNeverReturns | cmd/index.go:494-523 | for every end at or above the tip, a run that receives the events of the tip and can then only wait for the chain |
| PipelineProgress.AheadOnlyByFailure | cmd/index.go:458-473 | a step makes the producer of block events ask for a height above the tip only if it gives up on the tip itself |
| PipelineProgress.AheadOfTheChainIff | cmd/index.go:456-473 | in every run, the heights above the tip that the producer of block events gave up on are exactly those it has left behind |
| PipelineProgress.ReturnedBeforeTheEnd | cmd/index.go:456-473 | a command that returned gave up on every height of its block events above the tip |
| PipelineProgress.FailedQueryOvertakes | cmd/index.go:458-473 | for every end above the tip, a run that fails at the tip, gives up on all heights up to the end and returns, on a chain that has none of them |
| PipelineProgress.BlocksDrainWithinMeasure | cmd/index.go:185-191 | after the block channel is closed the number of block steps is bounded under any schedule, also with an endless producer |
| PipelineProgress.DrainsWithinMeasure | cmd/index.go:185-253 | with producers that end, the number of all further moves is bounded by the measure, under any schedule |
| PipelineProgress.RunEndsIff | cmd/index.go:453-527 | after the block channel is closed the moves of all schedules are bounded if and only if block events are not indexed without end |
| PipelineProgress.EndlessNeverReturns | cmd/index.go:453-527 | with an endless producer of block events no run returns |
| PipelineProgress.StoredThoughEndless | cmd/index.go:646-680 | even then every height up to the cursor is covered or was only dropped once no block step is possible |
| PipelineProgress.StuckMeansReturned | cmd/index.go:249-253 | a schedule that can go no further has returned if and only if the producer of block events is not starved |
| PipelineProgress.WriterFinishesWhenDrained | cmd/index.go:653-664 | in every reachable state the writer has finished if and only if all three channels are closed and drained and no step of it is possible |
| PipelineProgress.WriterCountsDown | cmd/index.go:653-664 | from closed and drained channels on, under any schedule, the writer is finished after exactly the steps it has left, at most four |
| StartHeight.GetHighestIndexedBlock | db/db.go:104-109 | the greatest indexed height, 0 when there is none |
| StartHeight.GetFirstMissingBlockInRange | db/db.go:72-94 | the first height not indexed up to one past the highest indexed, or the start; the result is indexed only if nothing is missing |
| StartHeight.GetIndexerStartingHeight | cmd/index.go:277-305 | everything between the configured and the chosen start is indexed; the results for -1 and for re-indexing |
| WorkerOutcome.ProcessBlock | cmd/index.go:324-403 | when a height is sent, fails, or is dropped, over all answers of the node, and what data is sent |
| WholeRun.RunShows | cmd/index.go:665-680 | at every moment of a run the indexed and failed heights are those of the view after the run's commits |
| WholeRun.IndexedHeightsShow | cmd/index.go:265-272 | the query for indexed blocks over the rows agrees with the natural-key view |
| StoredHistory.EventsKeepHeights | db/events.go:129-138 | inserting block events changes neither which heights are indexed nor which are failed |
| StoredHistory.TablesFollow | cmd/index.go:265-272 | starting from matching tables, the query over the stored rows finds exactly the pipeline's indexed heights after any number of steps, with events inserted anywhere in between |
| StoredHistory.RangeIsStored | cmd/index.go:155-253 | when all blocks are dealt with, every height up to the cursor that was not only dropped is found by that query or has a failed row |
| Interleaving.SameWorkSameView | cmd/index.go:665-719 | histories with the same stored and failed heights and the same inserted events leave the same view, whatever their order, batches and repeated batches |
| Interleaving.ScheduleDoesNotShowWithEvents | cmd/index.go:155-253 | two complete runs over the same range that insert the same events leave tables with the same content, for any schedules |
| WholeRun.CommitsOfARun | cmd/index.go:310-322 | a complete run stores exactly the due heights that succeed and marks exactly the due heights that fail |
| WholeRun.CoveredByAnswersIff | cmd/index.go:346-364 | a height of the range ends without a row if and only if it had none and the run was cut short or the node falls back for it and has neither result nor error |
| WholeRun.SilentHeightIsMissed | cmd/index.go:346-364 | a concrete run with a silent node that returns with neither a block nor a failed block for the height it sent |
| WholeRun.RangeCoveredByAnswersIff | cmd/index.go:346-364 | the exact condition for the whole range, in terms of the node's answers and the chosen start |
| WholeRun.SameCommitsSameView | db/db.go:147-319 | runs with the same commits, in any order and repetition, leave the same view |
| WholeRun.ScheduleDoesNotShow | cmd/index.go:155-253 | two complete runs over the same range from the same tables end in the same view, for any schedules, numbers of workers and growth of the chain |
| WholeRun.ScheduleDoesNotShowInHeights | cmd/index.go:155-253 | such runs end with the same indexed and the same failed heights |
| Tables.DeclaredIndexes | db/models.go:9-133 | in every valid database the unique indexes of the modelled tables hold, and so does uniqueness of messages and taxable rows |
| Tables.SameViewSameTables | db/models.go:9-133 | tables that grew out of others without changing the view are the same tables, ids included |
| Tables.BlockInTables | db/models.go:9-133 | a block in the view is a row with its chain, height, time and flag |
| Tables.TxInTables | db/models.go:9-133 | a transaction in the view is a row with its hash and code, pointing at its block and its signer |
| Tables.FeeInTables | db/models.go:9-133 | a fee in the view is a row with its denomination and amount, pointing at its transaction and payer |
| Tables.MessageInTables | db/models.go:9-133 | a message in the view is a row with its index, pointing at its transaction and type |
| Tables.TaxableInTables | db/models.go:9-133 | a taxable amount in the view is a row of its message with both amounts, both denominations, sender and receiver each in its column |
| Tables.EventInTables | db/models.go:9-133 | a block event in the view is a row with its digest, source, amount and denomination, pointing at its address and block |
| Database.Database.EnsureTx | db/db.go:192-196 | find-or-create of a transaction is one operation on the view; ids and rows stay |
| Database.Database.EnsureFee | db/db.go:223-227 | find-or-create of a fee per transaction and denomination |
| Database.Database.UpsertTaxable | db/db.go:286-312 | create a taxable row or overwrite its set columns |
| Database.Database.PutBlock | db/db.go:160-168 | the block row is created or marked indexed under the new time |
| Database.Database.UpsertFailedBlock | db/db.go:111-126 | a failed row is ensured, all other rows stay, keys stay unique and foreign keys resolved |
| Database.Database.IndexNewBlock | db/db.go:147-319 | storing a block refines the merge of its operations on the view, keeps foreign keys and unique keys, and changes nothing unless it commits |
| Database.Database.IndexWithReattempt | cmd/index.go:670-679 | one reattempt after a failure; success is one clean merge |
| Database.StoringAgainChangesNothing | db/db.go:152-315 | storing a stored block again changes no table at all: no row, id or column |
| Database.OrderDoesNotShow | db/db.go:147-319 | two databases that stored two separate blocks in opposite orders show the same content |
| Ledger.Locality | db/db.go:147-319 | a list of keyed operations acts on every key separately |
| Ledger.PatchesCompose | db/db.go:289-312 | among taxable rows that share a key each column keeps the last value set |
| Ledger.LayeredCollapses | db/db.go:160-168 | where some transactions only look for a row and others assign it, the assignment wins whenever it comes |
| Ledger.Confluence | db/db.go:147-319 | order and repetition of transactions that converge at every key do not matter |
| Ledger.ReplayAfterPrefix | db/events.go:68-90 | find-or-create work partly done and then redone from the start ends as one clean run |
| BlockData.BlockOpsAre | db/db.go:170-315 | the operations of a block are exactly the rows of its transactions, fees, messages and taxable amounts |
| BlockData.StoringTwice | db/db.go:147-319 | the merge of a block is idempotent on the view |
| BlockData.EitherOrder | db/db.go:147-319 | merges of blocks with disjoint hashes commute |
| BlockData.Frame | db/db.go:147-319 | rows of other transactions and other heights are left alone |
| BlockData.BlockIsIndexed | db/db.go:152-168 | afterwards the block is indexed under its time and no longer failed |
| BlockData.TxIsStored | db/db.go:172-196 | a new transaction is stored with its own code, block and signer; a stored one is kept |
| BlockData.FeeIsStored | db/db.go:198-228 | a new fee is stored with its amount and payer; a stored one is kept |
| BlockData.TaxableIsStored | db/db.go:252-312 | at every message and pair of amounts the block's rows for them, but for those with a too long address, are laid over each other and over the stored row, each column keeping the last value set |
| BlockData.TaxableColumns | db/db.go:252-312 | a row without another of its message and amounts is stored column by column: both denominations with an id, the named sender and the named receiver, each in its own column, unset ones left as they were; with an address of more than 100 characters it is not stored |
| BlockData.MessageIsStored | db/db.go:229-250 | every message of the block has a row, and so has its type |
| BlockData.AddressIsStoredIff | db/db.go:172-285 | there is a row for an address exactly if there was one or the block names it as signer, payer, or sender or receiver of a stored row |
| BlockData.VerdictIs | db/db.go:198-239 | a block commits exactly if all fees have a payer and a known denomination and all messages a type; the first transaction that cannot be stored rolls back for a bad fee and ends the process for an untyped message |
| BlockData.TaxableSurvivesIff | db/db.go:286-312 | a taxable row can be read back if and only if what later rows of its message and amounts set agrees with it |
| BlockData.AllTaxablesSurviveIff | db/db.go:286-312 | no taxable row of a block is overwritten if and only if no two rows of one message and the same amounts set a column to different values |
| BlockData.EqualCoinsOverwrite | osmosis/modules/gamm/joins.go:535-575 | of the rows of a join of any number of coins with one amount and evenly split shares, exactly those of the last coin can be read back, wherever the join is in the block |
| BlockEvents.KeyTextSameIff | db/events.go:32-47 | for addresses without spaces and denominations without leading digit, two texts are equal if and only if amount, denomination, and address followed by height are |
| BlockEvents.KeyTextInjective | db/events.go:32-47 | the text determines address, height, amount and denomination at one height for all addresses, and across 64-bit heights for address lengths that are equal or 19 apart |
| BlockEvents.KeyTextAmbiguousDenom | db/events.go:35 | the condition on denominations is needed: two payouts with one text otherwise |
| BlockEvents.KeyTextAmbiguousAddress | db/events.go:35 | the condition on lengths is needed: two payouts with one text otherwise |
| BlockEvents.StableSortCorrect | db/events.go:51-54 | the sort orders by digest, keeps all events and the order of equal digests |
| BlockEvents.RememberedBlockIsRight | db/events.go:113-140 | remembering the last block equals a lookup per event if and only if neighbours of one height are of one chain |
| BlockEvents.CreateTaxableEvents | db/events.go:106-163 | a batch refines its operations on the view, with the remembered chain and block |
| BlockEvents.IndexBlockEvents | db/events.go:16-91 | events are sorted and committed batch by batch; what is committed is a prefix of the sorted events; it succeeds if and only if all denominations are known and no batch meets an outage, and then the payouts are stored column by column |
| BlockEvents.RetryConverges | cmd/index.go:706-714 | batches committed before a failure do not show after a successful full retry |
| BlockEvents.IndexEventsWithReattempt | cmd/index.go:690-695 | it succeeds if and only if all denominations are known and one of the two attempts meets no outage; whichever batches failed first, success is one clean run |
| BlockEvents.FirstEventIsStored | db/events.go:144-158 | of several events with one digest the first is stored, unless one is already |
| BlockEvents.OnlyDuplicatesMerge | db/events.go:32-47 | with a collision-free digest only true duplicates share a row, within a block for any addresses and across blocks for lengths that can be told apart |
| BlockEvents.PayoutsConservedIff | db/events.go:16-163 | every event of a block has a row to itself with its own values if and only if no two agree in address, amount and denomination, and no other row was stored under one of their digests |
| BlockEvents.PayoutColumns | db/events.go:32-47 | a payout without an equal in its block and without an earlier row is stored under the digest of address, height, amount and denomination with its source, amount, denomination, address, chain and height |
| BlockEvents.RowsBesidePayouts | db/events.go:106-145 | beside the payouts there are rows for the chain, for the block, not indexed and with its time, and for exactly the addresses named |
| Epochs.EpochStore.IndexEpochsAtStartingHeight | cmd/update_epochs.go:161-222 | the walk ends, adds exactly consecutive epochs from the current one down, and stops only at a recorded epoch, the earliest recordable one, or where it is stuck |
| Epochs.EpochStore.FirstOrCreate | cmd/update_epochs.go:203-213 | find-or-create against the unique index on identifier and start height |
| Epochs.IndexAt | cmd/update_epochs.go:166-197 | the epoch current at a height |
| Epochs.ReturnedWalkLeavesNoGap | cmd/update_epochs.go:161-222 | a walk that returns extends gapless rows to gapless rows up to the later epoch |
| Epochs.WalkLeavesNoGapIff | cmd/update_epochs.go:166-174 | one walk leaves gapless rows if and only if it is not cut short between the current and the recorded epochs |
| Epochs.InterruptedWalk | cmd/update_epochs.go:166-169 | a concrete walk with an honest node that ends the process and leaves a gap, as every walk with that node does |
| Epochs.GapStays | cmd/update_epochs.go:209-213 | no walk from at or above a recorded epoch adds an epoch below it |
| Epochs.SeriesLeavesNoGap | cmd/update_epochs.go:161-222 | repeated returning walks on a growing chain leave every epoch up to the latest recorded |
| Epochs.FirstWalk | cmd/update_epochs.go:161-222 | with a node that always answers, the first walk for days or weeks returns and records number and start of every epoch from the earliest reported one to the current one |
| Epochs.OtherIdentifiers | cmd/update_epochs.go:179-186 | for any other identifier every walk ends the process and records nothing |
| PoolShares.CalcNthGams | osmosis/modules/gamm/types.go:35-45 | the split's exact total, bounds on the last part, and when it panics |
| PoolShares.LossBounds | osmosis/modules/gamm/types.go:35-45 | the loss is at most the plain remainder, and nothing is lost if and only if that is below the part |
| PoolShares.ExactFromSquare | osmosis/modules/gamm/types.go:35-45 | totals of at least n squared are split exactly |
| PoolShares.InexactBelowSquare | osmosis/modules/gamm/types.go:35-45 | n squared minus one loses n minus one, for every n from 2 |
| PoolShares.ParseJoin | osmosis/modules/gamm/joins.go:535-575 | when it panics; otherwise row i sends exactly the i-th coin and receives its part of the shares, and a claim has a last row without sender |
| PoolShares.JoinConserves | osmosis/modules/gamm/joins.go:535-575 | per denomination, a join's rows send the coins put in and receive the shares but for the loss, and the claim |
| PoolShares.ParseExit | osmosis/modules/gamm/exits.go:560-604 | when it panics; otherwise row i receives exactly the i-th coin for its part of the shares, and a row for each swap behind them sends and receives exactly the two coins of that swap |
| PoolShares.ExitConserves | osmosis/modules/gamm/exits.go:619-649 | per denomination, an exit's rows receive the coins taken out and send the shares but for the loss |
| PoolShares.ParseCreation | osmosis/modules/gamm/creates.go:270-314 | when it panics; otherwise row i sends exactly the i-th coin and receives its part of the shares, and a row for each coin that another gave has the giver as sender and the creator as receiver |
| PoolShares.CreationConserves | osmosis/modules/gamm/poolmodels.go:101-144 | per denomination, a creation's rows send the coins spent and receive the shares but for the loss, and the other coins |
| PoolShares.PoolRowsConserve | osmosis/modules/gamm/creates.go:275-300 | each pool coin's amount appears exactly once, and the share column sums to the total but for the loss |
| Backoff.RawGrows | rpc/blocks.go:113-116 | durations never fall and grow at most by half |
| Backoff.GetBackoffDurationForAttempts | rpc/blocks.go:113-124 | a wait is between zero and the cap; it is the cap exactly when the computed duration is above it or negative, and the computed duration otherwise |
| Backoff.CapIsKept | rpc/blocks.go:100-103 | once reached, the cap is kept |
| Backoff.WaitIsExact | rpc/blocks.go:73-124 | for caps below the last fitting duration every wait is the lesser of the exact duration and the cap |
| Backoff.NeverShorterIff | rpc/blocks.go:113-124 | waits never get shorter if and only if the cap is below the last duration that fits 64 bits, or a conversion out of range gives something negative or at least that long |
| Backoff.WaitIsMinIff | rpc/blocks.go:113-124 | every wait is the lesser of the exact duration and the cap if and only if the cap is below the last fitting duration, or such a conversion gives something negative or not below the cap |
| Backoff.ProcessorsAreSafe | rpc/blocks.go:115-121 | with a conversion to the least or the greatest 64-bit number all waits are exact and none gets shorter, for every cap |
| Backoff.ComputedBounded | rpc/blocks.go:100-103 | every computed duration is below 1.5 times the cap plus one and fits 64 bits |
| Backoff.TwoThirdsIsSafe | rpc/blocks.go:100-103 | caps up to two thirds of the 64-bit range are safe |
| Backoff.CallsAreMin | rpc/blocks.go:91-110 | the number of calls is the lesser of the first success and the limit plus one |
| Backoff.CallsEndIff | rpc/blocks.go:90-110 | the calls come to an end if and only if there is a limit or some call succeeds |
| Backoff.CapIs | rpc/blocks.go:78-84 | the cap is the configured number of seconds, at least 2, as long as it fits 64 bits in nanoseconds, and 30 seconds just behind that |
| Backoff.FirstWaits | rpc/blocks.go:86-100 | with a cap of 30 seconds the first waits are 1, 1.5 and 2.25 seconds, and the tenth is the cap |
| Backoff.GetBlockResultWithRetry | rpc/blocks.go:73-111 | how many calls are made, which result is returned, and the exact list of waits |
| Normalization.GetValueForAttribute | cosmos/modules/tx/logic.go:139-151 | the value of the first attribute with the key, or none |
| Normalization.ParseTxEventsToMessageIndexEvents | cosmos/events/normalization.go:61-89 | fails exactly if an event's index is unreadable; otherwise each log is the subsequence of its message's events |
| Normalization.LogIsSubsequence | cosmos/events/normalization.go:71-86 | a log lists exactly the events at its message's places, in order |
| Normalization.EachEventInItsLog | cosmos/events/normalization.go:71-86 | an event occurs in its own log as often as in the list, and in no other |
| Normalization.LogsConserve | cosmos/events/normalization.go:61-89 | all logs together hold exactly the events of messages in range |
| Normalization.WrittenIndexIsRead | cosmos/events/normalization.go:73-84 | an index written as decimal text is read back |
| Normalization.TagByValue | cosmos/events/normalization.go:71-84 | the first index attribute decides: an empty value names no message, one that is no number is unreadable, and only a number within 64 bits names a message |
| Normalization.NoTag | cosmos/events/normalization.go:71-73 | an event without an index attribute names no message |
| Normalization.NormalizeCustomBlockResults | rpc/blocks.go:25-71 | fails exactly if an event names both modes or neither; otherwise the two sublists |
| Normalization.SplitMergesBack | rpc/blocks.go:38-67 | the two lists merge back into the whole list in order |
| Normalization.UnmodedIs | rpc/blocks.go:42-52 | the mode attributes are removed and no other |
| Normalization.StrippedIs | rpc/blocks.go:38-67 | a stripped event keeps its kind, and its attributes other than the mode in their order |
| Normalization.ModeOfOne | rpc/blocks.go:38-67 | an event is in a mode's list, stripped, exactly if one of its attributes names the mode |
| ParsingGroups.MakeTXMap | csv/parsers/parsers.go:29-43 | each transaction's list holds its messages in order, without empty lists |
| ParsingGroups.ParsingGroup.AddTxToGroup | csv/parsers/utils.go:27-37 | the message is appended to the list of its transaction, others stay |
| ParsingGroups.SeparateParsingGroups | csv/parsers/parsers.go:46-72 | in any map order each list is split by message class |
| ParsingGroups.NotInBoth | csv/parsers/osmosis.go:8-38 | no message type is in both groups |
| ParsingGroups.GroupingConserves | csv/parsers/parsers.go:29-72 | every message lands as often as in the input in exactly one place, under its own transaction |
| Cointracker.ParseTx | csv/parsers/cointracker/cointracker.go:174-268 | the i-th row has the i-th parsed message, and the i-th fee exactly if the address paid it and it converts; the rows behind have a fee alone; in all the rows carry exactly the fees the address paid, in order, for any numbers of both |
| Cointracker.OfSingles | csv/parsers/cointracker/cointracker.go:227-265 | what the lists of fees, messages and rows take of a single element: fees by transaction, by payer and conversion, messages by transaction and by whether they parse, rows by what they are about |
| Cointracker.GetTxToFeesMap | csv/parsers/utils.go:39-53 | the fees of each grouped transaction, once |
| Cointracker.ParseGroup | csv/parsers/cointracker/osmosis.go:41-103 | the rows of each grouped transaction are its messages in order with the fee at their place and then its further fees alone; it fails exactly when a fee beyond the number of the messages cannot be converted |
| Cointracker.Parser.ProcessTaxableTx | csv/parsers/cointracker/cointracker.go:28-82 | it succeeds if and only if the fees without a message row can be converted; then, in any map order, the exact list of fees and of messages emitted for every transaction, and which of its rows carries which |
| Cointracker.ExactlyOnceIff | csv/parsers/cointracker/cointracker.go:28-82 | each fee the address paid is emitted exactly once, and no other, if and only if the messages are of one class and a group's or separately listed fees are all its own, or there are no fees |
| Cointracker.MixedRepeatsFee | csv/parsers/cointracker/cointracker.go:40-66 | a transaction with a plain message, a pool join and one fee, whose fee comes out twice |
| FeeRows.HandleFees | csv/parsers/accointing/accointing.go:152-192 | it succeeds if and only if every gathered fee the address paid can be converted; then the rows carry for each transaction those fees, one each and without a message |
| FeeRows.CompleteIff | csv/parsers/accointing/accointing.go:170-176 | no fee is missing if and only if the transaction has messages or at most one listed fee |
| FeeRows.SecondFeeIsMissing | csv/parsers/accointing/accointing.go:170-176 | a transaction without messages and with two fees, of which the second gets no row |
| DateWindow.GetRows | csv/parsers/accointing/accointing.go:90-139 | skipping and breaking over sorted rows keeps every row as often as it is there if its date lies between the bounds, both included, and no other, in date order, as a multiset, for any order of ties; when dates do not parse, exactly when it fails and what it keeps, for any order the sort leaves |
| DateWindow.TailOutside | csv/parsers/accointing/accointing.go:125-127 | leaving the loop at the first row past the end loses nothing |
| Koinly.CoinReplacements.MapUnsupportedCoins | csv/parsers/koinly/koinly.go:190-207 | names are given in order of first appearance and the map stays a bijection |
| Koinly.CoinReplacements.Replace | csv/parsers/koinly/koinly.go:176-188 | the rows stay in place and each currency with a name is replaced by it, no other |
| Koinly.NamesAreABijection | csv/parsers/koinly/koinly.go:190-207 | the names in use are a bijection onto NULL1 to NULLn |
| Koinly.NameIsKept | csv/parsers/koinly/koinly.go:196-203 | a name is never reassigned by later calls |
| Koinly.NamedAre | csv/parsers/koinly/koinly.go:190-207 | exactly the unsupported currencies of the rows get names |
| Koinly.UnsupportedIff | csv/parsers/koinly/koinly.go:190-195 | a currency is unsupported exactly if its name has gamm in it, anywhere |
| Koinly.SameReplacedIff | csv/parsers/koinly/koinly.go:176-188 | exactly when two currencies come out the same |
| Koinly.NullNameIsTaken | csv/parsers/koinly/koinly.go:176-188 | a pool share and a currency really called NULL1 that come out the same |
| Koinly.ReplacingTwice | csv/parsers/koinly/koinly.go:176-188 | a replaced currency is not replaced again |

## Left out

- Crashes and fatal errors end a run; a run of the pipeline is one without them. The reindexing modes by message type and by input file, dry runs, and the fatal exit at ten percent of reattempts are not modelled.
- The queries to the node, its transport, the clock and throttling are oracles or left out; the wait before the start for a node that is catching up is left out.
- The pipeline takes `index-chain` as on, and the tip that the node reports as never falling (the step `Grow`). Heights do not wrap at 64 bits.
- In the pipeline the node has block results for the heights up to its tip and for none above. A query for one of them may fail until the producer of events gives up; without a limit on retries it is taken to be answered in the end.
- WholeRun.ScheduleDoesNotShow: compares runs in which the node gives the same outcome for the same height, on a chain whose blocks have a time and share no transaction hash.
- GORM's dropping of zero-valued fields in struct conditions (a message index of 0, a zero amount, a zero time), the SQL casts to 32-bit integers, and locking between concurrent database transactions.
- Database.Database.UpsertFailedBlock: looks a failed block up by height and chain, as the struct condition intends; the code leaves the chain's id unset there (db/db.go:111-126), and which condition GORM makes of that is not part of this model. No height being lost per chain depends on this reading.
- Database.Database.EnsureBlock: likewise looks the block of an event up by height and chain, where the condition names the chain only through its association (db/events.go:130).
- Tables.DeclaredIndexes: the tables of denominations, denomination units, epochs and failed event blocks are not among the modelled tables.
- Interleaving.ScheduleDoesNotShowWithEvents: takes events with one digest to describe one row, and events to carry the time of their block; otherwise the first batch to commit decides.
- SHA-256 is taken as free of collisions in `OnlyDuplicatesMerge`; the digest is otherwise any number.
- Denominations are taken as looked up already; adding unknown ones and the caches are left out. Unit conversion is a predicate that says whether it succeeds.
- String lengths count characters, where the code counts bytes.
- The producers of block and epoch events send events without content in the pipeline; the rows that their batches write are treated in `BlockEvents`, `StoredHistory` and `Interleaving`. The table of failed event blocks is left out.
- A block of height 0 or a chain without an id, which the insertion loop for events would take for the remembered ones; contracts there require a height and a chain id.
- Rows of message types beyond the fee and the message they carry: the many message handlers and row builders are large case lists with one-branch properties.
- Sharing of one big-integer object between rows of a pool split: rows hold values.
- The prefix that the accointing export writes into comments, and the mapping of symbols to koinly ids before unsupported ones are named.
- The gap-repair scan of the update-epochs command around the walk, which depends on the order of an unordered query.
- Exports for several addresses through one parser, whose rows and groups accumulate.
- Fees of the koinly and taxbit exports, whose groups attach fees that are emitted again as rows of their own.
- Database.Database.IndexNewBlock: an error in the middle of a transaction is modelled as one when it commits, because both roll back everything.
- Cointracker.Parser.ProcessTaxableTx: states the fees and messages of each transaction, and the order within it, but not the order between transactions, which follows map iteration.
- Backoff.GetBlockResultWithRetry: with a negative limit the code retries for ever; the contract then assumes that some call succeeds, which `CallsEndIff` shows to be exactly when the calls end.
