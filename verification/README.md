# A verified model of the xorq-datafusion Python bridges

xorq-datafusion lets DataFusion queries read from Python: pyarrow datasets, ibis tables, Arrow C streams,
Python table providers and table providers imported over FFI. This project models the parts of it whose
correctness does not show in any one function, and proves what they promise.

`dafny verify dfyconfig.toml` checks everything. The theorems are statements about all inputs, runs or reachable
states; beside them stand concrete runs and filters that show where a bound is met or a documented promise
fails. There are no assumptions besides the ones written down in the definitions and repeated below. Automatic
induction is switched off on every lemma, so each inductive proof is the one in its body.

## What is modelled

**The demand-driven stream bridge** (`src/utils.rs`). A blocking reader becomes an async stream through a
coordinator, a pull host (a dedicated thread, or one blocking task per round), a drain loop, a channel of
eight slots, a demand semaphore and a consumer. `Bridge` is the state machine: every atomic operation on
shared state is a step, and the steps of all components interleave freely, on whatever the two process-wide
budgets hold at that moment. The reader is an arbitrary function from call number to answer (a batch, an
error, the end, or a panic); a pull that never returns is a state that takes no further step.
`BridgeInvariants` has what every step keeps, `BridgeTheorems` and `BridgeProgress` what follows for every
reachable state and every run, `BridgeWitness` the runs that meet the bounds and that show where documented
promises stop. `World` puts any number of streams on the shared budgets, and `Leftover` says what the budgets do
and do not bound. `Chain` nests streams: the pull of one level blocks on the next item of the level below;
`ChainReading` follows what travels up. `Runtime` is the same bridge as imperative code, a class
whose methods update shared state in place (`poll_next`, `drain_batches`, the coordinator's loop) with
interference between any two operations; what each method writes is proved to be a step of the state machine.

**Filter pushdown** (`src/pyarrow_filter_expression.rs`, `src/ibis_filter_expression.rs`, `src/dataset.rs`,
`src/provider.rs`, `src/ibis_table.rs`). `Filter` gives DataFusion expressions their three-valued meaning
(IN and BETWEEN as in sections 8.4 and 8.3 of ISO/IEC 9075-2), `PyArrowFilter` and `IbisFilter` the two
translators with evaluators for their targets, `Pushdown` the verdicts, the scans and whole queries.

**FFI table providers** (`src/ffi_table_provider.rs`). `FfiTable` is a heap of sessions, catalogs,
DataFrames, tables, providers, codecs and task context providers with strong and weak references, and the
operations that write them: registering tables (hosted, or bound straight to the session) and functions, pushdown
checks (split into upgrade, read and write), scans and inserts that bind a codec of their own, and dropping
things. Using a codec upgrades its weak reference, or finds it out of scope. `FfiLifetime` has who lives how long
and which codecs upgrade, `FfiServing` which task context a check is served.

**Supporting code.** `Schema` (schema check and projection), `LazyPulls` (the closures of dataset and ibis
scans), `SortOrder` (the ordering kept for a registered reader).

## Assumptions

- tokio and std: the channel is FIFO with reservable slots; semaphores count; an abort takes effect only
  where the coordinator awaits or before its first poll; a dropped join handle drops the output of a finished
  blocking task where it is dropped; a job in a mailbox is delivered before the mailbox reports its sender gone.
- The stream builder may look at its coordinator before or after the channel, so a panic may overtake queued
  batches.
- Target engines: pyarrow has Kleene and/or/invert, comparisons that propagate null and an `isin` that is false
  on null; ibis has SQL's three-valued IN, NOT IN and BETWEEN. Engines agree on the order of non-null values,
  which is a parameter. What is not a boolean counts as unknown under AND, OR and NOT.
- In a chain each level has a host thread of its own.
- An object is alive while a chain of strong references leads to it from Python or from a running call. A
  DataFrame holds its session's catalog and the tables of its plan, not the session.

## Where code and documentation differ

The model follows the code.

- `src/utils.rs:384-385` says that the demand semaphore is closed with the stream. Nothing closes it: a parked
  coordinator ends by being aborted.
- `src/utils.rs:97-98` and `src/utils.rs:121-131` promise that the closure is never destroyed on an async
  worker. It is, in exactly two windows: an abort before the coordinator's first poll, and an abort between the
  end of a blocking task and its join (`DiesOnWorker`, `ClosureOwnership`, `DroppedBeforeFirstPoll`,
  `DroppedBeforeJoin`). A closure with a dedicated thread is never affected.
- `src/utils.rs:29-39` promises that pulls nobody asked for cost at most 64 threads. They can cost any number: a
  consumer that takes a speculated batch leaves demand behind, which pays for an unpolled pull with no permit
  held, and n streams can sit in such pulls with all 64 permits free (`UnaskedPullWithoutPermit`,
  `UnaskedPullsAreUnbounded`). The step that escapes is a credit taken while the semaphore holds demand and no more
  of it than was ever speculated (`LeftoverGuard`); in histories without that step the cap holds
  (`CapHoldsWithoutLeftovers`). Per stream, pulls ahead of polls never exceed the speculative credits ever taken,
  of which there are at most nine (`CreditLedger`, met by `NineSpeculativeCredits`).
- `src/ibis_filter_expression.rs:88-105` exchanges IN and NOT IN. Translation means the flipped filter on every
  row; an IN keeps the right rows exactly where it is unknown (`InListIsComplemented`).
- `src/dataset.rs:97-108` declares every translatable filter exact. It is when every IN over a nullable operand is
  in positive position (`PushdownKeepsRows`). A NOT IN over a null operand is kept by pyarrow and rejected by SQL
  (`NotInDiffersExactlyOnNull`). Under AND, OR and NOT alone only rows that SQL finds unknown can be kept
  wrongly and none is lost (`PushedIsMoreDefinite`); below a null test rows are lost, and below a comparison rows
  are kept wrongly without any negation (`NullTestOverIn`, `ComparisonOverIn`, `NullTestLosesNulls`,
  `ComparisonKeepsNulls`).
- `src/ffi_table_provider.rs:43-47` describes the fallback as of the last pushdown check. That holds when checks
  do not overlap. The fallback goes back exactly when a check finishes that read the registry before the check that
  finished last did, with a function registered between the two reads (`LastRememberedIsServed`,
  `FallbackGoesBack`, `OverlapLosesAFunction`).

## Model

| member | source | states |
|---|---|---|
| `BridgeTheorems.DeliversTheReading` | src/utils.rs:436-553 | in every interleaving, host, read-ahead mode and budget, the consumer has a prefix of the sequential reading; batches match the schema; an error is the last item and completes the reading; None means the whole reading was delivered; a resumed panic is the reader's |
| `BridgeTheorems.CreditLedger` | src/utils.rs:377-399 | demand is conserved, every pull was paid by demand or speculation, at most one request is outstanding, pulls ahead of polls are covered by speculative credits, of which a stream takes at most nine ever |
| `BridgeTheorems.OnDemandIsLazy` | src/utils.rs:45-49 | on demand the reader is entered at most once per item asked for; with nothing asked for no pull runs, nothing is buffered and no permission is left |
| `BridgeTheorems.RepollAddsNothing` | src/utils.rs:439-450 | no run adds demand before the item asked for is delivered, however often it polls; after the end no run delivers, pulls, adds demand or moves the coordinator |
| `BridgeTheorems.MemoryBound` | src/utils.rs:25-27 | at most one reserved slot; queue plus reserved and pulls ahead of deliveries stay within eight; an ended round holds no slot |
| `BridgeTheorems.TerminalContract` | src/utils.rs:93-94 | the closure is called again only after a batch that matched the schema |
| `BridgeTheorems.AtMostOnePullAfterDrop` | src/utils.rs:346-350 | after the stream is dropped at most one pull starts, the one whose slot was held |
| `BridgeTheorems.ClosureOwnership` | src/utils.rs:121-164 | one owner at a time; affine closures are called and destroyed on their thread only; the next step destroys the closure on an async worker if and only if it is an abort in one of two windows; the guard is never found empty and no job goes to a dead thread |
| `BridgeTheorems.DiesOnWorker` | src/utils.rs:121-131 | a step destroys the closure on an async worker if and only if it is an abort that finds the coordinator never polled, or a pool round reported without a panic and not yet joined |
| `BridgeTheorems.ItemIsAnswer` | src/utils.rs:513-523 | the i-th item delivered is what the i-th call of the closure contributed |
| `BridgeTheorems.DestroyedForGood` | src/utils.rs:150-163 | a destroyed closure stays destroyed where it was and is never called again |
| `BridgeTheorems.ReadIsMonotone` | src/utils.rs:513-551 | reading further extends a reading |
| `Reading.ReadExtends` | src/utils.rs:513-523 | one more call of an open reader appends that answer's item |
| `Reading.ReadItemIs` | src/utils.rs:513-548 | the i-th item of a reading comes from the i-th answer |
| `Reading.ReadStops` | src/utils.rs:542-550 | nothing is read past a terminal answer |
| `Reading.ErrorIsLast` | src/utils.rs:542-548 | an error is surfaced once, as the last item |
| `Reading.ReadItemsMatch` | src/utils.rs:515-522 | every batch of a reading matches the advertised schema |
| `BridgeInvariants.InvRun` | src/utils.rs:355-415 | every run keeps shape, ownership, reading, ledger and cancellation invariants |
| `BridgeInvariants.InvStep` | src/utils.rs:355-451 | every step of every component keeps them |
| `BridgeInvariants.StructureStep` | src/utils.rs:166-320 | every step keeps who holds slot, round, credit and closure |
| `BridgeInvariants.FaithfulStep` | src/utils.rs:501-553 | every step keeps the channel equal to the sequential reading and ends honest |
| `BridgeInvariants.FaithfulPull` | src/utils.rs:513-551 | the return of a pull extends the reading by exactly its answer |
| `BridgeInvariants.BalancedStep` | src/utils.rs:377-394 | every step keeps every credit accounted for |
| `BridgeInvariants.BoundedStep` | src/utils.rs:524-530 | every step keeps each pull within a slot |
| `BridgeInvariants.SpeculatedStep` | src/utils.rs:533-539 | every step keeps the bound on speculative credits, across the race between demand and budget |
| `BridgeInvariants.ReachableInv` | src/utils.rs:355-423 | every reachable state satisfies all invariants |
| `BridgeProgress.WaitingIsFunded` | src/utils.rs:374-376 | no demand is lost: a waiting consumer's credit is in the semaphore, in hand or in a pull |
| `BridgeProgress.WaitingCanStep` | src/utils.rs:374-399 | while the consumer waits the producer can move, whatever the budgets hold |
| `BridgeProgress.WaitingAdvances` | src/utils.rs:373-412 | every producer step brings the next item closer |
| `BridgeProgress.PendingConsumerIsServed` | src/utils.rs:439-450 | any schedule of more than 41 producer steps passes a point where a poll returns an item, the end or the panic |
| `BridgeProgress.WaitingEnds` | src/utils.rs:373-412 | waiting ends within the measure, for any budgets along the way |
| `BridgeProgress.DroppedAdvances` | src/utils.rs:346-350 | every producer step of a dropped stream brings its release closer |
| `BridgeProgress.AbortLands` | src/utils.rs:346-350 | wherever the coordinator of a dropped stream awaits, the abort lands in one step, even while a pull is stuck, and gives back the credit in hand |
| `BridgeProgress.StuckMeansReleased` | src/utils.rs:301-319 | a dropped stream that cannot move holds no credit, slot, thread or closure |
| `BridgeProgress.DroppedIsReleased` | src/utils.rs:292-320 | every schedule of a dropped stream is finite and ends with everything released |
| `BridgeWitness.NineSpeculativeCredits` | src/utils.rs:29-39 | a run with nine speculative credits for a stream nobody polled |
| `BridgeWitness.DroppedBeforeFirstPoll` | src/utils.rs:371-372 | a run in which the closure dies on an async worker before the first poll |
| `BridgeWitness.DroppedBeforeJoin` | src/utils.rs:260-275 | a run in which it dies there between a task's end and its join |
| `World.StepConserves` | src/utils.rs:58-81 | one step moves permits between the budgets and a stream and loses none |
| `World.BudgetsAreConserved` | src/utils.rs:58-119 | over every history of any number of streams free plus held permits are 64 and 128; at most 64 streams pull while holding a speculation permit, at most 128 pull threads live |
| `World.AdvanceConserves` | src/utils.rs:202-227 | spawning, failing to spawn, panicking and cancelling all conserve permits |
| `Leftover.LeftoverGuard` | src/utils.rs:377-394 | where credit is taken: the next step gets credit without a permit for a pull ahead of the polls if and only if there is demand and no more of it than was ever speculated |
| `Leftover.CapHoldsWithoutLeftovers` | src/utils.rs:29-39 | in every history in which no stream takes leftover demand at most 64 streams are in pulls nobody asked for |
| `Leftover.PaidStep` | src/utils.rs:533-539 | every other step keeps that a pull ahead of the polls comes with a permit |
| `Leftover.UnaskedPullWithoutPermit` | src/utils.rs:29-39 | with permits free at every step a stream ends in a pull nobody asked for, holds no permit and leaves the budget untouched |
| `Leftover.UnaskedPullsAreUnbounded` | src/utils.rs:29-39 | for every n a history from the start of a process puts n streams into such pulls with all 64 permits free |
| `Leftover.OnDemandIsAsked` | src/utils.rs:45-49 | streams that read on demand are never in a pull nobody asked for |
| `Chain.NestedStreamsDoNotDeadlock` | src/utils.rs:322-335 | for any number of nested streams some enabled move serves the query's wait |
| `Chain.NestedWaitIsBounded` | src/ibis_table_exec.rs:107-113 | at most 44 serving moves per level before the query's answer is ready, whatever the levels read ahead meanwhile |
| `Chain.ServingMovesCost` | src/utils.rs:322-335 | every serving move brings the query's answer closer |
| `Chain.OtherMovesKeepCost` | src/utils.rs:322-335 | read-ahead elsewhere in the chain never delays it |
| `Chain.NobodyWaitsForever` | src/ibis_table_exec.rs:107-113 | deadlock freedom from any level down |
| `Chain.BlockedPullMoves` | src/utils.rs:322-335 | a pull blocked on the level below is never stuck: something below it moves |
| `Chain.DroppedChainIsReleased` | src/utils.rs:346-350 | once the query is dropped and nothing moves any more, no level of the chain holds a credit, slot, thread or closure |
| `ChainReading.AnswersAreDelivered` | src/ibis_table_exec.rs:107-138 | in every history of a chain the answer a pull comes back with is what the stream below has just delivered to it, its item, error or end |
| `ChainReading.ChainDeliversTheReading` | src/ibis_table_exec.rs:107-138 | through any number of nested streams the query receives a prefix of the sequential reading of the innermost source, and all of it before the end |
| `ChainReading.CoupledStep` | src/utils.rs:322-335 | every move keeps one item of the level below per answered pull |
| `ChainReading.RelayReads` | src/utils.rs:513-551 | passing a stream on, call by call, reads the same |
| `Runtime.SharedStream.PollNext` | src/utils.rs:439-450 | the item returned is the next of the sequential reading and a waiting one is handed over unless the producer panicked; End means all of it was returned and every later poll answers End again; a poll is pending only with the channel empty and the coordinator not finished, and leaves one request |
| `Runtime.SharedStream.Ask` | src/utils.rs:440-444 | demand is added once per item |
| `Runtime.SharedStream.DrainBatches` | src/utils.rs:501-553 | under interference: returns true exactly on a terminal answer and false otherwise, unwinds on a panic, gives slot and drawn credits back, fills the channel with the sequential reading; it goes on pulling as long as answers, slots and credit last |
| `Runtime.SharedStream.HandleAnswer` | src/utils.rs:513-551 | what each kind of answer does to slot, credits and outcome |
| `Runtime.SharedStream.TakeSlotAndCredit` | src/utils.rs:524-540 | slot before credit; without either the slot is returned and the drain ends |
| `Runtime.SharedStream.TryReserve` | src/utils.rs:528-530 | a slot exactly when the channel is open and not full |
| `Runtime.SharedStream.TrySpeculateInRound` | src/utils.rs:535-538 | a permit exactly when buffered and the budget has one |
| `Runtime.SharedStream.LeaveForGood` | src/utils.rs:519-550 | a terminal answer sends its error, returns credits and slot, and ends the round |
| `Runtime.SharedStream.TakeCredit` | src/utils.rs:377-394 | demand that is there is taken first; then the budget, if buffered; then the coordinator is parked with no demand left |
| `Runtime.SharedStream.AwaitSlot` | src/utils.rs:395-399 | a slot, or out of the loop once the receiver is gone |
| `Runtime.SharedStream.LeaveWithCredit` | src/utils.rs:395-399 | once the receiver is gone the loop is left and a speculative credit goes back to the budget |
| `Runtime.SharedStream.HandOver` | src/utils.rs:239-269 | slot and credit reach the mailbox or a new blocking task; neither can fail |
| `Runtime.SharedStream.ReportOutcome` | src/utils.rs:309-318 | the round's own credit is dropped, then the outcome is there for a coordinator that still waits |
| `Runtime.SharedStream.ReceiveOutcome` | src/utils.rs:253-286 | false goes on, true leaves the loop, a panic is raised again |
| `Runtime.SharedStream.BuildHostOnFirstPoll` | src/utils.rs:202-227 | a dedicated thread exactly when the budget has a permit and the spawn works |
| `Runtime.SharedStream.ReportAndReceive` | src/utils.rs:253-286 | the loop goes on after `false` and is left after `true` or a panic |
| `Runtime.SharedStream.RunCoordinator` | src/utils.rs:371-415 | the loop is left only at the reader's end, its panic, or a drop, with the complete reading in the channel |
| `Schema.CheckBatchSchema` | src/utils.rs:465-478 | accepts exactly as many columns with the same names and types, by position |
| `Schema.MatchesCompares` | src/utils.rs:457-475 | nullability and metadata make no difference |
| `Schema.ProjectBatchSelects` | src/ibis_table_exec.rs:141-149 | a projection exists exactly for in-range indices; its k-th field and its k-th column are those at the k-th index |
| `Schema.ProjectionCommutesWithCheck` | src/ibis_table_exec.rs:141-149 | a projected batch passes against the projected schema exactly when it agrees at every selected index |
| `Schema.ConformingBatchIsKept` | src/ibis_table_exec.rs:38-53 | a conforming batch is never rejected after projection; projections compose |
| `LazyPulls.DatasetPull.Call` | src/dataset_exec.rs:161-205 | one call of the closure: captures emptied on the way to the scanner, a failed build answered as an error, the iterator advanced once |
| `LazyPulls.DatasetAnswer` | src/dataset_exec.rs:161-205 | while batches come back call n answers what the iterator answers; a failed first build answers an error |
| `LazyPulls.DatasetScanDelivers` | src/dataset_exec.rs:152-215 | item i is the i-th batch of the scanner's iterator, its error, a mismatch of its i-th batch, or, as first item, the failed build; an end without an error means that the scanner was built and its iterator exhausted |
| `LazyPulls.BuiltOnce` | src/dataset_exec.rs:161-195 | while batches come back exactly one scanner exists, with the plan's arguments |
| `LazyPulls.ScannersCarryThePlan` | src/dataset_exec.rs:152-195 | in every run of the bridge every scanner carries the plan's filter and columns |
| `LazyPulls.RetryLosesTheFilter` | src/dataset_exec.rs:172-194 | called again after a failure, it keeps them if and only if the failure came before they were taken or there was nothing to lose |
| `LazyPulls.IbisPull.Call` | src/ibis_table_exec.rs:114-150 | one call of the closure: iterator built once, each batch projected, errors passed on |
| `LazyPulls.IbisBuiltOnce` | src/ibis_table_exec.rs:121-128 | once a batch came back the iterator exists for good |
| `LazyPulls.IbisScanDelivers` | src/ibis_table_exec.rs:113-150 | over an iterator that keeps its schema item i is its i-th batch, column k being the raw column at the k-th index, or its own error, or, as first item, the failure to build it; the schema check rejects nothing |
| `LazyPulls.IbisScanEnds` | src/ibis_table_exec.rs:121-138 | an end without an error means that the iterator was built and said it was exhausted |
| `Filter.ExtractScalarList` | src/pyarrow_filter_expression.rs:37-69 | succeeds exactly on supported non-null literals and gives their values in order |
| `Filter.FirstBadLiteral` | src/pyarrow_filter_expression.rs:60-66 | the error is that of the first element that is not a supported literal |
| `Filter.SupportedScalars` | src/pyarrow_filter_expression.rs:46-63 | the twelve kinds of literal that are translated, and no null |
| `Filter.KleeneTables` | src/pyarrow_filter_expression.rs:23-24 | three-valued AND, OR and NOT |
| `Filter.ComparisonLaws` | src/pyarrow_filter_expression.rs:17-22 | unknown exactly on null, opposites, mirror images and trichotomy of the six comparisons |
| `Filter.BetweenIsTwoComparisons` | src/pyarrow_filter_expression.rs:121-141 | BETWEEN is two comparisons and NOT BETWEEN their negation |
| `Filter.InLiterals` | src/pyarrow_filter_expression.rs:142-161 | IN over literals: unknown on null unless the list is empty, else membership |
| `Filter.ConjunctionMeans` | src/dataset_exec.rs:57-62 | the conjunction passes exactly the rows every filter passes and is translatable exactly when all are |
| `PyArrowFilter.TranslatesExactlyTheFragment` | src/pyarrow_filter_expression.rs:76-168 | translation succeeds exactly on the translatable fragment |
| `PyArrowFilter.LiteralTranslates` | src/pyarrow_filter_expression.rs:46-63 | a literal of a supported kind becomes its value; any other, and null, is reported |
| `PyArrowFilter.PositiveForms` | src/pyarrow_filter_expression.rs:142-161 | which filters are in positive form: exact ones, IN, and AND, OR and NOT built from them |
| `PyArrowFilter.OperatorMeans` | src/pyarrow_filter_expression.rs:15-35 | each operator keeps its meaning |
| `PyArrowFilter.TranslationMeansGuarded` | src/pyarrow_filter_expression.rs:76-168 | every translation means, value for value on every row, the filter whose INs demand a non-null operand |
| `PyArrowFilter.PushdownKeepsRows` | src/dataset.rs:97-108 | with INs over nullable operands in positive position pyarrow keeps exactly the rows SQL keeps |
| `PyArrowFilter.PushedIsMoreDefinite` | src/pyarrow_filter_expression.rs:142-161 | with every IN over a nullable operand reached through AND, OR and NOT alone, of whatever polarity, the pushed filter agrees where SQL is definite |
| `PyArrowFilter.NotInDiffersExactlyOnNull` | src/pyarrow_filter_expression.rs:142-161 | NOT IN keeps the same rows if and only if the operand is not null or the list is empty |
| `PyArrowFilter.NotInKeepsNulls` | src/pyarrow_filter_expression.rs:153-159 | a row and a filter the engines disagree on |
| `PyArrowFilter.PushedIn` | src/pyarrow_filter_expression.rs:142-161 | a pushed IN has SQL's value, except that unknown becomes false (true for NOT IN) |
| `PyArrowFilter.NullTestOverIn` | src/pyarrow_filter_expression.rs:113-161 | IS NULL and IS NOT NULL over an IN keep the right rows if and only if the operand is not null or the list is empty |
| `PyArrowFilter.ComparisonOverIn` | src/pyarrow_filter_expression.rs:102-161 | a comparison with an IN keeps the right rows if and only if the operand is not null, the list is empty, or the comparison does not hold of false (true for NOT IN) |
| `PyArrowFilter.NullTestLosesNulls` | src/pyarrow_filter_expression.rs:113-161 | a row that SQL keeps and pyarrow drops |
| `PyArrowFilter.ComparisonKeepsNulls` | src/pyarrow_filter_expression.rs:102-161 | a row that pyarrow keeps wrongly, without any negation |
| `IbisFilter.TranslatesExactlyTheFragment` | src/ibis_filter_expression.rs:41-129 | both translators accept exactly the same filters |
| `IbisFilter.TranslationMeansFlipped` | src/ibis_filter_expression.rs:44-127 | every translation means, value for value on every row, the filter with IN and NOT IN exchanged |
| `IbisFilter.FlippedTwice` | src/ibis_filter_expression.rs:88-105 | the exchange undoes itself and is the identity exactly on filters without IN |
| `IbisFilter.InListFreeIsPreserved` | src/ibis_filter_expression.rs:44-127 | filters without IN keep their meaning |
| `IbisFilter.InListIsComplemented` | src/ibis_filter_expression.rs:88-105 | an IN denotes its complement and keeps the right rows if and only if it is unknown |
| `IbisFilter.FlippingFirstIsExact` | src/ibis_filter_expression.rs:88-105 | translating the flipped filter is exact |
| `IbisFilter.InListKeepsTheWrongRows` | src/ibis_filter_expression.rs:88-105 | a concrete filter that keeps the wrong row and drops the right one |
| `Pushdown.DatasetScanAgreesWithVerdicts` | src/dataset.rs:97-108 | planning a dataset scan succeeds exactly when every filter was reported exact |
| `Pushdown.IbisScanAgreesWithVerdicts` | src/provider.rs:71-110 | the unwraps panic exactly when some filter was not reported exact |
| `Pushdown.PlannedScansNeverFail` | src/ibis_table.rs:79-121 | with the planner's own selection neither kind of scan fails |
| `Pushdown.ConjunctionPushes` | src/dataset_exec.rs:57-62 | the pushed conjunction passes exactly what every translated filter passes |
| `Pushdown.DatasetScanKeepsGuarded` | src/dataset_exec.rs:57-72 | every planned dataset scan keeps exactly what the guarded filters keep |
| `Pushdown.DatasetScanReturns` | src/dataset_exec.rs:57-72 | exactly the rows SQL keeps plus those whose only fault is an unknown NOT IN |
| `Pushdown.IbisScanReturns` | src/ibis_table.rs:80-100 | every planned ibis scan keeps exactly what the flipped filters keep; without IN, what SQL keeps |
| `Pushdown.InListFreeIsExact` | src/dataset.rs:97-108 | filters without IN are exact on every table |
| `Pushdown.PushedAndResidual` | src/provider.rs:99-110 | no filter is lost or applied twice between table and planner |
| `Pushdown.DatasetQueryIsCorrect` | src/dataset.rs:81-108 | scan plus residual filters return what SQL returns, for any mix of supported and unsupported filters in positive form |
| `Pushdown.IbisQueryIsCorrect` | src/ibis_table.rs:72-121 | the same for ibis tables and providers, for filters without IN |
| `FfiTable.HostTaskContext.TaskCtx` | src/ffi_table_provider.rs:59-70 | serves the live context and remembers it, else the fallback |
| `FfiServing.AtomicCheckIsTaskCtx` | src/ffi_table_provider.rs:60-69 | an uninterrupted pushdown check upgrades its codec and is one call of `task_ctx`, with the session held or gone |
| `FfiLifetime.WiredStep` | src/ffi_table_provider.rs:113-154 | every operation keeps every reference leading where it should, weak ones included |
| `FfiLifetime.NoStrongCycle` | src/ffi_table_provider.rs:11-13 | in every reachable process strong references only lead down: no cycle, and none from a table to a session |
| `FfiLifetime.SessionLifetime` | src/ffi_table_provider.rs:48-51 | a session is alive exactly while Python or a check that upgraded it holds it |
| `FfiLifetime.TableLifetime` | src/ffi_table_provider.rs:81-89 | a table is alive exactly while a call runs on it, a DataFrame reads it, or a session or DataFrame holds a catalog that lists it |
| `FfiLifetime.HostedCodecsUpgrade` | src/ffi_table_provider.rs:99-154 | in every run only a codec bound straight to a session was ever out of scope: never a hosted table's, never a running scan's |
| `FfiLifetime.HostedCheckAlwaysWorks` | src/ffi_table_provider.rs:17-20 | a hosted table that is held can be checked at any time, and its codec, if it uses one, upgrades |
| `FfiLifetime.DirectCodecNeedsTheSession` | src/context.rs:666-672 | a codec bound straight to a session is out of scope if and only if neither Python nor a running check holds the session |
| `FfiLifetime.DirectCheckFails` | src/ffi_table_provider.rs:3-9 | so a check on a live table bound that way fails once the session is collected |
| `FfiLifetime.ScanServesItsPlanner` | src/ffi_table_provider.rs:137-197 | through any run until it ends a scan keeps exactly the task context of the session that planned it, and the codec of a foreign provider points to it and upgrades |
| `FfiLifetime.ScanKeepsItsContext` | src/ffi_table_provider.rs:171-197 | whatever a scan keeps stays alive and the same until the scan ends, in every run |
| `FfiLifetime.ScanContextDiesWithScan` | src/ffi_table_provider.rs:132-136 | when a scan ends nothing else holds what it kept |
| `FfiLifetime.RegistrationBinds` | src/ffi_table_provider.rs:114-135 | a registration holds a table through the catalog, with its codec bound to a context provider of its own that has the registry as snapshot, or to the session |
| `FfiLifetime.DataFrameKeepsItsTable` | src/ffi_table_provider.rs:6-9 | in every run a table and its catalog are alive while Python holds a DataFrame over it |
| `FfiLifetime.DeregisterReleases` | src/ffi_table_provider.rs:11-13 | a deregistered table lives on exactly if a call, a DataFrame or another held catalog holds it |
| `FfiLifetime.HandlesAreCounted` | src/ffi_table_provider.rs:48-51 | dropping a clone changes nothing; dropping the last handle leaves the session only to a check in flight |
| `FfiServing.ServedWasSeen` | src/ffi_table_provider.rs:60-69 | with checks interleaved step by step, what is served after the session is gone is the registration snapshot or was served before, and no newer than the registry |
| `FfiServing.LastRememberedIsServed` | src/ffi_table_provider.rs:41-47 | when checks on a table do not overlap its fallback is the last one served and the newest |
| `FfiServing.FallbackGoesBack` | src/ffi_table_provider.rs:53-65 | in every schedule since registration an operation lowers the fallback if and only if it finishes a check and a function was registered between that check's read and the read of the check that finished last |
| `FfiServing.RegistryIsCounted` | src/ffi_table_provider.rs:60-65 | a registry is where it was plus the functions registered since |
| `FfiServing.OverlapLosesAFunction` | src/ffi_table_provider.rs:41-47 | a run from the start of a process in which a registered function is lost to the fallback |
| `SortOrder.KeepPrefix` | src/context.rs:408-420 | keeps the longest prefix of plain columns that the schema has; a shorter one is followed by a column it has not; fails exactly when the prefix is followed by a non-column |
| `SortOrder.KeyLaws` | src/context.rs:408-410 | ascending follows the order and descending reverses it, nulls go where asked |
| `SortOrder.FirstDifferenceDecides` | src/context.rs:408-410 | rows compare by the first key that tells them apart |
| `SortOrder.FirstOther` | src/context.rs:412-419 | where that prefix ends |
| `SortOrder.KeptOrderHolds` | src/context.rs:408-410 | rows sorted by the declared order are sorted by the kept one |
| `SortOrder.GapIsNoOrder` | src/context.rs:408-410 | skipping a key instead of stopping at it would not do |

## Left out

- GIL handling, PyO3 conversions and Arrow imports: a pull is an abstract source of answers.
- The inside of tokio, std channels and the stream builder, including the builder's error for a cancelled coordinator.
- A pull thread that dies without reporting, runtime shutdown, and dropping a guard with no runtime handle.
- PyArrowStreamPartition's lazily opened reader (`src/py_record_batch_provider.rs`): the ibis closure without a projection.
- PyArrowFilter.PushdownKeepsRows: positive position is sufficient for every filter and necessary for each IN node; it is not necessary for a filter whose other parts decide the row anyway, which no condition on its shape can tell.
- Pushdown.DatasetScanReturns: filters that bury a NOT IN under other operators are covered by `Pushdown.DatasetScanKeepsGuarded`.
- Chain.NestedWaitIsBounded: counts the moves that serve the query; how often a scheduler runs other moves in between is not bounded.
- Chain.NestedStreamsDoNotDeadlock: async workers and `wait_for_future` are not represented; a coordinator's step is atomic and never blocks the worker it runs on.
- ChainReading.AnswersAreDelivered: excludes a level below that panicked, because a panic may overtake queued batches; the model then still answers with the batch.
- Chain.DroppedChainIsReleased: says what is left when nothing moves any more; that every schedule of a dropped stream ends is proved per stream (`BridgeProgress.DroppedIsReleased`).
- Schema metadata and the wording of error messages.
- Object stores, file registration, catalog and expression wrappers, user-defined functions and SQL entry points: thin wrappers that would add easy members only.
- Floating point comparison and NaN order: the order on values is a parameter.
