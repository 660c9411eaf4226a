# Flow Observatory, modelled and proved

This project models the core of the flow observatory in Dafny and proves what its documentation promises of it, or
exactly when it keeps a promise that it does not always keep. Everything follows the code; where code and
documentation disagree the model follows the code and "Findings" below says so.

The parts, with the modules that hold them:

- **Evidence, counters and the fold** (`Evidence`, `Counters`, `Fold`, `FoldMeaning`): observations, the nine counter
  accumulators, and one in-place fold step per observation.
- **The bounded ledger** (`Ledger`, `LedgerRefinement`, `ArrivalOrder`, `ArrivalOrderExact`, `FoldLimits`, `Restore`,
  `Completion`): canonical order, the fence, compaction into a prefix, and saving and restoring it.
- **Reconciliation and lifecycle** (`Freshness`, `Reconcile`, `ReconcileMeaning`, `Lifecycle`, `Runtime`, `Recompute`):
  the views of several sources, their verdict, and the state decided from them.
- **The engine** (`FlowIngest`, `FlowSafety`, `Engine`, `EngineSafety`): flows, generations, bindings, eviction,
  registries, and every step over them, as a class and as a state machine over one run of the program.
- **Restarts** (`Restarts`, `OneSource`): the engine with its last compaction and its log, through compactions, closes,
  crashes, reopenings and replays.
- **The ingest queue** (`IngestQueue`, `QueuedIngest`): producers, drainers, workers, stop, start and close as steps
  over two locks, in every interleaving.
- **Durability** (`Crc32c`, `Journal`, `JournalRecovery`, `Binary`, `BinaryIO`, `Wire`, `ObsCodec`, `StateCodec`,
  `Snapshot`, `CrashRecovery`, `Recovery`): the record log, its checksum, the codecs, snapshot recovery, and what it gives back of
  the live engine.
- **The text protocol** (`Decimal`, `Commas`, `Names`, `Tokens`, `TextProto`, `TextRoundTrip`): FO1 observation lines.
- **Small algorithms** (`Attribution`, `History`, `Calendar`, `Checked`).

Classes (`CounterAccumulator`, `FoldState`, `SourceLedger`, `Engine`, `Journal`, `Crc`, `Writer`, `Reader`,
`LifecycleHistory`) change their fields in place; each method is proved to take the object's value to the value a
function gives, and the theorems are about those functions.

Choices that hold throughout:

- Integers have the widths of the source: sums saturate or wrap where the code does, and counters incremented with
  `++` wrap explicitly. A 64-bit window is the set of the positions of its one bits.
- The content digest and the hash functions from keys to identities are parameters. Theorems that need digests to
  separate contents, or identities to be non-zero, say so.
- The clock, and whether the journal took a record, are inputs of each step. The journal file is the bytes after its
  header of 64 bytes.
- Views are folded afresh every time.
- Text is a sequence of bytes.

## Model

| member | source | states |
|---|---|---|
| Counters.Conservation | src/counters.cpp:38-78 | For every sequence of readings and breaks, under either regression policy, the accumulator holds the exact total (increases inside each stretch, or maximum minus first when regressions are held) capped at 2^64-1, is flagged saturated exactly when the cap was needed, and has counted every gap and every regression modulo 2^64. |
| Counters.CounterAccumulator.Observe | src/counters.cpp:38-69 | The in-place accumulator moves to the state, and returns the outcome, that the accounting theorems are about. |
| Counters.CounterAccumulator.StartNewInterval | src/counters.cpp:71-78 | A new interval forgets the baseline and the last value and counts a gap exactly when something was being tracked. |
| Fold.FoldState.ApplyObservation | src/reconcile.cpp:255-439 | The in-place fold step, field by field, is the step of the left fold: fences before everything, nothing but fences, times and a count after the end, otherwise description, correlation and the counters of one direction. |
| Fold.FoldState.CrossFences | src/reconcile.cpp:255-302 | A new incarnation breaks every interval and is a restart gap unless it is the first; a new epoch breaks every interval and is a regression unless announced and honoured. |
| FoldMeaning.StepOnFence | src/reconcile.cpp:255-330 | One step moves the fences to the observation's key and declares an end exactly once, by the first evidence that declares one. |
| FoldMeaning.ConsumptionConserved | src/reconcile.cpp:255-439 | Each of the nine totals of a fold accounts for the readings of its counter and direction between source restarts, up to and including the first record that declares an end: exact total, capped and flagged, every gap and regression counted. |
| FoldMeaning.FirstTerminalWins | src/reconcile.cpp:255-439 | The first Close or Reset in canonical order fixes the declaration and everything that was consumed, covered and correlated; later evidence is only counted. |
| Ledger.SourceLedger.Insert | src/reconcile.cpp:543-649 | Inserting into the mutable ledger gives the outcome and the new contents of the ledger's specification, and adds to the ghost history exactly the entries it folded away. |
| Ledger.SourceLedger.FoldExcess | src/reconcile.cpp:629-649 | Entries beyond the capacity leave the ledger lowest first, into the prefix, in the order in which the ghost history records them. |
| Ledger.SourceLedger.WholeFold | src/reconcile.cpp:660-680 | The complete folded state, whose window tail and fences are set once at the end, equals folding the entries onto the prefix one by one. |
| Ledger.SourceLedger.Seed | src/reconcile.cpp:682-689 | Seeding replaces everything the ledger holds by the prefix and counts what the prefix had folded as accepted. |
| LedgerRefinement.BoundedRefinesFullFold | src/reconcile.cpp:543-700 | After any run of insertions at any capacity, folding the prefix and then the retained entries is the left fold of everything admitted, in canonical order; the retained entries are strictly sorted, above everything folded and within capacity, and the accepted count is folded plus retained. |
| LedgerRefinement.InsertRefinesPlace | src/reconcile.cpp:543-649 | One insertion changes the whole history by placing the observation in order (or keeping the smaller digest under a taken key), and by nothing when the observation is not the ledger's or lies under the fence. |
| LedgerRefinement.FoldedIsFenced | src/reconcile.cpp:543-592 | What has been folded is never applied again: it is answered as a duplicate or as late. |
| LedgerRefinement.ViewIsFullFold | src/reconcile.cpp:660-700 | The evidence a view is built from, and the state a snapshot records, are the fold of the ledger's whole history. |
| LedgerRefinement.AdmittedInOrder | src/reconcile.cpp:543-649 | A ledger that starts from any prefix and holds any entries admits, whole and in order, evidence in canonical order above all of it. |
| LedgerRefinement.InOrderRun | src/reconcile.cpp:543-649 | Evidence presented in canonical order is retained at its end and folded at its beginning, whatever the capacity. |
| ArrivalOrder.ArrivalOrderIndependent | include/flowobs/reconcile.hpp:59-64 | Two ledgers of any capacities, shown the same evidence in any orders with any repetitions, hold the same history and the same folded evidence when neither refused anything as late. |
| ArrivalOrder.WithinCapacityIdentical | src/reconcile.cpp:594-628 | With no more keys than the capacity, every order and repetition leaves the same retained entries, the smallest digest under each conflicting key, and the same folded evidence. |
| ArrivalOrderExact.EveryOrderCanonicalIff | include/flowobs/reconcile.hpp:59-64 | For a fresh ledger and a set of evidence with one content per key, every order and every repetition ends in the canonical history of the set if and only if the set has at most one key more than the ledger's capacity. |
| ArrivalOrderExact.CanonicalIffRefusalsCovered | src/reconcile.cpp:543-649 | A run ends in the canonical history of everything it was shown if and only if each observation the fence refused was, when it was refused, covered by a folded observation under its key with no larger digest. |
| FoldLimits.ArrivalOrderMatters | include/flowobs/reconcile.hpp:59-64 | Three observations and capacity one: in canonical order the view starts at the first instant, with the earliest last that one is refused and the view starts at the second. |
| FoldLimits.FenceCoversFoldIff | src/reconcile.cpp:565-592 | The fence covers everything folded if and only if the 32-bit count of folded observations is not zero modulo 2^32. |
| FoldLimits.FoldedTwice | src/reconcile.cpp:565-592 | A ledger of capacity one that was shown the sequence numbers 1 to 2^32 + 1 in order has folded the first of them and accepts it again. |
| FoldLimits.WindowExactInside | src/reconcile.cpp:154-206 | From the first key of a new fence, and while all sequence numbers stay within 64 of it, the duplicate window contains exactly the sequence numbers folded. |
| FoldLimits.RedeliveryRecognisedIff | src/reconcile.cpp:154-206 | The exact condition under which the evidence just folded is recognised when it is delivered again, for every window and key, wrap-around included. |
| FoldLimits.SlidesTruthfullyIff | src/reconcile.cpp:169-175 | A window that slides still answers truthfully for what it knew and for the new key if and only if every shifted bit lands where the right bit belongs. |
| FoldLimits.FullWindowSlides | src/reconcile.cpp:169-175 | A window with all bits set slides truthfully if and only if it slides by 1 or by 63. |
| FoldLimits.SlidingLosesExactness | src/reconcile.cpp:169-175 | Sequence numbers 0 and 64: the window forgets 64 and claims 1, which was never folded. |
| FoldLimits.AlwaysFullFoldIff | src/reconcile.cpp:527-541 | Views built under one counter policy from ledgers that fold with another are full folds of the ledger's history, for every ledger, if and only if the two policies are equal. |
| FoldLimits.OtherPolicyShowsCapacity | src/reconcile.cpp:629-649 | For any two different policies there is evidence on which a ledger of capacity one and one of capacity three, both in their configured state before, are viewed differently. |
| FoldLimits.HoldPolicyDependsOnCapacity | src/engine.cpp:159-182 | With the hold policy configured, a descent is one unknown interval at capacity one and none at capacity three, because ledgers keep folding with the default policy. |
| Restore.Resume | src/engine.cpp:1278-1321 | Restoring builds a ledger seeded with exactly the prefix that the recorded source gives. |
| Restore.NothingReapplied | src/engine.cpp:1278-1321 | Everything a ledger held when it was saved is refused as late by the restored ledger, so nothing is counted twice. |
| Restore.RestoreIsHomomorphic | src/engine.cpp:442-478 | For later evidence that the restored and the original ledger both admit, in any order, the accounting ends the same: accumulators, coverage, declaration, progress, instants, fences and high-water marks. |
| Restore.RestoreContinues | src/engine.cpp:442-478 | Evidence in canonical order above the restored fence is admitted whole by the restored and by the original ledger, and their accounting ends the same. |
| Restore.FenceNeverRetreats | src/engine.cpp:1288-1294 | Whatever the original ledger fenced, the restored ledger fences. |
| FoldLimits.RestoredFenceRefuses | src/engine.cpp:1288-1294 | Sequence number 9 of one incarnation and 1 of the next: the saved ledger accepts sequence number 5 of the new incarnation, the restored one refuses it as late. |
| Restore.RestoredFenceExactIff | src/engine.cpp:1288-1294 | The restored fence refuses nothing that the original would have accepted if and only if the last key carried both the highest revision and the highest sequence number. |
| Completion.CompletedMeansClosedFirst | src/reconcile.cpp:255-439 | Under any viewing policy and after any compaction, a source's evidence declares Completed if and only if the first Close or Reset of everything its ledger holds or held is a Close. |
| Freshness.SkewIsExact | src/reconcile.cpp:512-521 | Clock skew is reported exactly when both instants are known and their mathematical difference exceeds the limit, although the difference is computed with clamping. |
| Freshness.FreshExactlyInWindow | src/reconcile.cpp:474-510 | Evidence is fresh exactly when its effective instant is known, not in the future and no older than the window, and it need not be reconfirmed. |
| Freshness.FreshnessOnlyAges | src/reconcile.cpp:474-510 | As the clock advances, evidence never becomes fresher. |
| Freshness.FutureStampGainsNothing | src/reconcile.cpp:474-510 | Evidence stamped later than it was received is judged by the instant it was received. |
| Reconcile.WithinToleranceIff | src/reconcile.cpp:790-804 | The comparison, which avoids division, means: within the absolute bound, or within the relative bound when that product is representable. |
| Reconcile.SortForgetsOrder | src/reconcile.cpp:781-788 | With one view per source, sorting gives the same sequence for every input order. |
| Reconcile.TotalIsCappedSum | src/reconcile.cpp:819-835 | A total is the sum of its three directions capped at 2^64-1, and is called saturated whenever a part or the sum was. |
| Reconcile.Judge | src/reconcile.cpp:1009-1068 | The pairwise loops over the usable sources report the closed-form verdict and the first disagreeing pair. |
| Reconcile.ReconcileGeneration | src/reconcile.cpp:869-1089 | The whole reconciliation loop computes the view its specification describes: coverage, totals, primary, verdict, timing, path, queues and links. |
| ReconcileMeaning.InputOrderIsInvisible | src/reconcile.cpp:869-1089 | The reconciled view depends only on the multiset of source views, not on the order in which they are handed over. |
| ReconcileMeaning.VerdictClosedForm | src/reconcile.cpp:1009-1068 | With higher authority resolving, the verdict is Conflict exactly when two usable sources of the highest usable authority disagree, Resolved exactly when only other pairs do, Corroborated exactly when at least two are usable and none disagree. |
| ReconcileMeaning.AdvisorySourcesHaveNoSay | src/reconcile.cpp:869-1089 | Removing every advisory source changes no coverage, number, primary source or verdict. |
| ReconcileMeaning.TotalIsSomebodysCount | src/reconcile.cpp:961-1008 | The reported byte total is the count of some usable source: the best placed, the largest or the smallest, as the rule says. |
| ReconcileMeaning.TimingMeaning | src/reconcile.cpp:904-922 | A view was first observed at the earliest known first instant of its sources, and was last observed and last progressed at the latest. |
| ReconcileMeaning.AttachedMeaning | src/reconcile.cpp:924-960 | Queues and links appear once each, each was declared by a source, and none is missing while the budget lasts. |
| ReconcileMeaning.ConflictNamesDeadlockIff | src/reconcile.cpp:1025-1068 | When a conflict is unresolved, the two sources its text names as equals are of equal authority, and then really deadlocked, if and only if the first source that disagrees with any later one disagrees with a later peer of its own authority. |
| ReconcileMeaning.ConflictNamesDeadlock | src/reconcile.cpp:1025-1068 | With zero tolerances the named pair is always a deadlocked pair. |
| ReconcileMeaning.ConflictTextCanMislead | src/reconcile.cpp:1025-1068 | With an absolute tolerance of ten, four sources make the text call equals two sources of which one outranks the other. |
| Lifecycle.EndIsDecidedIff | src/reconcile.cpp:1095-1228 | Exactly when a decision is Completed, Reset or Expired, in terms of the view, the expiry policy and the clock. |
| Lifecycle.CompletionNeedsEntitledSource | src/reconcile.cpp:1095-1228 | A generation completes only on the declaration of a non-advisory source that holds the completion capability. |
| Lifecycle.DeclaredCompletedIff | src/reconcile.cpp:255-439 | Folded evidence declares Completed exactly when the first Close or Reset is a Close. |
| Lifecycle.StaysActiveIff | src/reconcile.cpp:1095-1228 | Without trustworthy evidence a generation is Active exactly when it was Active, nothing ends it, and expiry is off or finds no restored source and no age. |
| Lifecycle.ActiveOnEvidenceIff | src/reconcile.cpp:1095-1228 | On trustworthy evidence a generation is Active exactly when it has not ended, is not in conflict, some usable source observed progress, and expiry does not find it idle. |
| Lifecycle.DecisionIsStable | src/reconcile.cpp:1095-1228 | Deciding again on the same view from the state just decided decides the same state and brings no other cause. |
| Recompute.RecomputeFlow | src/engine.cpp:211-384 | The in-place recomputation of a flow, generation by generation, ends in the specified flow and emits the specified events. |
| Recompute.EvaluationIsFixpoint | src/engine.cpp:211-384 | Evaluating a flow again at the same instant changes no state, cause, closing time, timing or history entry, and emits no event; only the anomaly list can change. |
| Recompute.SecondEvaluationIff | src/engine.cpp:211-384 | A second evaluation at the same instant changes nothing at all if and only if no trusted source declares an end it is not entitled to (while fewer than 2^64 such declarations are noted). |
| FlowIngest.BinaryAgreesWithLinear | src/engine.cpp:805-839 | On a sorted table the binary search finds an identity exactly when a linear scan does, and the place it gives keeps the table sorted. |
| FlowIngest.FindVictim | src/engine.cpp:1148-1167 | The loop that looks for a generation to evict finds the specified victim. |
| FlowIngest.VictimIsLowest | src/engine.cpp:1148-1167 | The victim is an ended generation that is not current, of the lowest identity among those; there is none exactly when none can go. |
| FlowSafety.IngestedSafe | src/engine.cpp:845-1124 | One observation, however it is disposed of, keeps the flow's bounds, orders, ends and coherence; only applied evidence makes a generation heard. |
| FlowSafety.RecomputedSafe | src/engine.cpp:211-384 | Recomputing keeps bounds, order and every end, gives the flow the state of its current generation, and makes no generation heard. |
| FlowSafety.QuietIsNotLive | include/flowobs/flow.hpp:220-222 | A flow whose current generation has not been heard in this run is not live. |
| Engine.Engine.ApplyLocked | src/engine.cpp:845-1124 | Ingest in place takes the engine to the specified next state and counts the observation once as received and once as applied, duplicate, refused or conflicting. |
| Engine.Engine.EvictOneFlow | src/engine.cpp:1126-1146 | The flow evicted is the ended one touched the longest ago, the lowest identity first among equals; none is evicted when none has ended. |
| Engine.Engine.RegisterIdentity | src/engine.cpp:761-803 | Identities are registered one after the other until one fails, leaving the registries and the outcome of the specification. |
| Engine.Engine.Observe | src/engine_impl.hpp:110-122 | A registry adds a new key, compares a known one, and refuses when full. |
| Engine.Engine.Tick | src/engine.cpp:1432-1471 | A tick recomputes, in place, exactly the flows that have not ended altogether. |
| Engine.Engine.Register | src/engine_api.cpp:202-241 | Registering a source updates a known one and makes it active again, and adds a new one only within the limit and after its journal record was taken. |
| Engine.Engine.Retire | src/engine_api.cpp:263-286 | Retiring a source marks it, removes its bindings from every generation and recomputes. |
| Engine.RestoreFlow | src/engine.cpp:1208-1367 | A recorded flow becomes a runtime flow with its generations, ends and bindings, and with no source heard. |
| Engine.Reopen | src/engine.cpp:1208-1367 | A new engine opened on the snapshot of another engine's state starts, ready to replay, in the specified restarted state. |
| EngineSafety.CountedOnce | src/engine.cpp:845-1124 | Received stays equal to applied plus duplicate plus refused plus conflicting, modulo 2^64. |
| EngineSafety.RegisterAllSafe | src/engine.cpp:761-803 | All four registries stay within bounds and never forget or rename an identity; success means that each of the five identities a subject can name, both endpoints, path, queue and link, is registered under the key given for it. |
| EngineSafety.AdmitFlowSafe | src/engine.cpp:1126-1146 | The flow table never exceeds its limit: an ended flow makes room or the newcomer is refused. |
| EngineSafety.StepSafe | src/engine.cpp:845-1471 | Every ingest, replayed or new, every tick, registration, retirement and settling of one run of the program keeps the engine's invariant and every end, and makes a generation heard only through evidence applied in this run. |
| EngineSafety.RunKeepsBounds | src/engine.cpp:845-1471 | No run of steps exceeds a limit, breaks the order of a table or miscounts an observation. |
| EngineSafety.EndIsFinal | src/engine.cpp:130-153 | Within one run of the program, replay included, an ended generation keeps its state, cause and closing instant through every sequence of ingests, ticks, registrations, retirements and settlings until it is evicted. |
| EngineSafety.OnlyEndsAreEvicted | src/engine.cpp:1126-1167 | What a step removes has ended: a whole flow only when it reads as ended, a generation only when it has ended and is not current. |
| EngineSafety.NotLiveUntilHeard | src/engine.cpp:368-383 | After a restart, whatever was persisted and whatever follows, a flow is not live until evidence for its current generation is accepted in the new run. |
| EngineSafety.RetiredIsUnbound | src/engine_api.cpp:263-286 | After the retirement of a source, recomputation included, no generation holds evidence of it, and each holds exactly the evidence it held of every other source. |
| EngineSafety.CollisionShieldsEndedFlow | src/engine.cpp:1432-1471 | After a key collision the next tick restores the current generation's decided state to the flow if and only if some generation has not ended; otherwise the flow stays as it is, not terminal, and so not evictable. |
| EngineSafety.CollisionReached | src/engine.cpp:845-1124 | Valid evidence whose identity is that of a flow with another key collides with that flow and changes no other. |
| EngineSafety.CollisionHappens | src/engine.cpp:845-1124 | For any two keys that share an identity there is a machine in order, with a completed flow, and one observation after which the flow reads Conflicting through every tick. |
| Restarts.MoveKeepsProgram | src/engine.cpp:1173-1367 | Every move of a program with its snapshot and its log (a step of the open engine, a compaction, a close or crash at any time, a reopening, the replay of one recorded observation, the end of the replay) keeps the invariant of the engine in memory and of the last compaction. |
| Restarts.EveryProgramOk | src/engine.cpp:1173-1367 | From a new log on, after every sequence of such moves, the engine is within its limits, its tables are in order and its counts balance. |
| Restarts.CompactedEndIsFinal | src/engine.cpp:616-635 | An end that the last compaction has as well keeps its state, cause and closing instant through every sequence of moves, any number of restarts and crashes included, until the generation is evicted. |
| Restarts.ReopenedEndsIff | src/engine.cpp:1208-1321 | Opening a snapshot gives exactly the ends the snapshot has: no other, and none is lost. |
| Restarts.ReopeningForgets | src/engine.cpp:1432-1471 | A tick, a retirement, or a changed descriptor of a known source makes no difference to the program that is reopened without a compaction between. |
| OneSource.TickedEndIsLost | src/engine.cpp:1323-1366 | From a new engine: one observation, then a tick that closes its flow at t1, then a reopening at t2. The flow is then closed at t2 if it is old enough by that clock, and not ended at all otherwise, so the end survives if and only if t2 is t1. |
| OneSource.ActiveAfterReopening | src/reconcile.cpp:1095-1228 | With expiry off, progress that was compacted is called active after the reopening, at every instant, before any source has been heard. |
| OneSource.RefusalRepeated | src/engine.cpp:251-272 | A Close of a source without the capability makes a second evaluation at the same instant change the flow. |
| IngestQueue.StepKeepsInv | src/engine_api.cpp:320-411 | In every interleaving of producers, drainers, workers, stop, start and close, the queue stays within its bound, each lock is held by exactly the thread inside it, each accepted observation is in exactly one place, and a pool that counts as stopped has no worker left. |
| IngestQueue.RunKeepsInv | src/engine.cpp:1369-1430 | The same holds at the end of every run. |
| IngestQueue.NoQueueThenEngine | src/engine_api.cpp:320-411 | No thread asks for the engine lock while it is inside the queue lock. |
| IngestQueue.QueueHolderNeverWaits | src/engine_api.cpp:320-411 | The thread inside the queue lock always has a next step, whatever the others hold. |
| IngestQueue.LastExitLeavesNothing | src/engine.cpp:1369-1430 | When the last worker exits and no drain is under way, everything accepted has been applied or was lost, and nothing is queued or in flight. |
| IngestQueue.LostIff | src/engine_api.cpp:160-200 | A step loses evidence if and only if it is a close clearing a queue that is not empty, or a drained batch that is not empty reaching a closed engine. |
| IngestQueue.LostAlongIff | src/engine_api.cpp:160-200 | A run loses something if and only if it takes such a step. |
| IngestQueue.AppliedIffNothingLost | src/engine_api.cpp:320-411 | Once a run from the start has settled, every accepted observation has been applied exactly once if and only if no step lost any, through any stops and restarts of the workers. |
| IngestQueue.AcceptedCanBeLost | src/engine_api.cpp:160-200 | A producer passes the open check, close joins the workers, the push is accepted and the queue is cleared: an accepted observation is lost. |
| QueuedIngest.QueueEqualsDirectIngest | src/engine_api.cpp:320-411 | After any settled run that lost nothing, every ledger that had room holds exactly what ingesting the accepted observations one after the other would have left, whatever order the workers applied them in. |
| Crc32c.BuildTable | src/checksum.cpp:13-27 | The table loop builds the table of the reflected Castagnoli polynomial: entry i is eight bit steps of i. |
| Crc32c.FeedByTable | src/checksum.cpp:49-56 | The byte-at-a-time table loop computes the bit-by-bit remainder of section 12.1 of RFC 3720, for every input and start state. |
| Crc32c.Crc.Update | src/checksum.cpp:49-56 | Feeding a checksum in pieces is feeding it the concatenation. |
| Crc32c.Crc.Value | src/checksum.cpp:58 | The value is the checksum of everything fed, computed without disturbing the state. |
| Crc32c.BurstDetected | src/checksum.cpp:49-58 | Any change confined to four consecutive bytes changes the checksum, whatever surrounds it. |
| Journal.Journal.Append | src/persistence.cpp:929-979 | Appending checks the size bound before writing, writes whole records, and stops at the first payload over its own bound, leaving the records before it in the file but not in the believed size. |
| Journal.Journal.ReadAll | src/persistence.cpp:1014-1093 | The reading loop returns exactly what parsing the file record by record gives, or refuses a file over the bound. |
| JournalRecovery.JournalRoundTrip | src/persistence.cpp:933-1093 | Records that were written are read back, all of them and in order, under either torn-tail policy. |
| JournalRecovery.AppendThenRead | src/persistence.cpp:940-1024 | What a new journal accepted is read back if and only if the header of 64 bytes fits the bound as well. |
| JournalRecovery.FullJournalRefused | src/persistence.cpp:940-1024 | A bound of twelve bytes: a record of twelve is written and then refused on reading. |
| JournalRecovery.TornTailRecovery | src/persistence.cpp:1038-1092 | A log cut at any byte: truncating recovery returns precisely the records wholly before the cut; strict recovery returns them if and only if the cut is on a record boundary. |
| JournalRecovery.CorruptionDetected | src/persistence.cpp:1052-1083 | Changing the kind and reserved bytes of any record, or up to four consecutive payload bytes, or its checksum, makes reading fail under either policy, whatever follows. |
| CrashRecovery.HalfSnapshotRefused | src/persistence.cpp:1393-1498 | A snapshot cut short between its records is refused as corrupt, never taken for a state. |
| CrashRecovery.CrashRecovers | src/persistence.cpp:1014-1498 | A crash at any byte after the snapshot: recovery gives back the snapshot's state and, in order, exactly the observations whose records lie wholly before the cut. |
| Recovery.LoadedFlowIs | src/engine.cpp:1232-1350 | Reloading a saved flow that records a runtime flow field by field, with the complete fold of each ledger, gives the flow a restart begins with. |
| Recovery.SnapshotReopens | src/engine.cpp:1208-1350 | Reloading a snapshot that records an engine gives exactly the engine a restart begins with. |
| Recovery.CrashReopens | src/persistence.cpp:1014-1498 | The bytes a crash leaves after the snapshot of an engine are a log, and whatever state and evidence that log gives back, loading the state is the restart of the engine and the evidence is exactly what was recorded wholly before the cut. |
| Recovery.ReplayedLedger | src/engine.cpp:1352-1366 | A ledger that is saved, reloaded and shown what the log kept, evidence for other ledgers in between included, accounts for what the ledger that was never stopped accounts for. |
| Recovery.CrashKeepsAccounting | src/engine.cpp:1208-1366 | After a crash, each ledger of the reloaded engine, shown the evidence the log gives back, accounts for what the live ledger in its place accounted for when the last whole record had been applied. |
| Wire.RoundTrip | src/binary.hpp:10-221 | Decoding an encoded value followed by anything gives the value back and leaves exactly what followed, for every shape the codecs are made of. |
| Wire.Canonical | src/binary.hpp:66-221 | The format is canonical: bytes that decode are the encoding of what they decode to, and the value keeps the limits. |
| Wire.DecodesIffFits | src/binary.hpp:66-221 | What a writer without limits wrote is read under limits if and only if it keeps them. |
| BinaryIO.Writer.U64 | src/binary.hpp:22-26 | Appends the eight bytes of the number, the least significant first. |
| BinaryIO.Writer.Text | src/binary.hpp:29-34 | Appends a 32-bit length and the bytes of the text. |
| BinaryIO.Reader.U64 | src/binary.hpp:129-138 | Takes exactly the eight bytes of a number, or latches failure. |
| BinaryIO.Reader.Text | src/binary.hpp:145-156 | Takes a length-prefixed text within the limit, checking the length before taking anything, or latches failure. |
| ObsCodec.EncodeObservation | src/obs_codec.cpp:77-134 | The field-by-field writer appends exactly the encoding of the observation's record shape. |
| ObsCodec.DecodeObservation | src/obs_codec.cpp:136-246 | The field-by-field reader accepts exactly the bytes the record shape decodes under the limits, and gives the observation they encode. |
| ObsCodec.ObservationFits | src/obs_codec.cpp:136-246 | An observation can be read back under limits if and only if it keeps them. |
| ObsCodec.ItemsDetermine | src/obs_codec.cpp:77-134 | The encoded fields determine the observation, apart from its source key. |
| ObsCodec.ObservationRoundTrip | src/obs_codec.cpp:77-246 | An encoded observation followed by any bytes decodes, leaving exactly those bytes, if and only if it keeps the reader's limits. |
| ObsCodec.WriteThenRead | src/obs_codec.cpp:77-246 | Running the writer and then the reader gives back the observation without its source key and leaves the rest, if and only if the limits are kept. |
| StateCodec.FlowFitsIff | src/persistence.cpp:654-737 | A saved flow fits the reader's shape exactly when its keys, lists and texts keep the reader's bounds. |
| StateCodec.FlowRoundTrip | src/persistence.cpp:618-737 | A saved flow is read back unchanged under the reader's bounds if it keeps them, and refused otherwise. |
| StateCodec.FlowDetermined | src/persistence.cpp:618-652 | Two saved flows with the same encoding are the same flow. |
| StateCodec.DescriptorRoundTrip | src/persistence.cpp:256-274 | A source descriptor is read back unchanged if its key is within the limit, and refused otherwise. |
| Snapshot.EncodeState | src/persistence.cpp:1189-1266 | The snapshot writer produces exactly the group of records of the state, or refuses it when flows, sources or bytes exceed their limits. |
| Snapshot.DecodeState | src/persistence.cpp:1268-1391 | The snapshot reader's loop over the records gives exactly the specified result, error cases in the specified order. |
| Snapshot.ReplayRecords | src/persistence.cpp:1393-1498 | The replay loop over a log gives exactly the specified result: later snapshots replace earlier state, observations and sources accumulate. |
| Snapshot.SnapshotRoundTrip | src/persistence.cpp:1189-1391 | A written snapshot is accepted if and only if it keeps the reader's limits and the versions it enforces, and then gives back the state. |
| Snapshot.ValuesDetermine | src/persistence.cpp:1189-1266 | Only one state has the values that a snapshot holds. |
| Snapshot.LinksNotRead | src/persistence.cpp:416-539 | Whatever the reader's bound on links, a state with one link more is written without complaint and its group is refused. |
| Snapshot.AcceptedGroupIsComplete | src/persistence.cpp:1268-1391 | A group that is accepted has as many source and flow records as its end declares, and the digest its end declares. |
| Snapshot.ReplayContinues | src/persistence.cpp:1393-1498 | Replaying a log and then more of it is replaying the whole. |
| Snapshot.LastSnapshotWins | src/persistence.cpp:1393-1498 | After any replayable records, a snapshot and the observations after it: recovery ends in the snapshot's state with exactly those observations, in order. |
| Decimal.ParseU64 | src/textproto.cpp:83-105 | The digit loop with checked arithmetic accepts exactly the decimal texts of 64-bit numbers and gives their values. |
| Decimal.ParseI64 | src/textproto.cpp:107-135 | The signed parser accepts exactly the decimal texts of signed 64-bit numbers, the least one included. |
| Decimal.U64RoundTrip | src/textproto.cpp:83-105 | Every 64-bit number survives being printed and read. |
| Decimal.I64RoundTrip | src/textproto.cpp:107-135 | Every signed 64-bit number survives being printed and read. |
| Decimal.CounterRoundTrip | src/textproto.cpp:153-163 | Every counter, absent ones included, survives being printed and read. |
| Commas.NumbersRoundTrip | src/textproto.cpp:399-416 | A printed list of hop capacities is read back as it was. |
| Names.KindRoundTrip | src/semantics.cpp:215-220 | Every kind is found again by the name printed for it. |
| Names.CapabilitiesRoundTrip | src/textproto.cpp:519-553 | Every combination of capabilities survives being printed and read. |
| Tokens.Tokenize | src/textproto.cpp:25-81 | The tokenizer loop gives the specified tokens, or fails on what the specification refuses, within the bound on their number. |
| Tokens.RenderedTokensComeBack | src/textproto.cpp:25-81 | Any list of rendered tokens is tokenized back to itself, whatever bytes its escaped, quoted values hold. |
| TextProto.ParseLine | src/textproto.cpp:214-480 | Parsing a line is tokenizing it, checking version and shape, and reading its fields in order. |
| TextRoundTrip.FormatObservation | src/textproto.cpp:573-668 | The printer, which appends field after field, prints exactly the specified line. |
| TextRoundTrip.PrintedLineReads | src/textproto.cpp:339-480 | For every observation, the line printed for it is refused exactly when a fence is zero, and otherwise read as the observation with its identities recomputed from what was printed. |
| TextRoundTrip.PrintParseInverse | src/textproto.cpp:339-668 | A printed observation is read back as it was, up to its source key, if and only if it is printable: keys that give its identities, some capability, non-zero fences. |
| Attribution.Distribute | src/attribution.cpp:96-163 | The shares always sum to the total, through every overflow and clamp path; where nothing overflows they are the largest-remainder apportionment, and zero weights mean an equal split with the remainder at the lowest indices. |
| Attribution.UniformLowestFirst | src/attribution.cpp:96-163 | Under equal weights shares differ by at most one, the larger at the lower indices. |
| History.LifecycleHistory.Push | src/history.cpp:40-53 | A full ring overwrites its oldest event and counts it; the contents are the newest of all events pushed, in order. |
| History.LifecycleHistory.Tail | src/history.cpp:64-76 | The tail of a ring is the last events, in order. |
| History.LifecycleHistory.SetCapacity | src/history.cpp:12-38 | Changing the capacity keeps the newest events in order and counts what it drops, except that a capacity of zero forgets without counting. |
| Calendar.CivilFollowsCalendar | src/time.cpp:26-37 | Every day number names a real date of the proleptic Gregorian calendar, and the next day number names the next date. |
| Calendar.CivilBackwards | src/time.cpp:26-37 | The date of the preceding day number is the date whose next day is this one. |
| Calendar.Epoch | src/time.cpp:26-37 | Day zero is 1 January 1970. |
| Calendar.DaysFromCivilInverseIff | src/time.cpp:17-24 | Converting a date back to its day number is exact if and only if the month is January or February. |
| Calendar.DaysFromCivilOvershoots | src/time.cpp:17-24 | Converting back exceeds the day number by exactly the month's term. |
| Calendar.RenderedDayIff | src/time.cpp:64-96 | The day that rendering picks for an instant is right if and only if the instant is not before 1970 or is a midnight. |

## Findings

Promises of the code or its documentation that do not hold as stated, each with the input that shows it and the exact
condition under which it holds.

- **Accounting regardless of arrival order or capacity** (include/flowobs/reconcile.hpp:59-64). False beyond capacity:
  with capacity one and three keys, presenting the lowest last loses it (`FoldLimits.ArrivalOrderMatters`). It holds for
  every order and repetition exactly up to one key more than the capacity (`ArrivalOrderExact.EveryOrderCanonicalIff`),
  and for one run exactly when every refusal was covered (`ArrivalOrderExact.CanonicalIffRefusalsCovered`).
- **The duplicate window** (src/reconcile.cpp:169-175). Sliding shifts bits the wrong way: sequence numbers 0 and 64 make
  the window forget 64 and claim 1 (`FoldLimits.SlidingLosesExactness`). `FoldLimits.SlidesTruthfullyIff` and
  `FoldLimits.RedeliveryRecognisedIff` say exactly when the answers are right. While the fence
  stands nothing folded is applied again (`LedgerRefinement.FoldedIsFenced`); only the choice between duplicate and late is
  affected.
- **The fence and its count.** The fence opens after 2^32 foldings, because an empty prefix is recognised by a 32-bit
  count (`FoldLimits.FenceCoversFoldIff`), and what was folded is accepted a second time (`FoldLimits.FoldedTwice`).
- **The configured counter policy** (src/reconcile.cpp:527-541). Ledgers keep the default policy, so a view under the hold
  policy depends on what was compacted (`FoldLimits.HoldPolicyDependsOnCapacity`). Views are full folds exactly under the
  ledger's own policy (`FoldLimits.AlwaysFullFoldIff`).
- **The restored fence** (src/engine.cpp:1288-1294). It can be stricter than the one saved and then refuses evidence that
  would have been accepted (`FoldLimits.RestoredFenceRefuses`); it is exact exactly when the last key carries both
  high-water marks (`Restore.RestoredFenceExactIff`).
- **Ended stays ended across a restart** (docs/semantics.md:75-80, docs/persistence.md:60). Ticks and retirements are not
  recorded, so an end that a tick decided is decided again on reopening, with another closing instant or not at all
  (`OneSource.TickedEndIsLost`), and a retirement, or a change of a known source's descriptor, is undone
  (`Restarts.ReopeningForgets`). Opening gives exactly the ends of the last compaction (`Restarts.ReopenedEndsIff`); those
  are final through every later restart (`Restarts.CompactedEndIsFinal`).
- **Accepted observations are applied** (src/engine_api.cpp:160-200, 383-411). A close can clear what a producer was told
  was queued, and a batch drained before a close is thrown away after it (`IngestQueue.AcceptedCanBeLost`). Nothing else
  loses evidence (`IngestQueue.LostIff`), and a settled run has applied everything exactly when no such step was taken
  (`IngestQueue.AppliedIffNothingLost`).
- **The conflict text** (src/reconcile.cpp:1025-1068). It calls two sources equals that need not be
  (`ReconcileMeaning.ConflictTextCanMislead`); `ReconcileMeaning.ConflictNamesDeadlockIff` says exactly when they are.
- **Key collisions** (src/engine.cpp:1432-1471). On a flow that has ended altogether the Conflicting state set by a
  collision is never put right and shields the flow from eviction (`EngineSafety.CollisionHappens`); the next tick puts it
  right exactly when some generation has not ended (`EngineSafety.CollisionShieldsEndedFlow`).
- **Never Active after a restart** (include/flowobs/flow.hpp:213-214). With expiry switched off, a generation restored as
  Active is still called Active (`OneSource.ActiveAfterReopening`; `Lifecycle.StaysActiveIff` says exactly when). It
  is not live, which is what `is_live` asks (`EngineSafety.NotLiveUntilHeard`).
- **Evaluation twice at one instant.** Refused declarations are noted again by every evaluation
  (`OneSource.RefusalRepeated`, and exactly then: `Recompute.SecondEvaluationIff`); everything else is a fixpoint
  (`Recompute.EvaluationIsFixpoint`).
- **The journal bound** (docs/persistence.md:85). A journal created in this process does not count its own header when it
  writes and does when it reads: within 64 bytes of the bound it refuses to read what it accepted
  (`JournalRecovery.FullJournalRefused`; `JournalRecovery.AppendThenRead` is the exact condition).
- **State codec limits** (src/persistence.cpp:618-737). Writing bounds fewer lists and texts than reading does, so a state
  can be written that is refused on reading (`Snapshot.LinksNotRead`); `Snapshot.SnapshotRoundTrip` gives the exact condition.
- **Print and parse** (src/textproto.cpp:573-668). An observation without capabilities, or with an identity that no key
  gives, is not read back as it was; `TextRoundTrip.PrintParseInverse` gives the exact condition.
- **A history of capacity zero** (src/history.cpp:12-38). Shrinking to zero forgets events without counting them as dropped
  (`History.LifecycleHistory.SetCapacity`).
- **Dates** (src/time.cpp:17-24, 64-96). The inverse conversion is right only in January and February
  (`Calendar.DaysFromCivilInverseIff`), and instants before 1970 are rendered on the wrong day unless they are midnights
  (`Calendar.RenderedDayIff`).

## Left out

- ArrivalOrder.ArrivalOrderIndependent: gives a condition on the run, not on the input; the conditions on the input are ArrivalOrder.WithinCapacityIdentical and, exactly, ArrivalOrderExact.EveryOrderCanonicalIff.
- ArrivalOrderExact.EveryOrderCanonicalIff: does not say for which sets with conflicting contents under one key every order is canonical beyond capacity.
- Restore.RestoreIsHomomorphic: says nothing about evidence that only one of the two ledgers admits; which that can be is Restore.RestoredFenceExactIff, and Restore.RestoreContinues gives a condition on the evidence under which both admit all of it.
- LedgerRefinement.BoundedRefinesFullFold: covers ledgers on which the 32-bit count of foldings has not wrapped; FoldLimits.FenceCoversFoldIff says what happens when it does.
- FoldLimits.SlidesTruthfullyIff: covers windows and keys away from the top of the 64-bit range; the answer for the key just folded is given there too, by FoldLimits.RedeliveryRecognisedIff.
- IngestQueue.RunKeepsInv: safety only; nothing is said about wake-ups, and stop_workers called by two threads at once is modelled as two waits for the same workers to leave, without the data race on the thread objects.
- QueuedIngest.QueueEqualsDirectIngest: compares ledgers only, since lifecycle history and anomalies depend on the order of application.
- JournalRecovery.CorruptionDetected: a change of a record's length field, and changes spread over more than four consecutive payload bytes, are not claimed to be detected.
- CrashRecovery.CrashRecovers: recovery is claimed for the log as it was cut; appending to a log after a torn tail was skipped is not modelled.
- Attribution.Distribute: where a product or the sum of weights overflows only the exact sum of the shares is claimed.
- EngineSafety.EndIsFinal: covers one run of the program; across restarts only compacted ends are final, by Restarts.CompactedEndIsFinal.
- EngineSafety.StepSafe: a restart is not one of its steps; restarts are moves of Restarts.MoveKeepsProgram.
- Restarts.MoveKeepsProgram: the configuration stays the same, the log is read back whole, and loading a snapshot into an open engine is not a move; a log that was cut is Recovery.CrashReopens.
- Recovery.CrashKeepsAccounting: compares ledgers only, for evidence in canonical order above the restored fence.
- Recovery.SnapshotReopens: sources that a snapshot names only in a flow's evidence, and not in its list of sources, are not added to the reloaded engine.
- Engine.Engine.Register: the checks of a descriptor's key against its identity, and the freeze flag, are not part of the step.
- StateCodec.FlowRoundTrip: the state codec's field writers and readers are modelled as record shapes and not as methods over a buffer; declared_path_generation, which is not written, is not part of a saved flow.
- Restore.Resume: takes the part of a saved source the ledger needs; the whole saved record is the one of StateCodec, and Recovery.LoadedFlowIs joins the two.
- Engine statistics other than the five ingest tallies, tick reports, attribution of a flow's totals to its targets, queries, export and configuration validation.
- The cached fold of a source view: views are folded afresh.
- Sockets, files, locks and threads as operating system objects, flushing and atomic replacement.
- SRC, AT, TICK and FREEZE lines of the text protocol, whole scripts, and parsing timestamps.
- The FNV hash of keys: identities are a parameter, and nothing is claimed about collisions but what the engine does with them.
- Texts of anomalies, events, errors and explanations.
- The anomaly kinds none, duplicate-evidence, stale-epoch-replay, stale-incarnation-replay, stale-revision-replay, authority-conflict and one-sided-visibility (src/semantics.cpp:78-99): the other thirteen are modelled.
