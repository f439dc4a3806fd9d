# Orkestr Lite: the durable work queue, modelled and verified

Orkestr Lite runs one Codex conversation for a user and feeds it turns from the browser, from timers and from WhatsApp.
This project models the queue those turns wait in, the machines that put turns into it, and the ones that take them
out, and proves what holds in every run of them, crashes and restarts included.

Code between two `await`s is one step; at an `await` any other event may come in between. Database rows are durable
maps, class fields are lost on a restart. The clock never goes back, random ids are inputs that are never drawn twice,
and the cron library is a function whose result is strictly later than its argument.

For each machine there is a specification, a state with one function per handler, and a class whose methods change
fields as the source does and are proved to do what those functions say. The theorems are about every run of the
specification. What the specification itself computes is said a second time without its functions, in columns, numbers and
counts (the lemmas whose names end in `InWords`, `Exactly` and `Totals`), so that its conditions, constants and branches do
not only stand for themselves.

| files | what they hold |
|---|---|
| `Records.dfy` | rows, statuses and the queries of the missions table |
| `Dispatcher.dfy`, `DispatcherSafety.dfy`, `DispatcherCodex.dfy`, `DispatcherWakeUps.dfy`, `DispatcherRecovery.dfy`, `DispatcherCauses.dfy`, `DispatcherEffects.dfy`, `DispatcherColumns.dfy`, `MissionsService.dfy` | the turn dispatcher: one active turn, wake-ups, when a dispatch begins, compaction, the recovery budget, the causes of every status, and what every event writes |
| `IngressQueue.dfy`, `IngressProofs.dfy`, `QueueOrder.dfy`, `HistoryCut.dfy`, `HandOverTiming.dfy`, `CrashRecovery.dfy`, `StrandedMessages.dfy`, `LastPlace.dfy`, `BatchTotals.dfy`, `IngressEffects.dfy`, `FlushEffects.dfy`, `WhatsAppBatcher.dfy` | turns and WhatsApp batches under one counter: conservation, hand-over and its timing, messages a crash loses, positions, the line of a cleared history |
| `Outbox.dfy`, `OutboxProofs.dfy`, `OutboxFlush.dfy`, `OutboxEffects.dfy`, `WhatsAppOutbox.dfy` | the outbox: retries, delivery, acknowledgements, the flush, the parts of a result |
| `EchoMatching.dfy`, `TextSplit.dfy` | echoes of sent texts, and the splitting of long ones |
| `Schedules.dfy`, `ScheduleTexts.dfy`, `Timers.dfy`, `TimerProofs.dfy`, `TimerEffects.dfy`, `TimerOverlap.dfy`, `TimersService.dfy` | stored schedules and their texts, the scheduler, and what the dispatcher does to its turns |
| `EventReplay.dfy`, `HistoryPages.dfy` | replay joined to live events, and the pages of the history |
| `RpcClient.dfy` | requests to Codex and what settles them |

## What is assumed of the environment

Nothing is assumed for the exact conditions. The slot is *safe* (`Safe`) when every active turn and every start is in it, and
it is empty during a compaction and after a start that was lost with its process. A step keeps it safe if and only if it is
`Fair` (`SlotStep`), that is, it does neither of two things:

- It *disorders* a start (`Disorders`): its turn is reported to be over, out of context or stopped before what follows the
  reply to `turn/start` has run. That code writes `running` without looking at the status again, and a recovered turn still
  carries its old turn id while it starts. Or a start that Codex exited under gets its reply, or lives to see Codex
  connected again. A notification that came earlier and is replayed at the end of the start does not disorder it.
- Codex *misspeaks* (`Misspeaks`): it asks for approval for a turn that is not in the slot, or reports that a turn that may
  still be recovered is out of context while another one works.

In runs without disorder, Codex never misspeaks if it asks for approval and reports full contexts only for turns it works
on: from the reply to `turn/start` until the turn completes, its context is full, its stop is acknowledged or the process
ends (`DispatcherCodex.dfy`). Neither half can be dropped: silence about completed turns alone is not enough
(`AStoppedTurnCanRunBesideAnother`), and a completion that comes while its turn is being started again makes two turns
active although Codex speaks only for the turn it works on (`ALateCompletionMakesTwoTurnsActive`).

That a batch with a turn gets no further messages (`HandOverTiming.dfy`) relies on the order at a start of the server: the
timer without delay that flushes what is due fires before the WhatsApp client, which is only launched then, brings a
message. It does not mean that every message reaches a turn: those that are in no batch yet when the process crashes never
do (`StrandedMessages.dfy`).

The exact condition for a lost wake-up, the recovery budget, the compaction gate, the conservation of batches, the outbox,
the timers and the rest are about every run.

## What turned out differently from what one would expect

- A context error of a turn that was stopped empties the slot although another turn is in it; after the compaction both
  are active (`AStoppedTurnCanRunBesideAnother`).
- The late completion of an earlier attempt empties the slot while the turn is being started again; the reply then writes
  `running` all the same, and the next turn is dispatched beside it (`ALateCompletionMakesTwoTurnsActive`).
- In a fair run a turn whose status is active is always the one in `activeMissionId`. The other direction
  fails at exactly the steps named by `Clobbers`: a compaction notice or a failed recovery call rewrites the row of a turn
  that is in the slot again. It needs a compaction request that fails (`OneActiveTurn`, and the
  counterexample `LateFailureLeavesAnInactiveTurnInTheSlot`).
- A queued turn is forgotten, with every gate open and nothing scheduled, by exactly the steps named by `Forgets`
  (`WakeStep`). A failed compaction request opens the gate and schedules nothing (`FailedCompactionForgetsTheQueue`). A
  completion that Codex reports before its reply to `turn/start` is replayed while `dispatching` is still set, and the
  call it schedules comes too early (`AnEarlyCompletionForgetsTheQueue`).
- A turn can be recovered more than once without being resumed exactly if it was resumed while parked for a compaction
  (`RecoveredTwiceExactly`).
- A batch whose hand-over a crash cut off is counted twice in the positions behind it (`PositionIsRank`). A message could
  join it and miss its turn; only the flush at the next start prevents that (`MembersChangeExactlyInRuns`,
  `MembersStayAfterTheTurn`).
- A message that is claimed but in no batch when the process crashes, while its file is being downloaded say, is lost for
  good: its row keeps every later callback from claiming it (`ACrashLosesWhatIsOnItsWay`).
- A message whose batch takes the last of the 250 places of the queue is accepted and then refused, because its open batch
  is counted against itself (`TheLastPlaceIsRefused`).
- A part of a long result is dropped exactly when an earlier text about that turn already took its ordinal
  (`PartsStored`).
- An acknowledged message is sent again after a send that throws although its echo has come
  (`AcknowledgedIsLeftExactly`).
- Work of one timer overlaps exactly after the steps of the dispatcher that make a turn pending again whose timer has
  another one: a stopped turn that is resumed, a parked one that a compaction puts back, and four more
  (`OverlapExactly`, `AStoppedRunOverlapsWhenResumed`). A restart does so when it tries a turn again that had failed to start.
- A live listener would drop an event exactly when the events are published out of the order of their ids
  (`NothingIsDroppedIffInOrder`). That takes a listener that appends; none here does.
- Paging is complete for every page size exactly if nothing visible is older than something hidden
  (`PagesAreCompleteExactly`). A horizon that is only a time need not have that property, but none that is stored lacks it
  (`StoredHorizonsPageCompletely`).

## Model

The methods of the classes that have no row each perform the one step of the specification that their contract names.

| member | source | states |
|---|---|---|
| `DispatcherSafety.SlotStep` | apps/server/src/missions/missions.service.ts:567-1073 | from any safe state, a step of any handler keeps every active turn and every start in the slot, and the slot empty during a compaction and after a lost start, if and only if it disorders no start and Codex does not misspeak in it; it leaves the slot's turn active if and only if it is not one of two clobbering ones |
| `DispatcherSafety.SafeExactlyInFairRuns` | apps/server/src/missions/missions.service.ts:567-1073 | whatever happens and in whatever order, the slot is safe in this sense throughout a run if and only if the run is fair |
| `DispatcherSafety.AtMostOneActiveTurn` | apps/server/src/missions/missions.service.ts:567-700 | in every fair run, crashes, restarts and replayed notifications included, at most one turn has an active status |
| `DispatcherCodex.LiveRunsAreFair` | apps/server/src/missions/missions.service.ts:914-938 | a run that disorders no start is fair if Codex asks for approval and reports full contexts only for turns it works on |
| `DispatcherCodex.OneTurnWhileCodexSpeaksForLive` | apps/server/src/missions/missions.service.ts:702-1037 | from any table at start-up, at most one turn is active in every run that disorders no start and in which Codex speaks only for turns it works on |
| `DispatcherCodex.AStoppedTurnCanRunBesideAnother` | apps/server/src/missions/missions.service.ts:1006-1008 | silence about completed turns is not enough: a run without any completion in which the context error of a stopped turn leads to two active turns |
| `DispatcherCodex.ALateCompletionMakesTwoTurnsActive` | apps/server/src/missions/missions.service.ts:680-699 | order is needed: a run in which Codex speaks only for the turn it works on and is silent after its only completion, and that completion, coming while the turn is started again, leads to two active turns |
| `DispatcherSafety.OneActiveTurn` | apps/server/src/missions/missions.service.ts:567-1043 | from any table at start-up, in a fair run in which no compaction request fails: a turn is active if and only if it is the one in the slot |
| `DispatcherSafety.SlotIsFreedExactly` | apps/server/src/missions/missions.service.ts:1040-1043 | whatever Codex says, the slot is emptied if and only if its own turn ends, is stopped, fails to start or is out of context, its process ends, or another turn that may be recovered reports a full context; a late completion, stop or failure of another turn never empties it |
| `DispatcherWakeUps.WakeStep` | apps/server/src/missions/missions.service.ts:567-626 | a step, whatever Codex does, leaves a queued turn with open gates and nothing scheduled if and only if it is one of six named cases |
| `DispatcherWakeUps.AwakeExactlyInRuns` | apps/server/src/missions/missions.service.ts:1084-1104 | a queued turn is never forgotten throughout a run if and only if the run has no such step |
| `DispatcherWakeUps.NoLostWakeUp` | apps/server/src/missions/missions.service.ts:567-581 | from any table at start-up, a queued turn with every gate open always has a call coming if the run is fair, compactions succeed, Codex is authenticated when it connects, and nothing is replayed at the end of a start |
| `DispatcherWakeUps.FailedCompactionForgetsTheQueue` | apps/server/src/missions/missions.service.ts:1028-1036 | a fair run after which a turn is queued, every gate is open and nothing will call processNext |
| `DispatcherWakeUps.AnEarlyCompletionForgetsTheQueue` | apps/server/src/missions/missions.service.ts:1075-1082 | a fair run in which a completion replayed at the end of a start leaves a queued turn forgotten |
| `DispatcherEffects.DispatchesOnlyWithOpenGates` | apps/server/src/missions/missions.service.ts:567-581 | a step that begins a dispatch leaves the gate neither compacting, clearing nor paused and Codex ready, found the slot empty, and takes from the turns that wait, one that was offered by this very step included, the one with the least sequence, which is then starting and in the slot |
| `DispatcherEffects.ACallDispatches` | apps/server/src/missions/missions.service.ts:567-581 | after each of the events that call processNext now no turn waits with an empty slot and every gate open |
| `DispatcherEffects.NothingStartsWhileClosed` | apps/server/src/missions/missions.service.ts:567-581 | over any run in which dispatch stays paused, or the context is being cleared or compacted, or Codex is not ready, after every step, no turn becomes starting and no dispatch begins |
| `DispatcherSafety.CompactionGateIsHeld` | apps/server/src/missions/missions.service.ts:461-484 | in every run the gate is closed for a compaction only while a call is in flight or its timeout is armed, and an armed timeout means the gate is closed |
| `DispatcherSafety.TurnRunningIsReached` | apps/server/src/missions/missions.service.ts:628-700 | the assumptions on Codex can be met: a fair run from an empty table reaches a running turn |
| `DispatcherSafety.LateFailureLeavesAnInactiveTurnInTheSlot` | apps/server/src/missions/missions.service.ts:1028-1036 | a fair run in which a recovery call that fails late leaves a failed turn in the slot |
| `DispatcherSafety.RestartKeeps` | apps/server/src/missions/missions.service.ts:87-133 | whatever the rows were, after a restart no row is active and the slot is empty |
| `DispatcherRecovery.WaysBackToTheQueue` | apps/server/src/missions/missions.service.ts:531-625 | a turn that is not waiting is queued again only by the user, by a recovery or by a deferral while Codex is away |
| `DispatcherRecovery.RecoveryBudget` | apps/server/src/missions/missions.service.ts:940-1037 | between two resumes the stored attempts never decrease, and exits, restarts and compactions together recover a turn at most as often as its allowance, over any number of crashes |
| `DispatcherRecovery.RecoveredAtMostOnce` | apps/server/src/missions/missions.service.ts:954-978 | a turn that is not parked, or has an attempt behind it, is recovered at most once until the user resumes it |
| `DispatcherRecovery.RecoveredTwiceExactly` | apps/server/src/missions/missions.service.ts:531-552 | in a state a turn has a fair run ahead in which it is recovered more than once without being resumed if and only if it is parked with no attempt counted |
| `DispatcherRecovery.ParkedIsReached` | apps/server/src/missions/missions.service.ts:531-552 | such a state is reached by resuming a turn that is parked for its compaction |
| `DispatcherRecovery.OneRequeuePerParking` | apps/server/src/missions/missions.service.ts:745-817 | under its three names together a compaction notice requeues a turn at most once for each time it was parked |
| `DispatcherCauses.EveryStatusIsCaused` | apps/server/src/missions/missions.service.ts:490-1073 | over any run no row disappears, and a status a turn did not have at the beginning was given to it by a step that stands for it |
| `DispatcherCauses.FoundOnlyAfterItsEvent` | apps/server/src/missions/missions.service.ts:490-1073 | over any run a turn is found completed, cancelled, waiting for approval or running only after Codex or the user said so about this very turn, or a start was replied to |
| `DispatcherCauses.OnlyStatusesChange` | apps/server/src/missions/missions.service.ts:490-1073 | rows are added by create alone and keep sequence, batch and timer, so that to the queue and the scheduler the dispatcher only changes statuses |
| `DispatcherColumns.RowsInWords` | apps/server/src/missions/missions.service.ts:87-1073 | for every event and every row: its status, attempts, thread, turn and error afterwards, by the columns and fields before; among them, which rows a restart puts back by status, turn and error, and that an answered approval makes the turn running |
| `DispatcherColumns.CreatedInWords` | apps/server/src/missions/missions.service.ts:315-393 | a row appears exactly for an admitted turn while nothing is cleared |
| `DispatcherColumns.FieldsInWords` | apps/server/src/missions/missions.service.ts:461-1104 | for every event: when each gate opens and closes, which turn is parked, what is scheduled and armed, and how many calls for a turn are in flight |
| `DispatcherColumns.SlotInWords` | apps/server/src/missions/missions.service.ts:567-1043 | for every event: who is in the slot and how far the dispatch under way has come |
| `MissionsServiceModel.MissionsService.OnModuleInit` | apps/server/src/missions/missions.service.ts:87-133 | the two recovery passes and the new fields are the restart of the state machine |
| `MissionsServiceModel.MissionsService.RecoverActiveTurns` | apps/server/src/missions/missions.service.ts:90-122 | every active row is queued with one more attempt or interrupted, and no other row changes |
| `MissionsServiceModel.MissionsService.RecoverInfrastructureFailedTurns` | apps/server/src/missions/missions.service.ts:1212-1237 | of the newest hundred rows those that failed for lack of a connection are queued |
| `MissionsServiceModel.MissionsService.ProcessNext` | apps/server/src/missions/missions.service.ts:567-638 | passes only with all six gates open and takes the least queued sequence; that a dispatch begins with the fields open, and never while they stay closed, is `DispatchesOnlyWithOpenGates` and `NothingStartsWhileClosed` |
| `MissionsServiceModel.MissionsService.ReserveEnqueueSequence` | apps/server/src/missions/mission.repository.ts:194-204 | one more than the greatest position of turns and batches, 1 when there is none |
| `MissionsServiceModel.MissionsService.Create` | apps/server/src/missions/missions.service.ts:315-393 | a turn is admitted exactly while nothing is cleared, Codex is configured and fewer than 250 are pending; it goes behind every turn and batch, or to the position its batch reserved, and the queue is dispatched |
| `MissionsServiceModel.MissionsService.Resume` | apps/server/src/missions/missions.service.ts:531-552 | only an interrupted turn with a thread is queued, with its attempts forgotten |
| `MissionsServiceModel.MissionsService.Interrupt` | apps/server/src/missions/missions.service.ts:490-508 | cancels a queued turn; for an active one only the request goes out |
| `MissionsServiceModel.MissionsService.HandleTurnCompleted` | apps/server/src/missions/missions.service.ts:886-911 | the three outcomes of a turn, and its place in the slot |
| `MissionsServiceModel.MissionsService.RecoverFromContextWindow` | apps/server/src/missions/missions.service.ts:989-1020 | the second time the turn fails; the first time it is parked, the slot is emptied and the gate closed |
| `MissionsServiceModel.MissionsService.CompactConversation` | apps/server/src/missions/missions.service.ts:461-472 | refused while work is pending, else closes the gate |
| `MissionsServiceModel.MissionsService.HandleCompacted` | apps/server/src/missions/missions.service.ts:741-817 | opens the gate, requeues the parked turn and dispatches; a completed turn counts as a notice only while the gate is closed |
| `MissionsServiceModel.MissionsService.CompactionTimesOut` | apps/server/src/missions/missions.service.ts:1045-1073 | as the notice, but the parked turn fails |
| `MissionsServiceModel.MissionsService.ClearContext` | apps/server/src/missions/missions.service.ts:161-187 | accepted exactly with nothing active, queued, open, compacting, clearing or opening, and a Codex that is ready, authenticated and has a model |
| `MissionsServiceModel.MissionsService.StartFailed` | apps/server/src/missions/missions.service.ts:582-625 | interrupted stays, a lost connection defers with one more attempt and a retry, anything else fails; the slot is emptied |
| `MissionsServiceModel.MissionsService.FirstActiveMission` | apps/server/src/missions/mission.repository.ts:206-214 | the active row with the least sequence, if there is one |
| `MissionsServiceModel.MissionsService.HandleCodexExit` | apps/server/src/missions/missions.service.ts:940-987 | the turn in the slot, or the first active one, is requeued once or interrupted; the slot is emptied |
| `Records.NextQueued` | apps/server/src/missions/mission.repository.ts:156-163 | the queued row with the least sequence |
| `IngressQueue.NextSequence` | apps/server/src/missions/mission.repository.ts:194-204 | above every position in both tables |
| `IngressQueue.LastOpen` | apps/server/src/whatsapp/whatsapp.service.ts:1070-1075 | the open batch that was opened last |
| `IngressEffects.NextInWords` | apps/server/src/missions/mission.repository.ts:194-204 | the next place is one more than the greatest position in use by turns and batches, and 1 when there is none |
| `IngressProofs.PositionsKept` | apps/server/src/whatsapp/whatsapp.service.ts:1107-1130 | every step keeps positions unique, shared only by a batch and the turn that came from it |
| `IngressProofs.StepExtends` | apps/server/src/missions/mission.repository.ts:49-88 | rows keep position and origin, closed batches stay closed, new turns are behind everything or in the place of their batch |
| `IngressProofs.ConservedStep` | apps/server/src/whatsapp/whatsapp.service.ts:1049-1132 | every step keeps each batch's counters equal to what the rows of its messages add up to, within 20 messages, 5 files and 50 MB; the sum itself is counted out in `CountersAreTotals` |
| `IngressProofs.LinksStay` | apps/server/src/whatsapp/whatsapp.service.ts:438-508 | a linked message is never linked again, under any interleaving of callbacks |
| `IngressProofs.HandedOnceKept` | apps/server/src/whatsapp/whatsapp.service.ts:1197-1225 | a handed-over batch names a turn made from it, at any crash point |
| `IngressProofs.NeverReopens` | apps/server/src/whatsapp/whatsapp.service.ts:1146-1252 | a batch never returns to open |
| `IngressProofs.KeptByRuns` | apps/server/src/whatsapp/whatsapp.service.ts:1049-1252 | positions, conservation and hand-over hold in every run with crashes |
| `BatchTotals.CountersAreTotals` | apps/server/src/whatsapp/whatsapp.service.ts:1085-1130 | in every run with crashes the three counters of a batch are the number of its messages, the number of those with a file and the sum of the sizes of these files, at most 20, 5 and 52,428,800 bytes, and no file is larger than 26,214,400 bytes |
| `BatchTotals.AddedInWords` | apps/server/src/whatsapp/whatsapp.service.ts:1049-1132 | while fewer than 250 turns and batches are pending a claimed message joins the batch opened last exactly if that has fewer than 20 messages and room for its file by number and bytes, and opens a new one behind everything if not; the batch is due at once when it is full and five seconds later when not; at 250 the message is given up |
| `IngressEffects.TurnsInWords` | apps/server/src/missions/missions.service.ts:315-393 | a turn is added, queued, exactly while Codex is set up, nothing is cleared and fewer than 250 are pending, behind everything or in the place of its batch; later only its status is written |
| `IngressEffects.BatchesInWords` | apps/server/src/whatsapp/whatsapp.service.ts:1188-1246 | a batch is handed over to the turn of its hand-over, or refused, by exactly the events that do so, and otherwise left as it is |
| `IngressEffects.MessagesInWords` | apps/server/src/whatsapp/whatsapp.service.ts:969-1047 | a message is stored when it is claimed for the first time; its file is stored only up to 25 MB |
| `IngressEffects.ClaimsInWords` | apps/server/src/whatsapp/whatsapp.service.ts:494-509 | which messages are on their way to a batch after each event |
| `IngressEffects.HandOverInWords` | apps/server/src/whatsapp/whatsapp.service.ts:1188-1225 | a hand-over begins for an open batch with a turn made from it, and ends with the marking, a refusal or a crash |
| `IngressEffects.ClearingInWords` | apps/server/src/missions/missions.service.ts:161-244 | clearing begins only while nothing is pending, and the line is drawn at the greatest position of a turn |
| `IngressProofs.OneTurnPerBatch` | apps/server/src/database/migrations.ts:139-140 | in every reachable state a batch has at most one turn, and a handed-over one points at it, in the batch's reserved place |
| `IngressProofs.SettledForGood` | apps/server/src/whatsapp/whatsapp.service.ts:969-979 | over a whole run a linked message stays in its batch and a closed batch stays closed |
| `QueueOrder.PositionIsRank` | apps/server/src/missions/mission.repository.ts:177-192 | queuePosition is the rank among the positions taken by queued turns and open batches, plus one for every hand-over ahead that a crash cut off |
| `QueueOrder.PositionsFollowTheQueue` | apps/server/src/missions/mission.repository.ts:177-192 | positions are injective and in the order of the queue |
| `QueueOrder.NextIsBehindBatchesOnly` | apps/server/src/missions/mission.repository.ts:156-163 | ahead of the turn dispatched next there are open batches only |
| `QueueOrder.PositionNeverRises` | apps/server/src/missions/mission.repository.ts:177-192 | creating, appending, cancelling and dispatching never raise the position of a waiting turn |
| `QueueOrder.FlushNeverRaisesPositions` | apps/server/src/whatsapp/whatsapp.service.ts:1197-1225 | nor does flushing a batch |
| `HistoryCut.VisibleAreTheNewTurns` | apps/server/src/missions/missions.service.ts:161-284 | after a clearing of the history, at the end of any run, the visible turns are exactly those created since, also from batches opened during it |
| `HandOverTiming.MembersChangeExactlyInRuns` | apps/server/src/whatsapp/whatsapp.service.ts:1049-1252 | over any run with crashes the messages of a batch change if and only if a claimed message is added that fits into it while it is the last open batch and the queue is not full |
| `HandOverTiming.MembersStayAfterTheTurn` | apps/server/src/whatsapp/whatsapp.service.ts:122-138 | given the order of things at a start, in every timed run with crashes: once a batch has its turn, its messages stay the ones the turn was written from |
| `StrandedMessages.StrandedExactly` | apps/server/src/whatsapp/whatsapp.service.ts:494-509 | a claimed message that is in no batch loses its callback if and only if it is given up, comes to a full queue, or the process crashes |
| `StrandedMessages.StrandedForGood` | apps/server/src/whatsapp/whatsapp.service.ts:969-979 | such a message is claimed by no later callback and taken by no batch, in any run |
| `StrandedMessages.ACrashLosesWhatIsOnItsWay` | apps/server/src/whatsapp/whatsapp.service.ts:483-499 | after a crash a message is in that state, for good, if and only if it was in no batch |
| `CrashRecovery.ACrashIsMadeGood` | apps/server/src/whatsapp/whatsapp.service.ts:1134-1144 | a timed run with a crash between creating the turn and marking the batch, after which the next start hands the batch over to that turn |
| `LastPlace.AcceptedWhileThereIsRoom` | apps/server/src/whatsapp/whatsapp.service.ts:1062-1067 | a message that needs a new batch is accepted if and only if fewer than 250 turns and batches are pending |
| `LastPlace.TheLastPlaceIsRefused` | apps/server/src/missions/missions.service.ts:323-342 | its batch, handed over before anything else leaves the queue, is refused if and only if the context is being cleared, nothing is configured or it took the last place; else it becomes the new turn in its place |
| `WhatsAppBatcherModel.FlushAllCloses` | apps/server/src/whatsapp/whatsapp.service.ts:1146-1252 | a pass, with whatever turns its creates dispatch, closes every due batch and raises the position of no turn that still waits |
| `FlushEffects.APassInWords` | apps/server/src/whatsapp/whatsapp.service.ts:1146-1252 | a pass closes the open batches that are due and no others; while Codex is set up, nothing is cleared and fewer than 250 are pending at its beginning, every one of them becomes a turn in its own place, however many they are; without Codex or during a clearing every one is refused; no turn is touched but those that start |
| `WhatsAppBatcherModel.WhatsAppBatcher.ClaimInboundMessage` | apps/server/src/whatsapp/whatsapp.service.ts:969-979 | claims exactly the messages not known before |
| `WhatsAppBatcherModel.WhatsAppBatcher.ReserveEnqueueSequence` | apps/server/src/whatsapp/whatsapp.service.ts:1254-1264 | one above everything in both tables |
| `WhatsAppBatcherModel.WhatsAppBatcher.QueuePosition` | apps/server/src/missions/mission.repository.ts:177-192 | the position exists exactly for queued turns |
| `WhatsAppBatcherModel.WhatsAppBatcher.LastOpenBatch` | apps/server/src/whatsapp/whatsapp.service.ts:1070-1082 | the last open batch, if any |
| `WhatsAppBatcherModel.WhatsAppBatcher.AddToBatch` | apps/server/src/whatsapp/whatsapp.service.ts:1049-1132 | accepts exactly while the queue is not full, and appends only within the caps; the caps are those of `AddedInWords` and `CountersAreTotals` |
| `WhatsAppBatcherModel.WhatsAppBatcher.LinkMessage` | apps/server/src/whatsapp/whatsapp.service.ts:1107-1131 | message and batch change together, the counters by the message, its file and the size of it (`CountersAreTotals`) |
| `WhatsAppBatcherModel.WhatsAppBatcher.FlushBatch` | apps/server/src/whatsapp/whatsapp.service.ts:1197-1248 | one hand-over, which finds the turn of an interrupted one, and the dispatch inside create |
| `WhatsAppBatcherModel.WhatsAppBatcher.FindByIngress` | apps/server/src/missions/mission.repository.ts:117-125 | the only turn made from the batch, if there is one |
| `WhatsAppBatcherModel.WhatsAppBatcher.FlushBatches` | apps/server/src/whatsapp/whatsapp.service.ts:1146-1252 | the loop hands over every due batch in the order of the queue |
| `Outbox.DelaysAreBounded` | apps/server/src/whatsapp/whatsapp.service.ts:1901-1904 | an unanswered send waits two to five minutes, five from the third attempt on; a failed one five seconds to five minutes |
| `Outbox.First` | apps/server/src/whatsapp/whatsapp.service.ts:1324-1330 | the first row of the query's order |
| `Outbox.NextOrdinal` | apps/server/src/whatsapp/whatsapp.service.ts:1292-1300 | above every ordinal of the turn |
| `OutboxProofs.SoundInEveryRun` | apps/server/src/whatsapp/whatsapp.service.ts:1266-1455 | in every run with crashes only the row of the flush under way is being sent, keys and remote ids stay unique, and no row is put off by more than five minutes |
| `OutboxProofs.NothingIsLost` | apps/server/src/whatsapp/whatsapp.service.ts:960-967 | a message is in the outbox, unchanged, until an operator discards it |
| `OutboxProofs.NoneWaitsLonger` | apps/server/src/whatsapp/whatsapp.service.ts:1319-1455 | every message that is not acknowledged and not being sent is due five minutes after its last change at the latest |
| `OutboxProofs.DeliveredWasAttempted` | apps/server/src/whatsapp/whatsapp.service.ts:1420-1447 | a message counts as delivered only after an attempt, under an id no other row has |
| `OutboxProofs.AcknowledgedIsLeftExactly` | apps/server/src/whatsapp/whatsapp.service.ts:1390-1447 | an acknowledged row is taken back if and only if an operator retries it, a negative acknowledgement comes, or its own send throws after its echo |
| `OutboxEffects.DeliveredExactly` | apps/server/src/whatsapp/whatsapp.service.ts:459-471 | a row that does not count as delivered does so after a step if and only if WhatsApp acknowledges its own remote id, or a text or media echo is matched with it, as the oldest unconfirmed row of this body or the likeliest file of the last minute, whose id no other row has |
| `OutboxEffects.FoundDeliveredOnlyAfter` | apps/server/src/whatsapp/whatsapp.service.ts:1420-1447 | over any run a row is found delivered only if it was at the beginning or one of these happened to it |
| `OutboxEffects.BesideTheFlush` | apps/server/src/whatsapp/whatsapp.service.ts:876-967 | what retries, acknowledgements, negative acknowledgements, echoes and restarts write into the row they are about, column by column, and that all other rows stay as they are |
| `OutboxEffects.RowsComeAndGo` | apps/server/src/whatsapp/whatsapp.service.ts:960-967 | a row is added by an insert and taken away by its discard alone |
| `OutboxEffects.StoredInWords` | apps/server/src/whatsapp/whatsapp.service.ts:1266-1317 | a message is stored, due at once, exactly if no row of its turn, ordinal and kind is there; without an ordinal of its own it gets the next one of the turn |
| `OutboxEffects.DelaysInWords` | apps/server/src/whatsapp/whatsapp.service.ts:1901-1904 | the waits in milliseconds: 2, 4, 5 minutes for an unanswered send; 5, 10, 20, 40, 80, 160 seconds, then 5 minutes for a failed text |
| `OutboxEffects.RoundInWords` | apps/server/src/whatsapp/whatsapp.service.ts:1323-1350 | a round takes the oldest row that may be sent, for one more attempt; the flush ends when there is none or after twenty |
| `OutboxEffects.RepliesInWords` | apps/server/src/whatsapp/whatsapp.service.ts:1352-1412 | what a send that returns and one that throws write into the row, and the round that follows |
| `OutboxEffects.FlushesInWords` | apps/server/src/whatsapp/whatsapp.service.ts:1319-1323 | a flush begins only when none is under way and WhatsApp is ready |
| `OutboxFlush.AFlushSendsTheOldest` | apps/server/src/whatsapp/whatsapp.service.ts:1319-1419 | a flush whose sends return within two minutes in all, while messages are stored, acknowledged and echoed: at its end it has taken twenty rows or none is due; each taken row was sent exactly once and has arrived or waits; the others are untouched or acknowledged; what was due at the beginning and is left is younger than everything sent |
| `OutboxFlush.PartsStored` | apps/server/src/whatsapp/whatsapp.service.ts:821-823 | part k of a result is stored if and only if no text of the turn had the ordinal k |
| `OutboxFlush.ResultsAreStoredOnce` | apps/server/src/whatsapp/whatsapp.service.ts:801-847 | a result announced again adds nothing, whatever sends, acknowledgements, restarts and other messages came in between, unless an operator discarded a row |
| `OutboxFlush.AppendedTextIsStored` | apps/server/src/whatsapp/whatsapp.service.ts:1266-1300 | a text without an ordinal of its own is never ignored |
| `WhatsAppOutboxModel.WhatsAppOutbox.Select` | apps/server/src/whatsapp/whatsapp.service.ts:1324-1330 | the first row of a query |
| `WhatsAppOutboxModel.WhatsAppOutbox.NextOutboxOrdinal` | apps/server/src/whatsapp/whatsapp.service.ts:1292-1300 | the greatest ordinal of the turn plus one |
| `WhatsAppOutboxModel.WhatsAppOutbox.Enqueue` | apps/server/src/whatsapp/whatsapp.service.ts:1266-1317 | insert or ignore under the unique key of turn, ordinal and kind |
| `WhatsAppOutboxModel.WhatsAppOutbox.EnqueueResult` | apps/server/src/whatsapp/whatsapp.service.ts:821-823 | the loop over the parts |
| `WhatsAppOutboxModel.WhatsAppOutbox.NextRound` | apps/server/src/whatsapp/whatsapp.service.ts:1323-1337 | one round takes the oldest due row, or ends the flush |
| `WhatsAppOutboxModel.WhatsAppOutbox.FlushOutbox` | apps/server/src/whatsapp/whatsapp.service.ts:1319-1323 | a second flush while one is under way does nothing |
| `WhatsAppOutboxModel.WhatsAppOutbox.SendReturns` | apps/server/src/whatsapp/whatsapp.service.ts:1352-1391 | the row waits for its acknowledgement only if it is still being sent; an id another row has makes the send fail |
| `WhatsAppOutboxModel.WhatsAppOutbox.SendThrows` | apps/server/src/whatsapp/whatsapp.service.ts:1392-1412 | the row fails whatever it was, and the flush ends |
| `WhatsAppOutboxModel.WhatsAppOutbox.OnMessageAck` | apps/server/src/whatsapp/whatsapp.service.ts:1420-1447 | positive, negative and zero acknowledgements, each on the row with the remote id and on no other (`DeliveredExactly`, `BesideTheFlush`) |
| `WhatsAppOutboxModel.WhatsAppOutbox.EchoText` | apps/server/src/whatsapp/whatsapp.service.ts:459-471 | the oldest unconfirmed row with the text is acknowledged |
| `WhatsAppOutboxModel.WhatsAppOutbox.ConsumeOutboundMedia` | apps/server/src/whatsapp/whatsapp.service.ts:876-923 | an echoed file goes to the row being sent, else to the latest one of the last minute |
| `WhatsAppOutboxModel.WhatsAppOutbox.RetryOutbox` | apps/server/src/whatsapp/whatsapp.service.ts:947-958 | a row is due at once, whatever it was |
| `WhatsAppOutboxModel.WhatsAppOutbox.DiscardOutbox` | apps/server/src/whatsapp/whatsapp.service.ts:960-967 | one row leaves |
| `WhatsAppOutboxModel.WhatsAppOutbox.RecoverOutbox` | apps/server/src/whatsapp/whatsapp.service.ts:1449-1455 | what was being sent is due again |
| `EchoMatching.EverySendIsAccountedFor` | apps/server/src/whatsapp/whatsapp.service.ts:1703-1717 | over any history each send is unmatched or has swallowed exactly one text |
| `EchoMatching.UsesUpTheFirst` | apps/server/src/whatsapp/whatsapp.service.ts:1710-1717 | a text that comes in uses up the oldest unmatched send of it within 60,000 ms, and nothing else |
| `EchoMatching.EchoFilter.PruneOutboundTexts` | apps/server/src/whatsapp/whatsapp.service.ts:1719-1726 | afterwards the queues hold exactly the unmatched sends of the last minute |
| `EchoMatching.EchoFilter.RememberOutboundText` | apps/server/src/whatsapp/whatsapp.service.ts:1703-1708 | a send joins the unmatched ones |
| `EchoMatching.EchoFilter.ConsumeRecentOutboundText` | apps/server/src/whatsapp/whatsapp.service.ts:1710-1717 | a text is swallowed if and only if the whole history holds an unmatched send of it in the last minute, and uses up the oldest |
| `TextSplit.CutAtLastBreak` | apps/server/src/whatsapp/whatsapp.service.ts:1912-1914 | the cut is at the last line break or space within the limit, or exactly at the soft part if there is none behind it |
| `TextSplit.TrimInWords` | apps/server/src/whatsapp/whatsapp.service.ts:1907 | trimming leaves the text from its first to its last code unit that is not white space |
| `TextSplit.SplitKeepsTheText` | apps/server/src/whatsapp/whatsapp.service.ts:1906-1920 | the chunks lie in the trimmed text in order with only blanks between them, fit the limit, are nonempty unless it is empty, and are at most 1 + (length - 1) / soft |
| `TextSplit.SplitWhatsAppText` | apps/server/src/whatsapp/whatsapp.service.ts:1906-1920 | the loop ends and computes that split |
| `Schedules.DecodeRestores` | apps/server/src/missions/timers.service.ts:505-566 | decoding the stored text restores every field the kind uses |
| `Schedules.SavingAgainKeepsTheText` | apps/server/src/missions/timers.service.ts:138-178 | saving what was decoded stores the same text |
| `ScheduleTexts.AcceptedInWords` | apps/server/src/missions/timers.service.ts:427-503 | what is accepted, kind by kind: a future date, a minute of an hour, an interval of five minutes at least, a time, a weekday, and a cron expression of five parts whose first twenty gaps are five minutes at least |
| `ScheduleTexts.TimesInWords` | apps/server/src/missions/timers.service.ts:427-503 | a time is accepted if and only if it is hh:mm with an hour below 24 and a minute below 60 |
| `ScheduleTexts.StoredInWords` | apps/server/src/missions/timers.service.ts:505-520 | the text that is stored for each kind, in digits |
| `ScheduleTexts.NextRunInWords` | apps/server/src/missions/timers.service.ts:568-590 | the next run: at the date of a single one, the interval in milliseconds later, or where the cron library finds the minute of every hour or the expression |
| `ScheduleTexts.NextRunAtATime` | apps/server/src/missions/timers.service.ts:568-590 | a daily or weekly timer at hh:mm asks the cron library for the minute first, then the hour, without leading zeros, and for a weekly one the weekday last |
| `TimerProofs.ToggleKeepsTheSchedule` | apps/server/src/missions/timers.service.ts:175-178 | switching a timer changes neither its texts nor its schedule; it is refused if and only if the timezone is unknown, a single run is over or a cron expression no longer passes; a recurring timer switched on runs next when its row says so after that moment |
| `Schedules.EvaluatorsAgree` | apps/server/src/missions/timers.service.ts:568-612 | the evaluator of stored rows equals the evaluator of inputs, for every recurring kind and time |
| `Schedules.PreviewIsWhatRuns` | apps/server/src/missions/timers.service.ts:591-628 | the preview is the iteration of the evaluator the scheduler uses |
| `Schedules.PreviewIncreases` | apps/server/src/missions/timers.service.ts:614-628 | its runs lie in the future and strictly increase, each the next one after the one before, and it is short only if the schedule ends |
| `Schedules.PreviewRuns` | apps/server/src/missions/timers.service.ts:614-628 | the loop computes that iteration |
| `Schedules.AssertCron` | apps/server/src/missions/timers.service.ts:682-702 | the loop accepts exactly the expressions with a run and no gap below five minutes among those it looks at |
| `Schedules.WideGaps` | apps/server/src/missions/timers.service.ts:682-702 | consecutive occurrences of an accepted expression lie five minutes apart |
| `Schedules.StoredAdvances` | apps/server/src/missions/timers.service.ts:591-612 | a stored schedule never runs at or before the time it is asked after, and only a cron expression can fail the check before a run |
| `TimerProofs.TheInsertIsNeverIgnored` | apps/server/src/missions/timers.service.ts:300-307 | what a tick wants to record is never there already |
| `TimerProofs.InvInEveryRun` | apps/server/src/missions/timers.service.ts:138-412 | order of records, next run above them, and one turn for one queued record hold in every run |
| `TimerProofs.OccurrencesIncrease` | apps/server/src/missions/timers.service.ts:235-412 | in every run the recorded occurrences of a timer strictly increase below its next run, no occasion has two records and none is left claimed |
| `TimerProofs.SoonestIsBatch` | apps/server/src/missions/timers.service.ts:240-245 | a tick takes the twenty timers due longest, each once |
| `TimerEffects.TakenByATick` | apps/server/src/missions/timers.service.ts:240-245 | a tick takes every timer that is on and due, or the twenty due longest, the longest first |
| `TimerProofs.ATickMovesOn` | apps/server/src/missions/timers.service.ts:235-292 | after any downtime a tick records one run at most for each timer, for the occurrence it stood at: missed exactly if over an hour late, failed if its expression runs too often, skipped with pending work, and queued only if none of these; the row keeps its texts and schedule and moves past the present, is switched off with no next run exactly if it failed or runs once, and stays on otherwise; only a refused turn leaves it where it was |
| `TimerProofs.ConditionsInWords` | apps/server/src/missions/timers.service.ts:414-424 | pending work is a turn of the timer that waits or works; too often is an interval below five minutes, or a cron expression without two more runs five minutes apart |
| `TimerEffects.ClaimsInWords` | apps/server/src/missions/timers.service.ts:294-339 | a tick takes as long as its rounds; a queued record has the turn created in the round of its timer, which runs next after the time of that round, not of the tick |
| `TimerEffects.StaysOn` | apps/server/src/missions/timers.service.ts:294-412 | over any run a timer that is on is found off only after it was switched off, or a record of a failure or of its single run; until then it is due again whenever the clock reaches its next run |
| `TimerEffects.RunNowInWords` | apps/server/src/missions/timers.service.ts:180-188 | run now records a run with a new turn of a timer without pending work and leaves the timer as it is |
| `TimerEffects.SavedInWords` | apps/server/src/missions/timers.service.ts:102-128 | the columns that are written for a new timer; an input that is not valid writes nothing |
| `TimerEffects.UpdatedInWords` | apps/server/src/missions/timers.service.ts:138-173 | each field of the body is what the input has, an absent one is what the row decodes to; if that is valid the row decodes to it afterwards, for every kind, and else nothing changes |
| `TimerEffects.RemovedInWords` | apps/server/src/missions/timers.service.ts:190-193 | deleting a timer takes its records away and leaves those of the others, each as often as it was |
| `TimerProofs.OneRecordPerTick` | apps/server/src/missions/timers.service.ts:235-292 | no timer gets two records in a tick |
| `TimerProofs.OverlapStep` | apps/server/src/missions/timers.service.ts:414-424 | work of one timer overlaps after a step if and only if the step makes a turn pending again whose timer has another pending one |
| `TimerProofs.NoOverlapInRuns` | apps/server/src/missions/timers.service.ts:180-188 | without such steps no timer ever owns two pending turns |
| `TimerProofs.AResumedTurnOverlaps` | apps/server/src/missions/missions.service.ts:531-552 | a run with such a step: stopped, run again, resumed |
| `TimerOverlap.OverlapExactly` | apps/server/src/missions/missions.service.ts:490-1073 | a step of the dispatcher makes work of one timer overlap if and only if it resumes, puts back, defers or answers a turn that was not pending while its timer has another one, or is a restart that tries a turn again that had failed to start beside another that waits or is recovered |
| `TimerOverlap.AStoppedRunOverlapsWhenResumed` | apps/server/src/missions/missions.service.ts:531-552 | in any state a running turn of a timer can be stopped, the timer may then be run again, and resuming the stopped turn makes two pending ones |
| `TimersServiceModel.TimersService.TimerHasPendingWork` | apps/server/src/missions/timers.service.ts:414-424 | whether the timer owns a pending turn |
| `TimersServiceModel.TimersService.Record` | apps/server/src/missions/timers.service.ts:341-412 | record and timer change together, or not at all when the occasion is recorded |
| `TimersServiceModel.TimersService.ClaimAndQueue` | apps/server/src/missions/timers.service.ts:294-339 | claim, turn and timer change together; a refused turn leaves no claim; the timer stays on unless it runs once (`ATickMovesOn`) |
| `TimersServiceModel.TimersService.SelectDue` | apps/server/src/missions/timers.service.ts:240-245 | the batch of a tick |
| `TimersServiceModel.TimersService.TickRow` | apps/server/src/missions/timers.service.ts:246-287 | missed, failed, skipped or claimed, in this order, with the row of the timer as in `ATickMovesOn` |
| `TimersServiceModel.TimersService.Tick` | apps/server/src/missions/timers.service.ts:235-292 | the loop over the batch, on the rows as they were read; it does what `ATickMovesOn` and `StaysOn` say |
| `TimersServiceModel.TimersService.RunNow` | apps/server/src/missions/timers.service.ts:180-188 | refused exactly for an unknown timer or one with pending work |
| `TimersServiceModel.TimersService.Create` | apps/server/src/missions/timers.service.ts:102-128 | a row exactly for a valid input: name, prompt, timezone, the fields of the kind, a future date, five cron fields and the frequency |
| `TimersServiceModel.TimersService.Update` | apps/server/src/missions/timers.service.ts:138-173 | what the body leaves out stays as the row shows it; the whole row is computed again, exactly if the result is valid |
| `TimersServiceModel.TimersService.Remove` | apps/server/src/missions/timers.service.ts:190-193 | the timer and its records leave |
| `EventReplay.AboveIsExact` | apps/server/src/missions/mission.repository.ts:284-304 | the query finds exactly the events of the turn above the cursor |
| `EventReplay.Page` | apps/server/src/missions/mission.repository.ts:284-304 | a page is the beginning of what is to come, the whole of it or as much as the limit |
| `EventReplay.AboveDrops` | apps/server/src/missions/missions.controller.ts:64-77 | moving the cursor to an event drops it and all before it |
| `EventReplay.EventStream.Replay` | apps/server/src/missions/missions.controller.ts:64-77 | for any cursor, log and page limit the replay ends with every stored event above the cursor sent once, in order |
| `EventReplay.EventStream.SendPage` | apps/server/src/missions/missions.controller.ts:68-76 | the cursor ends at the last event of the page |
| `EventReplay.EventStream.Deliver` | apps/server/src/missions/missions.controller.ts:79-87 | a live event keeps the stream equal to what is stored above the start |
| `EventReplay.ReplayJoinsLive` | apps/server/src/missions/missions.controller.ts:61-88 | what the replay sent of the log and what the listener passes on of the events published afterwards are together the events of the turn above the client's cursor, each once and in increasing order |
| `EventReplay.NothingIsDroppedIffInOrder` | apps/server/src/missions/missions.controller.ts:79-87 | the listener passes everything on if and only if events are published in the order of their ids |
| `HistoryPages.EveryVisibleTurnOnce` | apps/server/src/missions/conversation.controller.ts:88-112 | for every page size, following the cursor lists every visible turn exactly once in descending order |
| `HistoryPages.ALineHidesTheOldest` | apps/server/src/missions/missions.service.ts:272-284 | the line of a cleared history satisfies what that needs |
| `HistoryPages.OnePage` | apps/server/src/missions/mission.repository.ts:100-115 | a page holds the visible rows of a stretch, and has no cursor only if nothing visible follows |
| `HistoryPages.PageInWords` | apps/server/src/missions/conversation.controller.ts:88-112 | a page reads the newest rows below the cursor, as many as the limit, brought into 1 to 100, or all there are; it shows exactly those above the line, or without a line those created since the conversation started, and has a cursor, its last turn, exactly if it shows as many as the limit |
| `HistoryPages.HorizonInWords` | apps/server/src/missions/missions.service.ts:202-226 | what a clearing and a new thread leave as the horizon |
| `HistoryPages.PagesAreCompleteExactly` | apps/server/src/missions/conversation.controller.ts:88-112 | for a table and a horizon the pages are complete for every page size if and only if nothing visible is older than something hidden |
| `HistoryPages.StoredHorizonsPageCompletely` | apps/server/src/missions/missions.service.ts:202-226 | behind every horizon that clearings and new threads can leave, every page size lists every visible turn exactly once |
| `RpcClient.SettledExactly` | packages/codex-client/src/client.ts:180-198 | a request fails if it could not be written; else it is resolved, refused, timed out or ended by an exit if and only if the first response, timeout or exit after it is a successful response, an error, its timeout or the exit; it is open if there is none |
| `RpcClient.FateIsFinal` | packages/codex-client/src/client.ts:325-337 | once a request is settled, no later event changes its outcome |
| `RpcClient.OnlyIssuedAreSettled` | packages/codex-client/src/client.ts:325-337 | a response to an id never issued settles nothing |
| `RpcClient.CodexAppServerClient.Request` | packages/codex-client/src/client.ts:180-198 | the id was never used before and is pending; a failed write rejects the caller at once |
| `RpcClient.CodexAppServerClient.HandleResponse` | packages/codex-client/src/client.ts:325-337 | the caller of a pending request is resolved by a result and rejected by an error; an unknown or late response changes nothing |
| `RpcClient.CodexAppServerClient.TimerFires` | packages/codex-client/src/client.ts:186-190 | a timeout rejects the caller of its own request only |
| `RpcClient.CodexAppServerClient.RejectAll` | packages/codex-client/src/client.ts:352-358 | after an exit nothing is pending, and every caller that still waited is rejected with the exit |

## Left out

- Text of prompts, statuses, titles and replies, the choice of the model, and the redaction of payloads: no invariant hangs on them.
- The lookup of a turn by the ids in a notification: an event of the dispatcher names the turn it is about. Of the buffer of notifications that come before the reply to `turn/start` the model has the replay, as events of the stage `Settling`, not its limit of a hundred.
- The batch and the timer a new turn came from are not looked at by the dispatcher, whose new rows have neither; `IngressQueue` and `Timers` have them, and see the dispatcher as changes of status (`OnlyStatusesChange`).
- Opening the conversation thread, authentication and model availability: their outcomes are parameters of the events.
- A crash between two database writes of one step of the dispatcher. Crash points between creating the turn of a batch and marking the batch are modelled.
- Idempotency keys of browser turns, and their attachments: the ingress key is modelled for batches.
- `claimCallback`: any interleaving of callbacks for a message is allowed, with or without it.
- Prompts of batches, and the files behind attachments: a file is its size. The retention of attachments is not modelled.
- Ties that an ORDER BY leaves open go to the smaller id.
- Instants are numbers of milliseconds; texts of dates are compared like the numbers they stand for.
- `TextSplit.SplitWhatsAppText`: the soft part of the limit, `Math.floor(limit * 0.7)`, is a parameter between 1 and the limit, because the product is rounded floating point; for a limit of 1 it is 0 and the loop of the source may not advance.
- `Schedules.DecodeRestores`: of JSON only the text that is written for a weekly schedule is read back, and of `Number` only texts of digits; other stored texts fall to the defaults. Integers from 10^21 on, which JavaScript writes with an exponent, are written out in digits.
- Timezones and daylight saving are inside the cron library. `StrictlyLater` is all that is used of it.
- `TimersServiceModel.TimersService.Create`: texts are taken as cleaned, that is trimmed and cut to their length; a timezone is known or not; white space is the ASCII kind and the no-break space.
- `TimersServiceModel.TimersService.Update`: a field of the body that has the wrong type is absent.
- `last_run_at` and `last_mission_id` of timers, which nothing here reads.
- The dispatch that `create` starts inside the transaction of a timer claim: it is an event of the dispatcher, not of the scheduler.
- `EventReplay.EventStream.Deliver`: a subscriber that closes, and a cursor that is not a number, are not modelled.
- `HistoryPages.EveryVisibleTurnOnce`: the table does not change while the cursor is followed.
- Log lines, telemetry and status events.
- Angular components, Docker, the desktop, terminals, the browser profile and their proxies.
