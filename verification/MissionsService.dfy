/** The dispatcher as the class that holds it: each method is the code between two awaits of one handler, and
    changes the fields as the corresponding step of the state machine says. */
module MissionsServiceModel {
  import opened Records
  import opened Dispatcher

  const MAX_PENDING_TURNS := 250

  datatype Scheduled = Scheduled(
    microtasks: nat,                                   // queueMicrotask(processNext)
    initMicrotasks: nat,                               // queueMicrotask(initializeConversation)
    initsOpening: nat,                                 // initializeConversation past its check
    readyEventDue: bool
  )

  lemma TwoPasses(before: Missions, between: Missions, after: Missions)
    requires before.Keys == between.Keys == after.Keys
    requires forall id :: id in between ==>
      between[id] == if Active(before[id].status) then before[id] else RecoveredRow(before, id)
    requires forall id :: id in after ==>
      after[id] == if Active(between[id].status) then Salvaged(between[id]) else between[id]
    ensures after == RecoveredTable(before)
    ensures UniqueSequences(before) ==> UniqueSequences(after)
  {
    forall id | id in before
      ensures after[id] == RecoveredRow(before, id) && after[id].sequence == before[id].sequence
    {
    }
    hide RecoveredRow;
  }

  class MissionsService {
    var missions: Missions                             // the table
    var activeMissionId: Option<MissionId>
    var dispatching: Option<Start>                     // the processNext that is past its gates
    var pendingCompactionRecoveryId: Option<MissionId>
    var compacting: bool
    var clearingContext: bool
    var dispatchPaused: bool
    var dispatchRetryTimer: bool                       // armed
    var compactionTimer: bool                          // armed
    // what the process around the class holds: the state of Codex, scheduled calls and open requests
    var codexReady: bool
    var scheduled: Scheduled
    var requests: Flight

    ghost function View(): State
      reads this
    {
      State(missions, activeMissionId, dispatching, pendingCompactionRecoveryId,
                  Gate(compacting, clearingContext, dispatchPaused, codexReady),
                  Owed(scheduled.microtasks, scheduled.initMicrotasks, scheduled.initsOpening,
                       dispatchRetryTimer, scheduled.readyEventDue, compactionTimer),
                  requests)
    }

    ghost predicate Valid()
      reads this
    {
      UniqueSequences(missions)
    }

    function PendingIds(): set<MissionId>
      reads this`missions
    {
      set i | i in missions && Pending(missions[i].status)
    }

    /** A start of the server on the rows it finds: two passes over the table, then one scheduled call. */
    method OnModuleInit(ready: bool)
      requires Valid()
      modifies this
      ensures View() == RestartStep(old(View()), ready)
      ensures Valid()
    {
      ghost var before := missions;
      RecoverInfrastructureFailedTurns();
      ghost var between := missions;
      RecoverActiveTurns();
      TwoPasses(before, between, missions);
      hide RecoveredTable, UniqueSequences;
      NewFields(ready);
    }

    /** The fields of a new process, with the first call of initializeConversation scheduled. */
    method NewFields(ready: bool)
      modifies this
      ensures View() == State(old(missions), None, None, None, Gate(false, false, false, ready),
                              Owed(0, 1, 0, false, false, false), Flight(0, map[], map[]))
    {
      activeMissionId, dispatching, pendingCompactionRecoveryId := None, None, None;
      compacting, clearingContext, dispatchPaused, codexReady := false, false, false, ready;
      dispatchRetryTimer, compactionTimer := false, false;
      scheduled, requests := Scheduled(0, 1, 0, false), Flight(0, map[], map[]);
    }

    /** Every turn found active is queued again, once, or interrupted. */
    method RecoverActiveTurns()
      modifies this`missions
      ensures missions.Keys == old(missions.Keys)
      ensures forall id :: id in missions ==>
        missions[id] == if Active(old(missions)[id].status) then Salvaged(old(missions)[id]) else old(missions)[id]
    {
      ghost var before := missions;
      var rows := set id | id in missions && Active(missions[id].status);
      while rows != {}
        invariant rows <= missions.Keys == before.Keys
        invariant forall id :: id in rows ==> missions[id] == before[id] && Active(before[id].status)
        invariant forall id :: id in missions && id !in rows ==>
          missions[id] == if Active(before[id].status) then Salvaged(before[id]) else before[id]
        decreases |rows|
      {
        var id :| id in rows;
        var mission := missions[id];
        var recoverable := mission.hasThread && mission.attempts < 1;
        missions := missions[id := mission.(status := if recoverable then Queued else Interrupted)];
        if recoverable {
          missions := missions[id := missions[id].(attempts := mission.attempts + 1)];
        }
        rows := rows - {id};
      }
    }

    /** The newest hundred turns that failed because Codex was away go back to the queue. */
    method RecoverInfrastructureFailedTurns()
      modifies this`missions
      ensures missions.Keys == old(missions.Keys)
      ensures forall id :: id in missions ==>
        missions[id] == if Active(old(missions)[id].status) then old(missions)[id] else RecoveredRow(old(missions), id)
    {
      var rows := set id | id in missions && |Newer(missions, id)| < LIST_LIMIT;
      ghost var before := missions;
      while rows != {}
        invariant rows <= missions.Keys == before.Keys
        invariant forall id :: id in rows ==> missions[id] == before[id] && |Newer(before, id)| < LIST_LIMIT
        invariant forall id :: id in missions && id !in rows ==>
          missions[id] == if Active(before[id].status) then before[id] else RecoveredRow(before, id)
        decreases |rows|
      {
        var id :| id in rows;
        var mission := missions[id];
        if mission.status.Failed? && !mission.hasTurn && mission.infraError {
          missions := missions[id := mission.(status := Queued, infraError := false, attempts := mission.attempts + 1)];
        }
        rows := rows - {id};
      }
    }

    /** processNext up to its first await. */
    method ProcessNext()
      requires Valid()
      modifies this`missions, this`activeMissionId, this`dispatching
      ensures View() == Dispatcher.ProcessNext(old(View())) && Valid()
    {
      if dispatching.Some? || activeMissionId.Some? || compacting || clearingContext || dispatchPaused || !codexReady {
        return;
      }
      var queued := set id | id in missions && missions[id].status.Queued?;
      if queued == {} {
        assert forall id :: id in missions && missions[id].status.Queued? ==> id in queued;
        return;
      }
      LeastExists(missions, queued);
      var next :| next in queued && forall j :: j in queued ==> missions[next].sequence <= missions[j].sequence;
      assert HasQueued(missions);
      assert next == NextQueued(missions) by {
        assert IsNextQueued(missions, next);
      }
      dispatching := Some(Start(next, Opening, false));
      activeMissionId := Some(next);
      missions := missions[next := missions[next].(status := Starting)];
    }

    /** One more than any position in the table and among the batches. */
    method ReserveEnqueueSequence(batches: set<nat>) returns (next: nat)
      ensures forall id :: id in missions ==> missions[id].sequence < next
      ensures forall n :: n in batches ==> n < next
      ensures next == 1 || next - 1 in batches || exists id :: id in missions && missions[id].sequence == next - 1
    {
      var taken := (set id | id in missions :: missions[id].sequence) + batches;
      assert forall id :: id in missions ==> missions[id].sequence in taken;
      var rest, greatest := taken, 0;
      while rest != {}
        invariant rest <= taken
        invariant forall n :: n in taken && n !in rest ==> n <= greatest
        invariant greatest == 0 || greatest in taken
        decreases |rest|
      {
        var n: nat :| n in rest;
        if n > greatest { greatest := n; }
        rest := rest - {n};
      }
      next := greatest + 1;
      assert forall n :: n in batches ==> n in taken;
    }

    /** A new turn, at the position its batch has reserved or behind everything; or the turn that already carries this
        ingress key. */
    method Create(id: MissionId, reserved: Option<nat>, batches: set<nat>, openBatches: nat, configured: bool)
      returns (accepted: bool, sequence: nat)
      requires Valid()
      requires reserved.Some? && id !in missions ==> forall j :: j in missions ==>
          missions[j].sequence != reserved.value
      modifies this
      ensures Valid()
      ensures accepted <==> !old(clearingContext) && configured && old(|PendingIds()|) + openBatches < MAX_PENDING_TURNS
      ensures reserved.Some? ==> sequence == reserved.value
      ensures reserved.None? ==> forall j :: j in old(missions) ==> old(missions)[j].sequence < sequence
      ensures reserved.None? ==> forall n :: n in batches ==> n < sequence
      ensures View() == CreateStep(old(View()), id, sequence, accepted)
    {
      if reserved.Some? { sequence := reserved.value; } else { sequence := ReserveEnqueueSequence(batches); }
      if clearingContext || !configured { return false, sequence; }
      if |PendingIds()| + openBatches >= MAX_PENDING_TURNS { return false, sequence; }
      if id !in missions {
        missions := missions[id := Mission(Queued, sequence, None, None, false, false, 0, false)];
      }
      ProcessNext();
      return true, sequence;
    }

    method Resume(id: MissionId) returns (accepted: bool)
      requires Valid()
      modifies this
      ensures View() == ResumeStep(old(View()), id) && Valid()
      ensures accepted <==> id in old(missions) && old(missions)[id].status.Interrupted? && old(missions)[id].hasThread
    {
      if id !in missions { return false; }
      var mission := missions[id];
      if !mission.status.Interrupted? || !mission.hasThread { return false; }
      missions := missions[id := mission.(status := Queued, attempts := 0, infraError := false)];
      ProcessNext();
      return true;
    }

    /** interrupt up to its await: a queued turn is cancelled at once. */
    method Interrupt(id: MissionId)
      modifies this
      ensures View() == StopCallStep(old(View()), id)
      ensures old(Valid()) ==> Valid()
    {
      if id !in missions { return; }
      var mission := missions[id];
      if mission.status.Queued? {
        missions := missions[id := mission.(status := Cancelled)];
        return;
      }
      if !mission.hasThread || !mission.hasTurn || !Active(mission.status) { return; }
      requests := requests.(stops := Called(requests.stops, id));
    }

    method InterruptReplied(id: MissionId, ok: bool)
      requires id in missions && Calls(requests.stops, id) > 0
      modifies this
      ensures View() == StopReplyStep(old(View()), id, ok)
      ensures old(Valid()) ==> Valid()
    {
      requests := requests.(stops := Answered(requests.stops, id));
      if ok {
        missions := missions[id := missions[id].(status := Interrupted)];
        FinishActive(id);
      }
    }

    method FinishActive(id: MissionId)
      modifies this`activeMissionId, this`scheduled
      ensures View() == Dispatcher.FinishActive(old(View()), id)
    {
      if activeMissionId == Some(id) { activeMissionId := None; }
      scheduled := scheduled.(microtasks := scheduled.microtasks + 1);
    }

    method Approve(id: MissionId, answered: bool) returns (accepted: bool)
      modifies this`missions
      ensures View() == ApproveStep(old(View()), id, answered)
      ensures accepted <==> id in old(missions) && old(missions)[id].status.AwaitingApproval? && answered
    {
      if id !in missions || !missions[id].status.AwaitingApproval? || !answered { return false; }
      missions := missions[id := missions[id].(status := Running)];
      return true;
    }

    method SetDispatchPaused(value: bool)
      modifies this
      ensures View() == SetPausedStep(old(View()), value)
    {
      dispatchPaused := value;
      if !value { scheduled := scheduled.(microtasks := scheduled.microtasks + 1); }
    }

    method HandleServerRequest(id: MissionId)
      modifies this`missions
      ensures View() == ApprovalRequestStep(old(View()), id)
    {
      if id in missions { missions := missions[id := missions[id].(status := AwaitingApproval)]; }
    }

    /** turn/started writes the turn id on the row in the slot. */
    method HandleTurnStarted()
      modifies this`missions
      ensures View() == TurnStartedStep(old(View()))
    {
      if activeMissionId.Some? && activeMissionId.value in missions {
        missions := missions[activeMissionId.value := missions[activeMissionId.value].(hasTurn := true)];
      }
    }

    method HandleTurnCompleted(id: MissionId, outcome: Outcome)
      modifies this
      ensures View() == TurnCompletedStep(old(View()), id, outcome)
    {
      if id !in missions || !missions[id].hasTurn { return; }
      match outcome {
        case TurnDone => missions := missions[id := missions[id].(status := Completed, infraError := false)];
        case TurnStopped => missions := missions[id := missions[id].(status := Interrupted)];
        case TurnFailed(infra) => missions := missions[id := missions[id].(status := Failed, infraError := infra)];
      }
      FinishActive(id);
    }

    /** recoverFromContextWindow up to its first await. */
    method RecoverFromContextWindow(id: MissionId)
      modifies this
      ensures View() == ContextErrorStep(old(View()), id)
    {
      if id !in missions { return; }
      var mission := missions[id];
      if mission.attempts >= 1 || !mission.hasThread {
        missions := missions[id := mission.(status := Failed, infraError := false)];
        FinishActive(id);
        return;
      }
      missions := missions[id := mission.(status := Interrupted, attempts := mission.attempts + 1)];
      activeMissionId := None;
      pendingCompactionRecoveryId := Some(id);
      compacting := true;
      requests := requests.(recoveries := Called(requests.recoveries, id));
    }

    method RecoveryReplied(id: MissionId, ok: bool, infra: bool)
      requires id in missions && Calls(requests.recoveries, id) > 0
      modifies this
      ensures View() == RecoveryReplyStep(old(View()), id, ok, infra)
    {
      requests := requests.(recoveries := Answered(requests.recoveries, id));
      if ok {
        if compacting { compactionTimer := true; }
      } else {
        compacting := false;
        compactionTimer := false;
        pendingCompactionRecoveryId := None;
        missions := missions[id := missions[id].(status := Failed, infraError := infra)];
      }
    }

    /** compactConversation up to its await. */
    method CompactConversation(openBatches: bool) returns (accepted: bool)
      modifies this
      ensures View() == CompactCallStep(old(View()), !openBatches)
      ensures accepted <==> old(activeMissionId).None? && NoPending(old(missions)) && !openBatches
    {
      var idle := forall id :: id in missions ==> !Pending(missions[id].status);
      if activeMissionId.Some? || !idle || openBatches { return false; }
      compacting := true;
      requests := requests.(compactions := requests.compactions + 1);
      return true;
    }

    method CompactionReplied(ok: bool)
      requires requests.compactions > 0
      modifies this
      ensures View() == CompactReplyStep(old(View()), ok)
    {
      requests := requests.(compactions := requests.compactions - 1);
      if ok {
        if compacting { compactionTimer := true; }
      } else {
        compacting := false;
        compactionTimer := false;
      }
    }

    /** A notice that the thread has been compacted: open the gate and put the parked turn back. */
    method HandleCompacted(notice: Notice)
      requires Valid()
      modifies this
      ensures View() == CompactedStep(old(View()), notice) && Valid()
    {
      if notice.TurnAlias? && (!compacting || activeMissionId.Some?) { return; }
      compacting := false;
      compactionTimer := false;
      var recoveryId := pendingCompactionRecoveryId;
      pendingCompactionRecoveryId := None;
      if recoveryId.Some? && recoveryId.value in missions {
        missions := missions[recoveryId.value := missions[recoveryId.value].(status := Queued, infraError := false)];
      }
      ProcessNext();
    }

    method CompactionTimesOut()
      requires Valid() && compactionTimer
      modifies this
      ensures View() == CompactTimeoutStep(old(View())) && Valid()
    {
      compactionTimer := false;
      if !compacting { return; }
      compacting := false;
      var recoveryId := pendingCompactionRecoveryId;
      pendingCompactionRecoveryId := None;
      if recoveryId.Some? && recoveryId.value in missions {
        missions := missions[recoveryId.value := missions[recoveryId.value].(status := Failed, infraError := false)];
      }
      ProcessNext();
    }

    /** Refused while a turn is active, anything is queued or open, or the context is under maintenance; and without a
        Codex that is ready, authenticated and has a model. */
    method ClearContext(openBatches: nat, openingThread: bool, authenticated: bool,
        modelReady: bool) returns (accepted: bool)
      modifies this`clearingContext
      ensures View() == ClearCallStep(old(View()), openBatches == 0 && !openingThread && authenticated && modelReady)
      ensures accepted <==>
        && activeMissionId.None? && NoPending(missions) && openBatches == 0
        && !compacting && !old(clearingContext) && !openingThread
        && codexReady && authenticated && modelReady
    {
      var idle := forall id :: id in missions ==> !Pending(missions[id].status);
      if activeMissionId.Some? || !idle || openBatches > 0 { return false; }
      if compacting || clearingContext || openingThread { return false; }
      if !codexReady || !authenticated || !modelReady { return false; }
      clearingContext := true;
      return true;
    }

    method ContextCleared()
      requires clearingContext
      modifies this
      ensures View() == ClearReplyStep(old(View()))
    {
      clearingContext := false;
      scheduled := scheduled.(microtasks := scheduled.microtasks + 1);
    }

    method RunMicrotask()
      requires Valid() && scheduled.microtasks > 0
      modifies this
      ensures View() == RunScheduledStep(old(View())) && Valid()
    {
      scheduled := scheduled.(microtasks := scheduled.microtasks - 1);
      ProcessNext();
    }

    /** initializeConversation up to its await. */
    method InitializeConversation(authenticated: bool)
      modifies this`scheduled
      ensures View() == Initialize(old(View()), authenticated)
    {
      if codexReady && authenticated { scheduled := scheduled.(initsOpening := scheduled.initsOpening + 1); }
    }

    method ConversationInitialized()
      requires Valid() && scheduled.initsOpening > 0
      modifies this
      ensures View() == InitOpenedStep(old(View())) && Valid()
    {
      scheduled := scheduled.(initsOpening := scheduled.initsOpening - 1);
      ProcessNext();
    }

    method DispatchRetryFires(authenticated: bool)
      requires dispatchRetryTimer
      modifies this
      ensures View() == RetryFiresStep(old(View()), authenticated)
    {
      dispatchRetryTimer := false;
      InitializeConversation(authenticated);
    }

    /** startMission from the open thread to the request of the turn. */
    method ThreadOpened()
      requires dispatching.Some? && dispatching.value.stage.Opening? && dispatching.value.id in missions
      modifies this
      ensures View() == ThreadOpenedStep(old(View()))
    {
      var id := dispatching.value.id;
      missions := missions[id := missions[id].(hasThread := true)];
      dispatching := Some(dispatching.value.(stage := Launching));
    }

    /** The end of startMission: the reply to turn/start, whatever became of the row meanwhile. */
    method TurnReplied()
      requires dispatching.Some? && dispatching.value.stage.Launching? && dispatching.value.id in missions
      modifies this
      ensures View() == TurnRepliedStep(old(View()))
    {
      var id := dispatching.value.id;
      missions := missions[id := missions[id].(status := Running, hasThread := true, hasTurn := true)];
      dispatching := Some(dispatching.value.(stage := Settling));
    }

    /** The catch and finally blocks of processNext. */
    method StartFailed(infra: bool)
      requires dispatching.Some? && !dispatching.value.stage.Settling? && dispatching.value.id in missions
      modifies this
      ensures View() == StartFailedStep(old(View()), infra)
    {
      var id := dispatching.value.id;
      var current := missions[id];
      if current.status.Interrupted? {
      } else if infra {
        missions := missions[id := current.(status := Queued, infraError := false, attempts := current.attempts + 1)];
        dispatchRetryTimer := true;
      } else {
        missions := missions[id := current.(status := Failed, infraError := false)];
      }
      activeMissionId := None;
      if !infra { scheduled := scheduled.(microtasks := scheduled.microtasks + 1); }
      dispatching := None;
    }

    method FirstActiveMission() returns (first: Option<MissionId>)
      requires Valid()
      ensures first == FirstActive(missions)
    {
      var active := set id | id in missions && Active(missions[id].status);
      if active == {} {
        assert forall id :: id in missions && Active(missions[id].status) ==> id in active;
        return None;
      }
      LeastExists(missions, active);
      var id :| id in active && forall j :: j in active ==> missions[id].sequence <= missions[j].sequence;
      assert IsFirstActive(missions, id);
      return Some(id);
    }

    method HandleCodexExit()
      requires Valid()
      modifies this
      ensures View() == ExitStep(old(View()))
      ensures Valid()
    {
      var subject := activeMissionId;
      if subject.None? { subject := FirstActiveMission(); }
      InterruptByExit(subject);
      activeMissionId := None;
      codexReady := false;
      scheduled := scheduled.(readyEventDue := false);
      if dispatching.Some? { dispatching := Some(dispatching.value.(lost := true)); }
    }

    method InterruptByExit(subject: Option<MissionId>)
      modifies this`missions
      ensures missions == if Salvages(old(missions), subject)
                          then old(missions)[subject.value := Salvaged(old(missions)[subject.value])] else old(missions)
    {
      if subject.None? || subject.value !in missions || !Active(missions[subject.value].status) { return; }
      var mission := missions[subject.value];
      var recoverable := mission.hasThread && mission.attempts < 1;
      missions := missions[subject.value := mission.(
          status := if recoverable then Queued else Interrupted,
          attempts := if recoverable then mission.attempts + 1 else mission.attempts)];
    }
  }
}
