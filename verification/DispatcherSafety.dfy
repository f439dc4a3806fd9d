/** What every run of the dispatcher keeps: one active turn, and the compaction gate. */
module DispatcherSafety {
  import opened Records
  import opened Dispatcher

  /** The state after a start of the server on the rows t. */
  function Boot(t: Missions, ready: bool): State {
    RestartStep(State(t, None, None, None, Gate(false, false, false, false),
                      Owed(0, 0, 0, false, false, false), Flight(0, map[], map[])), ready)
  }

  // ---- one active turn

  /** Every row with an active status is the turn in the slot. */
  ghost predicate OnlySlotActive(s: State) {
    forall id :: id in s.missions && Active(s.missions[id].status) ==> s.active == Some(id)
  }

  predicate ActiveRow(s: State, id: MissionId) {
    id in s.missions && Active(s.missions[id].status)
  }

  ghost predicate KnownIds(s: State) {
    && (s.active.Some? ==> s.active.value in s.missions)
    && (s.start.Some? ==> s.start.value.id in s.missions)
    && (s.parked.Some? ==> s.parked.value in s.missions)
  }

  ghost predicate Safe(s: State) {
    && KnownIds(s)
    && OnlySlotActive(s)
    && (Starts(s) ==> s.active == Some(s.start.value.id))
    && (s.start.Some? && s.start.value.lost ==> !s.gate.ready && s.active.None?)
    && (s.gate.compacting ==> s.active.None?)
  }

  /** The turn in the slot has an active status. */
  predicate SlotIsActive(s: State) {
    s.active.Some? && s.active.value in s.missions ==> Active(s.missions[s.active.value].status)
  }

  /** Safe, and if the slot was active before it still is. */
  ghost predicate Keeps(s: State, s': State) {
    Safe(s') && (SlotIsActive(s) ==> SlotIsActive(s'))
  }

  /** A step writes the row of the turn in the slot from outside its turn: Codex reports the compaction it was parked
      for while it is in the slot again, or its own recovery call fails then. */
  predicate Clobbers(s: State, e: Event) {
    && s.active.Some?
    && match e
       case Codex(Compacted(notice)) => !notice.TurnAlias? && s.parked == s.active
       case Answer(RecoveryReply(id, ok, _)) => Calls(s.flight.recoveries, id) > 0 && !ok && s.active == Some(id)
       case _ => false
  }

  lemma ProcessNextKeeps(s: State)
    requires Safe(s)
    ensures Keeps(s, ProcessNext(s))
  {
  }

  lemma CreateKeeps(s: State, id: MissionId, sequence: nat, admitted: bool)
    requires Safe(s)
    ensures Keeps(s, CreateStep(s, id, sequence, admitted))
  {
    ProcessNextKeeps(s);
    if id !in s.missions {
      ProcessNextKeeps(s.(missions := s.missions[id := Mission(Queued, sequence, None, None, false, false, 0, false)]));
    }
  }

  lemma ResumeKeeps(s: State, id: MissionId)
    requires Safe(s)
    ensures Keeps(s, ResumeStep(s, id))
  {
    if id in s.missions && s.missions[id].status.Interrupted? {
      ProcessNextKeeps(s.(missions := s.missions[id := s.missions[id].(status := Queued, attempts := 0,
          infraError := false)]));
    }
  }

  lemma StopCallKeeps(s: State, id: MissionId)
    requires Safe(s)
    ensures Keeps(s, StopCallStep(s, id))
  {
  }

  lemma StopReplySafe(s: State, id: MissionId, ok: bool)
    requires Safe(s)
    ensures Safe(StopReplyStep(s, id, ok)) <==> !Disorders(s, Answer(StopReply(id, ok)))
    ensures SlotIsActive(s) ==> SlotIsActive(StopReplyStep(s, id, ok))
  {
  }

  lemma ApprovalKeeps(s: State, id: MissionId, answered: bool)
    requires Safe(s)
    ensures Keeps(s, ApproveStep(s, id, answered))
  {
  }

  lemma ApprovalRequestSafe(s: State, id: MissionId)
    requires Safe(s)
    ensures Safe(ApprovalRequestStep(s, id)) <==> !Misspeaks(s, Codex(ApprovalRequest(id)))
    ensures SlotIsActive(s) ==> SlotIsActive(ApprovalRequestStep(s, id))
  {
    if Misspeaks(s, Codex(ApprovalRequest(id))) { assert ActiveRow(ApprovalRequestStep(s, id), id); }
  }

  lemma TurnKeeps(s: State, id: MissionId, outcome: Outcome)
    requires Safe(s)
    ensures Keeps(s, TurnStartedStep(s))
    ensures Safe(TurnCompletedStep(s, id, outcome)) <==> !Disorders(s, Codex(TurnCompleted(id, outcome)))
    ensures SlotIsActive(s) ==> SlotIsActive(TurnCompletedStep(s, id, outcome))
  {
  }

  lemma ContextErrorSafe(s: State, id: MissionId)
    requires Safe(s)
    ensures Safe(ContextErrorStep(s, id)) <==> Fair(s, Codex(ContextError(id)))
    ensures SlotIsActive(s) ==> SlotIsActive(ContextErrorStep(s, id))
  {
    var s' := ContextErrorStep(s, id);
    if Misspeaks(s, Codex(ContextError(id))) && !Starts(s) { assert ActiveRow(s', s.active.value) && s'.active.None?; }
  }

  lemma RecoveryReplySafe(s: State, id: MissionId, ok: bool, infra: bool)
    requires Safe(s)
    ensures Safe(RecoveryReplyStep(s, id, ok, infra))
    ensures SlotIsActive(s) ==>
      (SlotIsActive(RecoveryReplyStep(s, id, ok, infra)) <==> !Clobbers(s, Answer(RecoveryReply(id, ok, infra))))
  {
  }

  lemma CompactedSafe(s: State, notice: Notice)
    requires Safe(s)
    ensures Safe(CompactedStep(s, notice))
    ensures SlotIsActive(s) ==> (SlotIsActive(CompactedStep(s, notice)) <==> !Clobbers(s, Codex(Compacted(notice))))
  {
  }

  lemma CompactTimeoutSafe(s: State)
    requires Safe(s)
    ensures Safe(CompactTimeoutStep(s))
    ensures SlotIsActive(s) ==> (SlotIsActive(CompactTimeoutStep(s)) <==> !Clobbers(s, Server(CompactTimeout)))
  {
  }

  lemma ThreadOpenedKeeps(s: State)
    requires Safe(s)
    ensures Keeps(s, ThreadOpenedStep(s))
  {
  }

  lemma TurnRepliedSafe(s: State)
    requires Safe(s)
    ensures Safe(TurnRepliedStep(s)) <==> !Disorders(s, Answer(TurnReplied))
    ensures SlotIsActive(s) ==> SlotIsActive(TurnRepliedStep(s))
  {
    if Disorders(s, Answer(TurnReplied)) { assert ActiveRow(TurnRepliedStep(s), s.start.value.id); }
  }

  lemma StartFailedKeeps(s: State, infra: bool)
    requires Safe(s)
    ensures Keeps(s, StartFailedStep(s, infra))
  {
  }

  lemma ExitKeeps(s: State)
    requires Safe(s)
    ensures Keeps(s, ExitStep(s))
  {
  }

  /** Whatever the rows were, a restart leaves none active and the slot empty. */
  lemma RestartKeeps(s: State, ready: bool)
    ensures Safe(RestartStep(s, ready)) && SlotIsActive(RestartStep(s, ready))
  {
  }

  lemma QuietKeeps(s: State, b: bool)
    requires Safe(s)
    ensures Keeps(s, CompactCallStep(s, b)) && Keeps(s, CompactReplyStep(s, b))
    ensures Keeps(s, ClearCallStep(s, b)) && Keeps(s, ClearReplyStep(s))
    ensures Keeps(s, SetPausedStep(s, b))
  {
  }

  lemma ScheduleKeeps(s: State)
    requires Safe(s)
    ensures Keeps(s, ReadyEventStep(s))
    ensures Keeps(s, StartSettledStep(s)) && Keeps(s, ConnectLostStep(s))
    ensures Safe(ConnectedStep(s)) <==> !Disorders(s, Codex(Connected))
    ensures SlotIsActive(s) ==> SlotIsActive(ConnectedStep(s))
  {
  }

  lemma InitKeeps(s: State, authenticated: bool)
    requires Safe(s)
    ensures Keeps(s, InitBeginStep(s, authenticated))
    ensures Keeps(s, RetryFiresStep(s, authenticated))
  {
  }

  lemma CallKeeps(s: State)
    requires Safe(s)
    ensures Keeps(s, InitOpenedStep(s)) && Keeps(s, RunScheduledStep(s))
  {
    hide ProcessNext;
    if s.owed.calls > 0 { ProcessNextKeeps(s.(owed := s.owed.(calls := s.owed.calls - 1))); }
    if s.owed.initsOpening > 0 { ProcessNextKeeps(s.(owed := s.owed.(initsOpening := s.owed.initsOpening - 1))); }
  }

  lemma UserSlotStep(s: State, r: Request)
    requires Safe(s)
    ensures Keeps(s, UserStep(s, r))
  {
    match r
    case Create(id, sequence, admitted) => CreateKeeps(s, id, sequence, admitted);
    case Resume(id) => ResumeKeeps(s, id);
    case StopCall(id) => StopCallKeeps(s, id);
    case Approve(id, answered) => ApprovalKeeps(s, id, answered);
    case CompactCall(admitted) => QuietKeeps(s, admitted);
    case ClearCall(admitted) => QuietKeeps(s, admitted);
    case SetPaused(paused) => QuietKeeps(s, paused);
  }

  lemma CodexSlotStep(s: State, m: Message)
    requires Safe(s)
    ensures Safe(CodexStep(s, m)) <==> Fair(s, Codex(m))
    ensures SlotIsActive(s) ==> (SlotIsActive(CodexStep(s, m)) <==> !Clobbers(s, Codex(m)))
  {
    hide Safe, SlotIsActive;
    match m
    case ApprovalRequest(id) => ApprovalRequestSafe(s, id);
    case TurnStarted => TurnKeeps(s, 0, TurnDone);
    case TurnCompleted(id, outcome) => TurnKeeps(s, id, outcome);
    case ContextError(id) => ContextErrorSafe(s, id);
    case Compacted(notice) => CompactedSafe(s, notice);
    case Connected => ScheduleKeeps(s);
    case ConnectLost => ScheduleKeeps(s);
    case Exit => ExitKeeps(s);
  }

  lemma AnswerSlotStep(s: State, r: Reply)
    requires Safe(s)
    ensures Safe(AnswerStep(s, r)) <==> Fair(s, Answer(r))
    ensures SlotIsActive(s) ==> (SlotIsActive(AnswerStep(s, r)) <==> !Clobbers(s, Answer(r)))
  {
    match r
    case StopReply(id, ok) => StopReplySafe(s, id, ok);
    case RecoveryReply(id, ok, infra) => RecoveryReplySafe(s, id, ok, infra);
    case CompactReply(ok) => QuietKeeps(s, ok);
    case ClearReply => QuietKeeps(s, true);
    case ThreadOpened => ThreadOpenedKeeps(s);
    case TurnReplied => TurnRepliedSafe(s);
    case StartFailed(infra) => StartFailedKeeps(s, infra);
  }

  lemma ServerSlotStep(s: State, i: Internal)
    requires Safe(s)
    ensures Safe(ServerStep(s, i))
    ensures SlotIsActive(s) ==> (SlotIsActive(ServerStep(s, i)) <==> !Clobbers(s, Server(i)))
  {
    match i
    case RunScheduled => CallKeeps(s);
    case ReadyEvent => ScheduleKeeps(s);
    case InitBegin(authenticated) => InitKeeps(s, authenticated);
    case InitOpened => CallKeeps(s);
    case RetryFires(authenticated) => InitKeeps(s, authenticated);
    case StartSettled => ScheduleKeeps(s);
    case CompactTimeout => CompactTimeoutSafe(s);
    case Restart(ready) => RestartKeeps(s, ready);
  }

  /** A step leaves the slot safe exactly if it does not disorder a start and Codex does not misspeak in it. The steps
      that leave a turn in the slot whose row is not active are exactly the clobbering ones. */
  lemma SlotStep(s: State, e: Event)
    requires Safe(s)
    ensures Safe(Step(s, e)) <==> Fair(s, e)
    ensures SlotIsActive(s) ==> (SlotIsActive(Step(s, e)) <==> !Clobbers(s, e))
  {
    match e
    case User(request) => UserSlotStep(s, request);
    case Codex(message) => CodexSlotStep(s, message);
    case Answer(reply) => AnswerSlotStep(s, reply);
    case Server(internal) => ServerSlotStep(s, internal);
  }

  /** In every fair run from a start of the server, crashes and restarts included, at most one turn is active
      and it is the one in the slot. */
  lemma {:induction false} AtMostOneActiveTurn(s: State, es: seq<Event>)
    requires Safe(s) && FairRun(s, es)
    ensures Safe(Run(s, es))
    ensures forall i, j :: ActiveRow(Run(s, es), i) && ActiveRow(Run(s, es), j) ==> i == j
    decreases |es|
  {
    if es != [] {
      SlotStep(s, es[0]);
      AtMostOneActiveTurn(Step(s, es[0]), es[1..]);
    }
  }

  /** Whether every state a run comes through is safe. */
  ghost predicate AlwaysSafe(s: State, es: seq<Event>)
    decreases |es|
  {
    Safe(s) && (es != [] ==> AlwaysSafe(Step(s, es[0]), es[1..]))
  }

  /** Whatever happens, and in whatever order: the slot is safe throughout a run if and only if the run is fair. */
  lemma {:induction false} SafeExactlyInFairRuns(s: State, es: seq<Event>)
    requires Safe(s)
    ensures AlwaysSafe(s, es) <==> FairRun(s, es)
    decreases |es|
  {
    hide Safe, Step, Fair;
    if es != [] {
      SlotStep(s, es[0]);
      var t := Step(s, es[0]);
      if Fair(s, es[0]) {
        SafeExactlyInFairRuns(t, es[1..]);
      } else {
        assert !AlwaysSafe(t, es[1..]);
      }
    }
  }

  /** What gives the slot up: its turn ends, is stopped, does not start or does not fit its context, the process that
      ran it ends, or another turn that may still be recovered reports a full context. */
  predicate Frees(s: State, e: Event, id: MissionId) {
    match e
    case Answer(StopReply(stopped, ok)) => ok && stopped == id && id in s.missions && Calls(s.flight.stops, id) > 0
    case Answer(StartFailed(_)) => Starts(s) && s.start.value.id == id
    case Codex(TurnCompleted(completed, _)) => completed == id && id in s.missions && s.missions[id].hasTurn
    case Codex(ContextError(full)) => full in s.missions && (full == id || Recoverable(s.missions[full]))
    case Codex(Exit) => true
    case Server(Restart(_)) => true
    case _ => false
  }

  /** The slot is given up by exactly those steps; a late completion, stop or failure of another turn never frees it. */
  lemma SlotIsFreedExactly(s: State, e: Event, id: MissionId)
    requires Safe(s) && s.active == Some(id)
    ensures Step(s, e).active != Some(id) <==> Frees(s, e, id)
  {
    match e
    case User(request) => assert UserStep(s, request).active == s.active;
    case Codex(message) => FreedByCodex(s, message, id);
    case Answer(reply) => FreedByAnswer(s, reply, id);
    case Server(internal) => assert ServerStep(s, internal).active == s.active || internal.Restart?;
  }

  lemma FreedByCodex(s: State, m: Message, id: MissionId)
    requires Safe(s) && s.active == Some(id)
    ensures CodexStep(s, m).active != Some(id) <==> Frees(s, Codex(m), id)
  {
  }

  lemma FreedByAnswer(s: State, r: Reply, id: MissionId)
    requires Safe(s) && s.active == Some(id)
    ensures AnswerStep(s, r).active != Some(id) <==> Frees(s, Answer(r), id)
  {
  }

  // ---- the compaction gate

  ghost predicate CompactionAsked(s: State) {
    s.flight.compactions > 0 || exists id :: Calls(s.flight.recoveries, id) > 0
  }

  /** The gate is closed for a compaction only while one is asked for or its timeout runs, and the timeout
      runs only while the gate is closed. */
  ghost predicate GateHeld(s: State) {
    && (s.gate.compacting ==> CompactionAsked(s) || s.owed.timeout)
    && (s.owed.timeout ==> s.gate.compacting)
  }

  lemma GateStep(s: State, e: Event)
    requires GateHeld(s)
    ensures GateHeld(Step(s, e))
  {
    match e
    case User(request) => GateUser(s, request);
    case Codex(message) => GateCodex(s, message);
    case Answer(reply) => GateAnswer(s, reply);
    case Server(internal) => GateServer(s, internal);
  }

  /** In every run, fair or not. */
  lemma {:induction false} CompactionGateIsHeld(s: State, es: seq<Event>)
    requires GateHeld(s)
    ensures GateHeld(Run(s, es))
    decreases |es|
  {
    if es != [] {
      GateStep(s, es[0]);
      CompactionGateIsHeld(Step(s, es[0]), es[1..]);
    }
  }

  lemma GateUser(s: State, r: Request)
    requires GateHeld(s)
    ensures GateHeld(UserStep(s, r))
  {
  }

  lemma GateCodex(s: State, m: Message)
    requires GateHeld(s)
    ensures GateHeld(CodexStep(s, m))
  {
    if m.ContextError? && m.id in s.missions && Recoverable(s.missions[m.id]) {
      assert Calls(CodexStep(s, m).flight.recoveries, m.id) > 0;
    }
  }

  lemma GateAnswer(s: State, r: Reply)
    requires GateHeld(s)
    ensures GateHeld(AnswerStep(s, r))
  {
  }

  lemma GateServer(s: State, i: Internal)
    requires GateHeld(s)
    ensures GateHeld(ServerStep(s, i))
  {
  }

  // ---- nothing disturbs the slot when compaction requests succeed

  /** A turn is parked only while the compaction gate is closed. */
  predicate Calm(s: State) {
    SlotIsActive(s) && (s.parked.Some? ==> s.gate.compacting)
  }

  lemma CalmUser(s: State, r: Request)
    requires Calm(s)
    ensures SlotIsActive(UserStep(s, r)) ==> Calm(UserStep(s, r))
  {
  }

  lemma CalmCodex(s: State, m: Message)
    requires Safe(s) && Calm(s) && Fair(s, Codex(m))
    ensures SlotIsActive(CodexStep(s, m)) ==> Calm(CodexStep(s, m))
  {
  }

  lemma CalmAnswer(s: State, r: Reply)
    requires Safe(s) && Calm(s) && Fair(s, Answer(r)) && CompactionsSucceed(Answer(r))
    ensures SlotIsActive(AnswerStep(s, r)) ==> Calm(AnswerStep(s, r))
  {
  }

  lemma CalmServer(s: State, i: Internal)
    requires Safe(s) && Calm(s)
    ensures SlotIsActive(ServerStep(s, i)) ==> Calm(ServerStep(s, i))
  {
  }

  lemma CalmStep(s: State, e: Event)
    requires Safe(s) && Calm(s) && Fair(s, e) && CompactionsSucceed(e)
    ensures Safe(Step(s, e)) && Calm(Step(s, e))
  {
    SlotStep(s, e);
    match e
    case User(request) => CalmUser(s, request);
    case Codex(message) => CalmCodex(s, message);
    case Answer(reply) => CalmAnswer(s, reply);
    case Server(internal) => CalmServer(s, internal);
  }

  lemma {:induction false} CalmRun(s: State, es: seq<Event>)
    requires Safe(s) && Calm(s) && FairRun(s, es)
    requires forall e :: e in es ==> CompactionsSucceed(e)
    ensures Safe(Run(s, es)) && Calm(Run(s, es))
    decreases |es|
  {
    if es != [] {
      CalmStep(s, es[0]);
      CalmRun(Step(s, es[0]), es[1..]);
    }
  }

  /** If no compaction request fails, the turn in the slot is exactly the one whose row is active. */
  lemma OneActiveTurn(t: Missions, ready: bool, es: seq<Event>)
    requires FairRun(Boot(t, ready), es)
    requires forall e :: e in es ==> CompactionsSucceed(e)
    ensures var s := Run(Boot(t, ready), es);
      forall id: MissionId :: ActiveRow(s, id) <==> s.active == Some(id)
  {
    CalmRun(Boot(t, ready), es);
  }

  // ---- what a failed compaction request does

  function Row(status: Status, sequence: nat, known: bool, attempts: nat): Mission {
    Mission(status, sequence, None, None, known, known, attempts, false)
  }

  /** The first turn is running, and nothing is owed or in flight. */
  const TURN_RUNNING := State(
    map[1 := Row(Running, 1, true, 0)], Some(1), None, None,
    Gate(false, false, false, true), Owed(0, 0, 0, false, false, false), Flight(0, map[], map[]))

  const TURN_SETTLING := TURN_RUNNING.(start := Some(Start(1, Settling, false)),
      owed := TURN_RUNNING.owed.(initsScheduled := 1))

  const TO_SETTLING := [User(Create(1, 1, true)), Answer(ThreadOpened), Answer(TurnReplied)]
  const TO_RUNNING := [Server(StartSettled), Server(InitBegin(true)), Server(InitOpened)]

  lemma TurnSettles()
    ensures FairRun(Boot(map[], true), TO_SETTLING) && Run(Boot(map[], true), TO_SETTLING) == TURN_SETTLING
  {
    var s1 := Step(Boot(map[], true), TO_SETTLING[0]);
    var s2 := Step(s1, TO_SETTLING[1]);
    var s3 := Step(s2, TO_SETTLING[2]);
    assert s3.missions == TURN_SETTLING.missions;
    assert TO_SETTLING[3..] == [];
  }

  lemma TurnRuns()
    ensures FairRun(TURN_SETTLING, TO_RUNNING) && Run(TURN_SETTLING, TO_RUNNING) == TURN_RUNNING
  {
    var s1 := Step(TURN_SETTLING, TO_RUNNING[0]);
    var s2 := Step(s1, TO_RUNNING[1]);
    var s3 := Step(s2, TO_RUNNING[2]);
    assert TO_RUNNING[3..] == [];
  }

  /** A fair run from a start of the server on an empty table reaches TURN_RUNNING. */
  lemma TurnRunningIsReached()
    ensures FairRun(Boot(map[], true), TO_SETTLING + TO_RUNNING)
    ensures Run(Boot(map[], true), TO_SETTLING + TO_RUNNING) == TURN_RUNNING
  {
    TurnSettles();
    TurnRuns();
    RunInTwoParts(Boot(map[], true), TO_SETTLING, TO_RUNNING);
  }

  /** The turn runs out of context, its compaction is reported, and only then does the request fail:
      the turn is marked failed while it is being started again. */
  const LATE_FAILURE := [
    Codex(ContextError(1)), Codex(Compacted(ThreadCompacted)), Answer(RecoveryReply(1, false, false))
  ]

  lemma LateFailureLeavesAnInactiveTurnInTheSlot()
    ensures FairRun(TURN_RUNNING, LATE_FAILURE)
    ensures Run(TURN_RUNNING, LATE_FAILURE).active == Some(1)
    ensures !ActiveRow(Run(TURN_RUNNING, LATE_FAILURE), 1)
  {
    var s1 := Step(TURN_RUNNING, LATE_FAILURE[0]);
    var s2 := Step(s1, LATE_FAILURE[1]);
    assert s2.active == Some(1);
    var s3 := Step(s2, LATE_FAILURE[2]);
    assert LATE_FAILURE[3..] == [];
  }
}
