/**
 The turn dispatcher as a state machine. The code between two awaits is one event; an await is a
 point where any other event may come in between. The missions table is durable; everything else in
 State is lost on a restart.
 */
module Dispatcher {
  import opened Records

  const LIST_LIMIT := 100

  /** How far the dispatch in flight has come: waiting for the thread, for the reply to turn/start,
      or for processNext to resume after startMission has returned. */
  datatype Stage = Opening | Launching | Settling

  /** The dispatch in flight. `lost` records that Codex exited while it was. */
  datatype Start = Start(id: MissionId, stage: Stage, lost: bool)

  /** How many calls for each turn are waiting for Codex. */
  type Waiting = map<MissionId, nat>

  function Calls(w: Waiting, id: MissionId): nat {
    if id in w then w[id] else 0
  }

  function Called(w: Waiting, id: MissionId): Waiting {
    w[id := Calls(w, id) + 1]
  }

  function Answered(w: Waiting, id: MissionId): Waiting
    requires Calls(w, id) > 0
  {
    w[id := Calls(w, id) - 1]
  }

  datatype Gate = Gate(
    compacting: bool,
    clearing: bool,                   // clearingContext
    paused: bool,                     // dispatchPaused
    ready: bool                       // the Codex process is "ready"
  )

  /** What will call processNext later, and the compaction timeout. */
  datatype Owed = Owed(
    calls: nat,                       // scheduled calls of processNext
    initsScheduled: nat,              // scheduled calls of initializeConversation
    initsOpening: nat,                // initializeConversation waiting for the thread
    retry: bool,                      // dispatchRetryTimer is armed
    readyEvent: bool,                 // Codex is connected and its ready event is still to come
    timeout: bool                     // compactionTimer is armed
  )

  /** The requests to Codex whose continuations are still to come. */
  datatype Flight = Flight(
    compactions: nat,                 // compactConversation
    recoveries: Waiting,              // recoverFromContextWindow
    stops: Waiting                    // interrupt
  )

  datatype State = State(
    missions: Missions,
    active: Option<MissionId>,        // activeMissionId
    start: Option<Start>,             // `dispatching` is start.Some?
    parked: Option<MissionId>,        // pendingCompactionRecoveryId
    gate: Gate,
    owed: Owed,
    flight: Flight
  )

  datatype Outcome = TurnDone | TurnStopped | TurnFailed(infra: bool)

  /** The three notifications that report a compaction. */
  datatype Notice = ThreadCompacted | CompactionItem | TurnAlias

  /** What the user, a timer or the WhatsApp bridge calls. */
  datatype Request =
    | Create(id: MissionId, sequence: nat, admitted: bool)
    | Resume(id: MissionId)
    | StopCall(id: MissionId)
    | Approve(id: MissionId, answered: bool)
    | CompactCall(admitted: bool)
    | ClearCall(admitted: bool)
    | SetPaused(paused: bool)

  /** What Codex says on its own. */
  datatype Message =
    | ApprovalRequest(id: MissionId)
    | TurnStarted
    | TurnCompleted(id: MissionId, outcome: Outcome)
    | ContextError(id: MissionId)
    | Compacted(notice: Notice)
    | Connected
    | ConnectLost
    | Exit

  /** The continuation of an await on Codex. */
  datatype Reply =
    | StopReply(id: MissionId, ok: bool)
    | RecoveryReply(id: MissionId, ok: bool, infra: bool)
    | CompactReply(ok: bool)
    | ClearReply
    | ThreadOpened
    | TurnReplied
    | StartFailed(infra: bool)

  /** What the server does by itself: scheduled calls, timers, and a crash followed by a restart. */
  datatype Internal =
    | RunScheduled
    | ReadyEvent
    | InitBegin(authenticated: bool)
    | InitOpened
    | RetryFires(authenticated: bool)
    | StartSettled
    | CompactTimeout
    | Restart(ready: bool)

  datatype Event = User(request: Request) | Codex(message: Message) | Answer(reply: Reply) | Server(internal: Internal)

  // ---- the pieces the handlers share

  predicate GatesOpen(s: State) {
    s.start.None? && s.active.None? && !s.gate.compacting && !s.gate.clearing && !s.gate.paused && s.gate.ready
  }

  /** processNext up to its first await: the gates, the claim of the slot and the start of startMission. */
  ghost function ProcessNext(s: State): (s': State)
    ensures s'.parked == s.parked && s'.gate == s.gate && s'.owed == s.owed && s'.flight == s.flight
    ensures !(GatesOpen(s') && HasQueued(s'.missions))
  {
    if GatesOpen(s) && HasQueued(s.missions) then
      var id := NextQueued(s.missions);
      s.(missions := s.missions[id := s.missions[id].(status := Starting)],
         active := Some(id),
         start := Some(Start(id, Opening, false)))
    else s
  }

  /** queueMicrotask(processNext) */
  function Owe(s: State): State {
    s.(owed := s.owed.(calls := s.owed.calls + 1))
  }

  function FinishActive(s: State, id: MissionId): State {
    Owe(s.(active := if s.active == Some(id) then None else s.active))
  }

  function ArmTimeout(s: State): State {
    if s.gate.compacting then s.(owed := s.owed.(timeout := true)) else s
  }

  /** compacting = false and clearCompactionTimeout() */
  function CompactionOver(s: State): State {
    s.(gate := s.gate.(compacting := false), owed := s.owed.(timeout := false))
  }

  /** The process is not ready, and the ready event of a connection being set up will not come. */
  function Disconnected(s: State): State {
    s.(gate := s.gate.(ready := false), owed := s.owed.(readyEvent := false))
  }

  function SetStatus(t: Missions, id: MissionId, status: Status): Missions
    requires id in t
  {
    t[id := t[id].(status := status)]
  }

  predicate NoPending(t: Missions) {
    forall id :: id in t ==> !Pending(t[id].status)
  }

  /** Whether an interrupted turn may be continued without the user: once, and only with a thread. */
  predicate Recoverable(m: Mission) {
    m.hasThread && m.attempts < 1
  }

  /** What process exit and restart do to a row they find active. */
  function Salvaged(m: Mission): Mission {
    if Recoverable(m) then m.(status := Queued, attempts := m.attempts + 1)
    else m.(status := Interrupted)
  }

  // ---- restart

  function Newer(t: Missions, id: MissionId): set<MissionId>
    requires id in t
  {
    set j | j in t && t[j].sequence > t[id].sequence
  }

  /** A turn that failed to start because Codex was away; only the newest hundred are looked at. */
  predicate FailedToStart(t: Missions, id: MissionId)
    requires id in t
  {
    t[id].status.Failed? && !t[id].hasTurn && t[id].infraError && |Newer(t, id)| < LIST_LIMIT
  }

  function RecoveredRow(t: Missions, id: MissionId): Mission
    requires id in t
  {
    var m := t[id];
    if Active(m.status) then Salvaged(m)
    else if FailedToStart(t, id) then m.(status := Queued, infraError := false, attempts := m.attempts + 1)
    else m
  }

  function RecoveredTable(t: Missions): Missions {
    map id | id in t :: RecoveredRow(t, id)
  }

  // ---- one function per handler

  ghost function CreateStep(s: State, id: MissionId, sequence: nat, admitted: bool): State {
    if s.gate.clearing || !admitted then s
    else if id in s.missions then ProcessNext(s)
    else ProcessNext(s.(missions := s.missions[id := Mission(Queued, sequence, None, None, false, false, 0, false)]))
  }

  ghost function ResumeStep(s: State, id: MissionId): State {
    if id in s.missions && s.missions[id].status.Interrupted? && s.missions[id].hasThread then
      ProcessNext(s.(missions := s.missions[id := s.missions[id].(status := Queued, attempts := 0,
          infraError := false)]))
    else s
  }

  function StopCallStep(s: State, id: MissionId): State {
    if id !in s.missions then s
    else if s.missions[id].status.Queued? then s.(missions := SetStatus(s.missions, id, Cancelled))
    else if s.missions[id].hasThread && s.missions[id].hasTurn && Active(s.missions[id].status) then
      s.(flight := s.flight.(stops := Called(s.flight.stops, id)))
    else s
  }

  function StopReplyStep(s: State, id: MissionId, ok: bool): State {
    if Calls(s.flight.stops, id) == 0 || id !in s.missions then s
    else
      var s1 := s.(flight := s.flight.(stops := Answered(s.flight.stops, id)));
      if ok then FinishActive(s1.(missions := SetStatus(s1.missions, id, Interrupted)), id) else s1
  }

  function ApproveStep(s: State, id: MissionId, answered: bool): State {
    if id in s.missions && s.missions[id].status.AwaitingApproval? && answered then
      s.(missions := SetStatus(s.missions, id, Running))
    else s
  }

  function ApprovalRequestStep(s: State, id: MissionId): State {
    if id in s.missions then s.(missions := SetStatus(s.missions, id, AwaitingApproval)) else s
  }

  function TurnStartedStep(s: State): State {
    if s.active.Some? && s.active.value in s.missions then
      s.(missions := s.missions[s.active.value := s.missions[s.active.value].(hasTurn := true)])
    else s
  }

  function CompletedRow(m: Mission, outcome: Outcome): Mission {
    match outcome
    case TurnDone => m.(status := Completed, infraError := false)
    case TurnStopped => m.(status := Interrupted)
    case TurnFailed(infra) => m.(status := Failed, infraError := infra)
  }

  function TurnCompletedStep(s: State, id: MissionId, outcome: Outcome): State {
    if id in s.missions && s.missions[id].hasTurn then
      FinishActive(s.(missions := s.missions[id := CompletedRow(s.missions[id], outcome)]), id)
    else s
  }

  /** recoverFromContextWindow up to its first await: park the turn and ask for a compaction, once. */
  function ContextErrorStep(s: State, id: MissionId): State {
    if id !in s.missions then s
    else
      var m := s.missions[id];
      if Recoverable(m) then
        s.(missions := s.missions[id := m.(status := Interrupted, attempts := m.attempts + 1)],
           active := None, parked := Some(id), gate := s.gate.(compacting := true),
           flight := s.flight.(recoveries := Called(s.flight.recoveries, id)))
      else
        FinishActive(s.(missions := s.missions[id := m.(status := Failed, infraError := false)]), id)
  }

  function RecoveryReplyStep(s: State, id: MissionId, ok: bool, infra: bool): State {
    if Calls(s.flight.recoveries, id) == 0 || id !in s.missions then s
    else
      var s1 := s.(flight := s.flight.(recoveries := Answered(s.flight.recoveries, id)));
      if ok then ArmTimeout(s1)
      else CompactionOver(s1).(parked := None,
               missions := s1.missions[id := s1.missions[id].(status := Failed, infraError := infra)])
  }

  function CompactCallStep(s: State, admitted: bool): State {
    if s.active.Some? || !NoPending(s.missions) || !admitted then s
    else s.(gate := s.gate.(compacting := true), flight := s.flight.(compactions := s.flight.compactions + 1))
  }

  function CompactReplyStep(s: State, ok: bool): State {
    if s.flight.compactions == 0 then s
    else
      var s1 := s.(flight := s.flight.(compactions := s.flight.compactions - 1));
      if ok then ArmTimeout(s1) else CompactionOver(s1)
  }

  /** A turn/completed for no known turn reports a compaction only while one is awaited; while a turn is in the slot
      it is kept for that turn. */
  predicate Heard(s: State, notice: Notice) {
    notice.TurnAlias? ==> s.gate.compacting && s.active.None?
  }

  ghost function CompactedStep(s: State, notice: Notice): State {
    if !Heard(s, notice) then s
    else
      var t := if s.parked.Some? && s.parked.value in s.missions
               then s.missions[s.parked.value := s.missions[s.parked.value].(status := Queued, infraError := false)]
               else s.missions;
      ProcessNext(CompactionOver(s).(missions := t, parked := None))
  }

  ghost function CompactTimeoutStep(s: State): State {
    if !s.owed.timeout then s
    else
      var s1 := s.(owed := s.owed.(timeout := false));
      if !s1.gate.compacting then s1
      else
        var t := if s.parked.Some? && s.parked.value in s.missions
                 then s.missions[s.parked.value := s.missions[s.parked.value].(status := Failed, infraError := false)]
                 else s.missions;
        ProcessNext(CompactionOver(s).(missions := t, parked := None))
  }

  function ClearCallStep(s: State, admitted: bool): State {
    if s.active.Some? || !NoPending(s.missions) || s.gate.compacting || s.gate.clearing then s
    else if !s.gate.ready || !admitted then s
    else s.(gate := s.gate.(clearing := true))
  }

  function ClearReplyStep(s: State): State {
    if s.gate.clearing then Owe(s.(gate := s.gate.(clearing := false))) else s
  }

  function SetPausedStep(s: State, paused: bool): State {
    var s1 := s.(gate := s.gate.(paused := paused));
    if paused then s1 else Owe(s1)
  }

  ghost function RunScheduledStep(s: State): State {
    if s.owed.calls == 0 then s else ProcessNext(s.(owed := s.owed.(calls := s.owed.calls - 1)))
  }

  function ReadyEventStep(s: State): State {
    if s.owed.readyEvent then s.(owed := s.owed.(readyEvent := false,
        initsScheduled := s.owed.initsScheduled + 1)) else s
  }

  /** initializeConversation up to its await. */
  function Initialize(s: State, authenticated: bool): State {
    if s.gate.ready && authenticated then s.(owed := s.owed.(initsOpening := s.owed.initsOpening + 1)) else s
  }

  function InitBeginStep(s: State, authenticated: bool): State {
    if s.owed.initsScheduled == 0 then s
    else Initialize(s.(owed := s.owed.(initsScheduled := s.owed.initsScheduled - 1)), authenticated)
  }

  ghost function InitOpenedStep(s: State): State {
    if s.owed.initsOpening == 0 then s else ProcessNext(s.(owed := s.owed.(initsOpening := s.owed.initsOpening - 1)))
  }

  function RetryFiresStep(s: State, authenticated: bool): State {
    if !s.owed.retry then s else Initialize(s.(owed := s.owed.(retry := false)), authenticated)
  }

  function ThreadOpenedStep(s: State): State {
    if s.start.Some? && s.start.value.stage.Opening? && s.start.value.id in s.missions then
      var id := s.start.value.id;
      s.(missions := s.missions[id := s.missions[id].(hasThread := true)],
         start := Some(s.start.value.(stage := Launching)))
    else s
  }

  /** The continuation after the turn/start reply writes `running` without looking at the status. */
  function TurnRepliedStep(s: State): State {
    if s.start.Some? && s.start.value.stage.Launching? && s.start.value.id in s.missions then
      var id := s.start.value.id;
      s.(missions := s.missions[id := s.missions[id].(status := Running, hasThread := true, hasTurn := true)],
         start := Some(s.start.value.(stage := Settling)))
    else s
  }

  function StartSettledStep(s: State): State {
    if s.start.Some? && s.start.value.stage.Settling? then s.(start := None) else s
  }

  /** The catch and finally blocks of processNext. */
  function StartFailedStep(s: State, infra: bool): State {
    if s.start.None? || s.start.value.stage.Settling? || s.start.value.id !in s.missions then s
    else
      var id := s.start.value.id;
      var m := s.missions[id];
      var s1 :=
        if m.status.Interrupted? then s
        else if infra then
          s.(missions := s.missions[id := m.(status := Queued, infraError := false, attempts := m.attempts + 1)],
             owed := s.owed.(retry := true))
        else s.(missions := s.missions[id := m.(status := Failed, infraError := false)]);
      var s2 := s1.(active := None, start := None);
      if infra then s2 else Owe(s2)
  }

  function ConnectedStep(s: State): State {
    if s.gate.ready then s else s.(gate := s.gate.(ready := true), owed := s.owed.(readyEvent := true))
  }

  function ConnectLostStep(s: State): State {
    if s.owed.readyEvent then Disconnected(s) else s
  }

  /** The turn handleCodexExit looks at. */
  ghost function ExitSubject(s: State): Option<MissionId> {
    if s.active.Some? then s.active else FirstActive(s.missions)
  }

  predicate Salvages(t: Missions, subject: Option<MissionId>) {
    subject.Some? && subject.value in t && Active(t[subject.value].status)
  }

  ghost function ExitStep(s: State): State {
    var subject := ExitSubject(s);
    Disconnected(s).(
       missions := if Salvages(s.missions, subject)
                   then s.missions[subject.value := Salvaged(s.missions[subject.value])] else s.missions,
       active := None,
       start := if s.start.Some? then Some(s.start.value.(lost := true)) else None)
  }

  function RestartStep(s: State, ready: bool): State {
    State(RecoveredTable(s.missions), None, None, None, Gate(false, false, false, ready),
          Owed(0, 1, 0, false, false, false), Flight(0, map[], map[]))
  }

  ghost function UserStep(s: State, r: Request): State {
    match r
    case Create(id, sequence, admitted) => CreateStep(s, id, sequence, admitted)
    case Resume(id) => ResumeStep(s, id)
    case StopCall(id) => StopCallStep(s, id)
    case Approve(id, answered) => ApproveStep(s, id, answered)
    case CompactCall(admitted) => CompactCallStep(s, admitted)
    case ClearCall(admitted) => ClearCallStep(s, admitted)
    case SetPaused(paused) => SetPausedStep(s, paused)
  }

  ghost function CodexStep(s: State, m: Message): State {
    match m
    case ApprovalRequest(id) => ApprovalRequestStep(s, id)
    case TurnStarted => TurnStartedStep(s)
    case TurnCompleted(id, outcome) => TurnCompletedStep(s, id, outcome)
    case ContextError(id) => ContextErrorStep(s, id)
    case Compacted(notice) => CompactedStep(s, notice)
    case Connected => ConnectedStep(s)
    case ConnectLost => ConnectLostStep(s)
    case Exit => ExitStep(s)
  }

  function AnswerStep(s: State, r: Reply): State {
    match r
    case StopReply(id, ok) => StopReplyStep(s, id, ok)
    case RecoveryReply(id, ok, infra) => RecoveryReplyStep(s, id, ok, infra)
    case CompactReply(ok) => CompactReplyStep(s, ok)
    case ClearReply => ClearReplyStep(s)
    case ThreadOpened => ThreadOpenedStep(s)
    case TurnReplied => TurnRepliedStep(s)
    case StartFailed(infra) => StartFailedStep(s, infra)
  }

  ghost function ServerStep(s: State, i: Internal): State {
    match i
    case RunScheduled => RunScheduledStep(s)
    case ReadyEvent => ReadyEventStep(s)
    case InitBegin(authenticated) => InitBeginStep(s, authenticated)
    case InitOpened => InitOpenedStep(s)
    case RetryFires(authenticated) => RetryFiresStep(s, authenticated)
    case StartSettled => StartSettledStep(s)
    case CompactTimeout => CompactTimeoutStep(s)
    case Restart(ready) => RestartStep(s, ready)
  }

  ghost function Step(s: State, e: Event): State {
    match e
    case User(request) => UserStep(s, request)
    case Codex(message) => CodexStep(s, message)
    case Answer(reply) => AnswerStep(s, reply)
    case Server(internal) => ServerStep(s, internal)
  }

  /** The state after a run. */
  ghost function Run(s: State, es: seq<Event>): State
    decreases |es|
  {
    if es == [] then s else Run(Step(s, es[0]), es[1..])
  }

  // ---- what is assumed of Codex

  /** A start that has not come to its end. */
  predicate Starts(s: State) {
    s.start.Some? && !s.start.value.lost && !s.start.value.stage.Settling?
  }

  predicate IsStarting(s: State, id: MissionId) {
    Starts(s) && s.start.value.id == id
  }

  /** The steps that come too early or too late for a start: its turn is reported to be over, out of context or
      stopped before what follows the reply to turn/start has run; or a start that Codex exited under gets its reply,
      or lives to see Codex connected again. A notification that is replayed, in the stage Settling, is not among
      them. */
  predicate Disorders(s: State, e: Event) {
    match e
    case Answer(StopReply(id, ok)) => ok && IsStarting(s, id) && Calls(s.flight.stops, id) > 0
    case Codex(ContextError(id)) => IsStarting(s, id)
    case Codex(TurnCompleted(id, _)) => IsStarting(s, id) && id in s.missions && s.missions[id].hasTurn
    case Answer(TurnReplied) => s.start.Some? && s.start.value.lost && s.start.value.stage.Launching?
    case Codex(Connected) => s.start.Some? && s.start.value.lost
    case _ => false
  }

  /** The steps in which Codex makes two turns active: it asks for approval for a turn that is not in the slot, or
      reports a full context for a turn that may still be recovered while another turn works. */
  predicate Misspeaks(s: State, e: Event) {
    match e
    case Codex(ApprovalRequest(id)) => id in s.missions && s.active != Some(id)
    case Codex(ContextError(id)) => id in s.missions && Recoverable(s.missions[id]) && AnotherWorks(s, id)
    case _ => false
  }

  predicate AnotherWorks(s: State, id: MissionId) {
    && s.active.Some? && s.active != Some(id)
    && ((s.active.value in s.missions && Active(s.missions[s.active.value].status)) || Starts(s))
  }

  predicate Fair(s: State, e: Event) {
    !Disorders(s, e) && !Misspeaks(s, e)
  }

  /** No request to compact the thread fails. */
  predicate CompactionsSucceed(e: Event) {
    match e
    case Answer(RecoveryReply(_, ok, _)) => ok
    case Answer(CompactReply(ok)) => ok
    case _ => true
  }

  /** Codex, when connected, has an authenticated account with a model. */
  predicate Authenticated(e: Event) {
    match e
    case Server(InitBegin(authenticated)) => authenticated
    case Server(RetryFires(authenticated)) => authenticated
    case _ => true
  }

  ghost predicate OrderedRun(s: State, es: seq<Event>)
    decreases |es|
  {
    es != [] ==> !Disorders(s, es[0]) && OrderedRun(Step(s, es[0]), es[1..])
  }

  /** No step of a run disorders a start, and in none does Codex misspeak. */
  ghost predicate FairRun(s: State, es: seq<Event>)
    decreases |es|
  {
    es != [] ==> Fair(s, es[0]) && FairRun(Step(s, es[0]), es[1..])
  }

  lemma {:induction false} RunInTwoParts(s: State, es: seq<Event>, fs: seq<Event>)
    ensures Run(s, es + fs) == Run(Run(s, es), fs)
    ensures FairRun(s, es + fs) <==> FairRun(s, es) && FairRun(Run(s, es), fs)
    ensures OrderedRun(s, es + fs) <==> OrderedRun(s, es) && OrderedRun(Run(s, es), fs)
    decreases |es|
  {
    if es == [] {
      assert es + fs == fs;
    } else {
      assert (es + fs)[0] == es[0] && (es + fs)[1..] == es[1..] + fs;
      RunInTwoParts(Step(s, es[0]), es[1..], fs);
    }
  }
}
