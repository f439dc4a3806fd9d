/** The dispatcher by its columns and fields instead of its handlers: which events write each of them, and what. */
module DispatcherColumns {
  import opened Records
  import opened Dispatcher

  // ---- the conditions the handlers share

  /** A recovery is left: a thread to continue, and no attempt yet. */
  predicate HasRecovery(r: Mission) {
    r.hasThread && r.attempts == 0
  }

  predicate Works(r: Mission) {
    r.status in {Starting, Running, AwaitingApproval}
  }

  /** Its call is waiting for Codex. */
  predicate Waits(calls: Waiting, m: MissionId) {
    m in calls && calls[m] > 0
  }

  /** The start that may still fail, and the turn that is started. */
  predicate MayFail(s: State, m: MissionId) {
    s.start != None && s.start.value.stage != Settling && s.start.value.id == m
  }

  predicate IsAt(s: State, stage: Stage, m: MissionId) {
    s.start != None && s.start.value.stage == stage && s.start.value.id == m
  }

  predicate NoticeCounts(s: State, notice: Notice) {
    notice != TurnAlias || (s.gate.compacting && s.active == None)
  }

  /** No turn waits or works. */
  ghost predicate Idle(s: State) {
    s.active == None && forall m :: m in s.missions ==> s.missions[m].status != Queued && !Works(s.missions[m])
  }

  /** Among the hundred newest rows, failed before it had a turn, with an error about the connection. */
  predicate NeverStarted(s: State, m: MissionId)
    requires m in s.missions
  {
    var r := s.missions[m];
    && r.status == Failed && !r.hasTurn && r.infraError
    && |set j | j in s.missions && s.missions[j].sequence > r.sequence| < 100
  }

  /** The turn an exit of Codex concerns: the one in the slot, and without one the first that works. */
  ghost predicate Concerns(s: State, m: MissionId)
    requires m in s.missions
  {
    if s.active != None then s.active == Some(m)
    else Works(s.missions[m]) && forall j :: j in s.missions && Works(s.missions[j]) ==>
      s.missions[m].sequence < s.missions[j].sequence || j == m
  }

  // ---- the columns of a row

  /** The row of m after an event, before any turn is dispatched. */
  ghost function RowAfter(s: State, e: Event, m: MissionId): Mission
    requires m in s.missions
  {
    var r := s.missions[m];
    match e
    case User(Resume(i)) =>
      if i == m && r.status == Interrupted
          && r.hasThread then r.(status := Queued, attempts := 0, infraError := false) else r
    case User(StopCall(i)) => if i == m && r.status == Queued then r.(status := Cancelled) else r
    case User(Approve(i, answered)) =>
      if i == m && answered && r.status == AwaitingApproval then r.(status := Running) else r
    case Codex(ApprovalRequest(i)) => if i == m then r.(status := AwaitingApproval) else r
    case Codex(TurnStarted) => if s.active == Some(m) then r.(hasTurn := true) else r
    case Codex(TurnCompleted(i, outcome)) =>
      if i != m || !r.hasTurn then r
      else (match outcome
            case TurnDone => r.(status := Completed, infraError := false)
            case TurnStopped => r.(status := Interrupted)
            case TurnFailed(infra) => r.(status := Failed, infraError := infra))
    case Codex(ContextError(i)) =>
      if i != m then r
      else if HasRecovery(r) then r.(status := Interrupted, attempts := 1)
      else r.(status := Failed, infraError := false)
    case Codex(Compacted(notice)) =>
      if NoticeCounts(s, notice) && s.parked == Some(m) then r.(status := Queued, infraError := false) else r
    case Codex(Exit) =>
      if !Concerns(s, m) || !Works(r) then r
      else if HasRecovery(r) then r.(status := Queued, attempts := 1)
      else r.(status := Interrupted)
    case Answer(StopReply(i, ok)) => if i == m && ok && Waits(s.flight.stops, m) then r.(status := Interrupted) else r
    case Answer(RecoveryReply(i, ok, infra)) =>
      if i == m && !ok && Waits(s.flight.recoveries, m) then r.(status := Failed, infraError := infra) else r
    case Answer(ThreadOpened) => if IsAt(s, Opening, m) then r.(hasThread := true) else r
    case Answer(TurnReplied) =>
      if IsAt(s, Launching, m) then r.(status := Running, hasThread := true, hasTurn := true) else r
    case Answer(StartFailed(infra)) =>
      if !MayFail(s, m) || r.status == Interrupted then r
      else if infra then r.(status := Queued, attempts := r.attempts + 1, infraError := false)
      else r.(status := Failed, infraError := false)
    case Server(CompactTimeout) =>
      if s.owed.timeout && s.gate.compacting
          && s.parked == Some(m) then r.(status := Failed, infraError := false) else r
    case Server(Restart(_)) =>
      if Works(r) then (if HasRecovery(r) then r.(status := Queued, attempts := 1) else r.(status := Interrupted))
      else if NeverStarted(s, m) then r.(status := Queued, attempts := r.attempts + 1, infraError := false)
      else r
    case _ => r
  }

  /** m is dispatched in this step. */
  predicate IsTaken(s: State, t: State, m: MissionId) {
    s.start == None && t.start != None && t.start.value.id == m
  }

  ghost predicate RowIsAsTold(s: State, e: Event, t: State, m: MissionId) {
    if m in s.missions then
      var r := RowAfter(s, e, m);
      m in t.missions && t.missions[m] == (if IsTaken(s, t, m) then r.(status := Starting) else r)
    else
      m in t.missions ==>
        && e.User? && e.request.Create? && e.request.id == m && e.request.admitted && !s.gate.clearing
        && t.missions[m] == Mission(if IsTaken(s, t, m) then Starting else Queued, e.request.sequence, None, None,
                                    false, false, 0, false)
  }

  lemma RowByUser(s: State, q: Request, m: MissionId)
    ensures RowIsAsTold(s, User(q), UserStep(s, q), m)
  {
  }

  lemma RowByExit(s: State, m: MissionId)
    requires m in s.missions && UniqueSequences(s.missions)
    ensures RowIsAsTold(s, Codex(Exit), ExitStep(s), m)
  {
    assert forall j :: j in s.missions ==> (Works(s.missions[j]) <==> Active(s.missions[j].status));
    if s.active.None? {
      assert Concerns(s, m) <==> FirstActive(s.missions) == Some(m);
    }
  }

  lemma RowByCodex(s: State, c: Message, m: MissionId)
    requires UniqueSequences(s.missions)
    ensures RowIsAsTold(s, Codex(c), CodexStep(s, c), m)
  {
    if c.Exit? && m in s.missions { RowByExit(s, m); }
  }

  lemma RowByAnswer(s: State, a: Reply, m: MissionId)
    ensures RowIsAsTold(s, Answer(a), AnswerStep(s, a), m)
  {
  }

  lemma RowByRestart(s: State, ready: bool, m: MissionId)
    ensures RowIsAsTold(s, Server(Restart(ready)), RestartStep(s, ready), m)
  {
    if m in s.missions {
      assert Newer(s.missions, m) == (set j | j in s.missions && s.missions[j].sequence > s.missions[m].sequence);
    }
  }

  lemma RowByServer(s: State, i: Internal, m: MissionId)
    ensures RowIsAsTold(s, Server(i), ServerStep(s, i), m)
  {
    if i.Restart? { RowByRestart(s, i.ready, m); }
  }

  /** The status, the attempts, the thread, the turn and the error of every row after every event. */
  lemma RowsInWords(s: State, e: Event, m: MissionId)
    requires UniqueSequences(s.missions)
    ensures RowIsAsTold(s, e, Step(s, e), m)
  {
    match e
    case User(request) => RowByUser(s, request, m);
    case Codex(message) => RowByCodex(s, message, m);
    case Answer(reply) => RowByAnswer(s, reply, m);
    case Server(internal) => RowByServer(s, internal, m);
  }

  /** An admitted turn that is not there yet is added. */
  lemma CreatedInWords(s: State, m: MissionId, sequence: nat, admitted: bool)
    ensures m in Step(s, User(Create(m, sequence, admitted))).missions
      <==> m in s.missions || (admitted && !s.gate.clearing)
  {
  }

  // ---- the fields

  /** The turn parks, or its second report fails it. */
  predicate Parks(s: State, e: Event) {
    e.Codex? && e.message.ContextError? && e.message.id in s.missions && HasRecovery(s.missions[e.message.id])
  }

  predicate RecoveryFails(s: State, e: Event) {
    && e.Answer? && e.reply.RecoveryReply? && !e.reply.ok
    && e.reply.id in s.missions && Waits(s.flight.recoveries, e.reply.id)
  }

  predicate RecoveryIsAsked(s: State, e: Event) {
    && e.Answer? && e.reply.RecoveryReply? && e.reply.ok
    && e.reply.id in s.missions && Waits(s.flight.recoveries, e.reply.id)
  }

  predicate CompactionAnswered(s: State, e: Event, ok: bool) {
    e == Answer(CompactReply(ok)) && s.flight.compactions > 0
  }

  predicate CompactionReported(s: State, e: Event) {
    e.Codex? && e.message.Compacted? && NoticeCounts(s, e.message.notice)
  }

  predicate CompactionGivenUp(s: State, e: Event) {
    e == Server(CompactTimeout) && s.owed.timeout && s.gate.compacting
  }

  ghost predicate CompactionBegins(s: State, e: Event) {
    e == User(CompactCall(true)) && Idle(s)
  }

  ghost predicate ClearingBegins(s: State, e: Event) {
    e == User(ClearCall(true)) && Idle(s) && !s.gate.compacting && !s.gate.clearing && s.gate.ready
  }

  predicate StopDone(s: State, e: Event) {
    e.Answer? && e.reply.StopReply? && e.reply.ok && e.reply.id in s.missions && Waits(s.flight.stops, e.reply.id)
  }

  predicate TurnOver(s: State, e: Event) {
    e.Codex? && e.message.TurnCompleted? && e.message.id in s.missions && s.missions[e.message.id].hasTurn
  }

  predicate GivenUp(s: State, e: Event) {
    e.Codex? && e.message.ContextError? && e.message.id in s.missions && !HasRecovery(s.missions[e.message.id])
  }

  predicate StartGivenUp(s: State, e: Event, infra: bool) {
    && e == Answer(StartFailed(infra)) && s.start != None && s.start.value.stage != Settling
    && s.start.value.id in s.missions
  }

  predicate Restarts(e: Event) {
    e == Server(Restart(true)) || e == Server(Restart(false))
  }

  function One(b: bool): nat { if b then 1 else 0 }

  /** The gate, the parked turn, and what is in flight. */
  ghost predicate GateIsAsTold(s: State, e: Event, t: State) {
    && t.gate.compacting == (if Parks(s, e) || CompactionBegins(s, e) then true
                             else if RecoveryFails(s, e) || CompactionAnswered(s, e, false) || CompactionReported(s, e)
                                     || CompactionGivenUp(s, e) || Restarts(e) then false
                             else s.gate.compacting)
    && t.gate.clearing == (if ClearingBegins(s, e) then true
                           else if e == Answer(ClearReply) || Restarts(e) then false else s.gate.clearing)
    && t.gate.paused == (if e == User(SetPaused(true)) then true
                         else if e == User(SetPaused(false)) || Restarts(e) then false else s.gate.paused)
    && t.gate.ready == (if e == Codex(Connected) || e == Server(Restart(true)) then true
                        else if e == Codex(Exit) || e == Server(Restart(false)) then false
                        else if e == Codex(ConnectLost) && s.owed.readyEvent then false else s.gate.ready)
    && t.parked == (if Parks(s, e) then Some(e.message.id)
                    else if RecoveryFails(s, e) || CompactionReported(s, e) || CompactionGivenUp(s,
                        e) || Restarts(e) then None
                    else s.parked)
  }

  /** What is scheduled: calls of processNext and of initializeConversation. */
  ghost predicate OwedIsAsTold(s: State, e: Event, t: State) {
    && t.owed.calls
       == (if Restarts(e) then 0
           else if e == Server(RunScheduled) && s.owed.calls > 0 then s.owed.calls - 1
           else s.owed.calls + One(StopDone(s, e) || TurnOver(s, e) || GivenUp(s, e) || StartGivenUp(s, e, false)
                                   || e == User(SetPaused(false)) || (e == Answer(ClearReply) && s.gate.clearing)))
    && t.owed.initsScheduled
       == (if Restarts(e) then 1
           else if e.Server? && e.internal.InitBegin? && s.owed.initsScheduled > 0 then s.owed.initsScheduled - 1
           else s.owed.initsScheduled + One(e == Server(ReadyEvent) && s.owed.readyEvent))
    && t.owed.initsOpening
       == (if Restarts(e) then 0
           else if e == Server(InitOpened) && s.owed.initsOpening > 0 then s.owed.initsOpening - 1
           else s.owed.initsOpening + One(s.gate.ready && ((e == Server(InitBegin(true)) && s.owed.initsScheduled > 0)
                                                            || (e == Server(RetryFires(true)) && s.owed.retry))))
  }

  /** What is armed: the retry timer, the ready event, the compaction timeout. */
  ghost predicate ArmedIsAsTold(s: State, e: Event, t: State) {
    && t.owed.retry
       == (if Restarts(e) || (e.Server? && e.internal.RetryFires?) then false
           else s.owed.retry || (StartGivenUp(s, e, true) && s.missions[s.start.value.id].status != Interrupted))
    && t.owed.readyEvent
       == (if Restarts(e) || e == Codex(Exit) || e == Codex(ConnectLost) || e == Server(ReadyEvent) then false
           else s.owed.readyEvent || (e == Codex(Connected) && !s.gate.ready))
    && t.owed.timeout
       == (if Restarts(e) || RecoveryFails(s, e) || CompactionAnswered(s, e, false) || CompactionReported(s, e)
              || e == Server(CompactTimeout) then false
           else s.owed.timeout || (s.gate.compacting && (RecoveryIsAsked(s, e) || CompactionAnswered(s, e, true))))
  }

  /** How many calls wait for Codex. */
  ghost predicate CallsAreAsTold(s: State, e: Event, t: State, m: MissionId) {
    && t.flight.compactions
       == (if Restarts(e) then 0
           else if CompactionAnswered(s, e, true) || CompactionAnswered(s, e, false) then s.flight.compactions - 1
           else s.flight.compactions + One(CompactionBegins(s, e)))
    && Calls(t.flight.recoveries, m)
       == (if Restarts(e) then 0
           else if (RecoveryFails(s, e) || RecoveryIsAsked(s, e))
               && e.reply.id == m then Calls(s.flight.recoveries, m) - 1
           else Calls(s.flight.recoveries, m) + One(Parks(s, e) && e.message.id == m))
    && Calls(t.flight.stops, m)
       == (if Restarts(e) then 0
           else if e.Answer? && e.reply.StopReply? && e.reply.id == m && m in s.missions && Waits(s.flight.stops, m)
                then Calls(s.flight.stops, m) - 1
           else Calls(s.flight.stops, m)
                + One(e == User(StopCall(m)) && m in s.missions && s.missions[m].hasThread && s.missions[m].hasTurn
                      && Works(s.missions[m])))
  }

  lemma GateByUser(s: State, q: Request)
    ensures GateIsAsTold(s, User(q), UserStep(s, q))
  {
    assert Idle(s) <==> s.active.None? && NoPending(s.missions);
  }

  lemma GateByCodex(s: State, c: Message)
    ensures GateIsAsTold(s, Codex(c), CodexStep(s, c))
  {
  }

  lemma GateByAnswer(s: State, a: Reply)
    ensures GateIsAsTold(s, Answer(a), AnswerStep(s, a))
  {
  }

  lemma GateByServer(s: State, i: Internal)
    ensures GateIsAsTold(s, Server(i), ServerStep(s, i))
  {
  }

  lemma OwedByUser(s: State, q: Request)
    ensures OwedIsAsTold(s, User(q), UserStep(s, q))
  {
    assert Idle(s) <==> s.active.None? && NoPending(s.missions);
  }

  lemma OwedByCodex(s: State, c: Message)
    ensures OwedIsAsTold(s, Codex(c), CodexStep(s, c))
  {
  }

  lemma OwedByAnswer(s: State, a: Reply)
    ensures OwedIsAsTold(s, Answer(a), AnswerStep(s, a))
  {
  }

  lemma OwedByServer(s: State, i: Internal)
    ensures OwedIsAsTold(s, Server(i), ServerStep(s, i))
  {
  }

  lemma ArmedByUser(s: State, q: Request)
    ensures ArmedIsAsTold(s, User(q), UserStep(s, q))
  {
  }

  lemma ArmedByCodex(s: State, c: Message)
    ensures ArmedIsAsTold(s, Codex(c), CodexStep(s, c))
  {
  }

  lemma ArmedByAnswer(s: State, a: Reply)
    ensures ArmedIsAsTold(s, Answer(a), AnswerStep(s, a))
  {
  }

  lemma ArmedByServer(s: State, i: Internal)
    ensures ArmedIsAsTold(s, Server(i), ServerStep(s, i))
  {
  }

  lemma CallsByUser(s: State, q: Request, m: MissionId)
    ensures CallsAreAsTold(s, User(q), UserStep(s, q), m)
  {
    assert Idle(s) <==> s.active.None? && NoPending(s.missions);
  }

  lemma CallsByCodex(s: State, c: Message, m: MissionId)
    ensures CallsAreAsTold(s, Codex(c), CodexStep(s, c), m)
  {
  }

  lemma CallsByAnswer(s: State, a: Reply, m: MissionId)
    ensures CallsAreAsTold(s, Answer(a), AnswerStep(s, a), m)
  {
  }

  lemma CallsByServer(s: State, i: Internal, m: MissionId)
    ensures CallsAreAsTold(s, Server(i), ServerStep(s, i), m)
  {
  }

  /** The gates, the parked turn, what is scheduled or armed, and the calls in flight, after every event. */
  lemma FieldsInWords(s: State, e: Event, m: MissionId)
    ensures var t := Step(s, e); GateIsAsTold(s, e, t) && OwedIsAsTold(s, e, t)
    ensures var t := Step(s, e); ArmedIsAsTold(s, e, t) && CallsAreAsTold(s, e, t, m)
  {
    hide GateIsAsTold, OwedIsAsTold, ArmedIsAsTold, CallsAreAsTold;
    match e
    case User(request) =>
      GateByUser(s, request);
      OwedByUser(s, request);
      ArmedByUser(s, request);
      CallsByUser(s, request, m);
    case Codex(message) =>
      GateByCodex(s, message);
      OwedByCodex(s, message);
      ArmedByCodex(s, message);
      CallsByCodex(s, message, m);
    case Answer(reply) =>
      GateByAnswer(s, reply);
      OwedByAnswer(s, reply);
      ArmedByAnswer(s, reply);
      CallsByAnswer(s, reply, m);
    case Server(internal) =>
      GateByServer(s, internal);
      OwedByServer(s, internal);
      ArmedByServer(s, internal);
      CallsByServer(s, internal, m);
  }

  /** The slot and the dispatch under way. Whether a dispatch begins is told by the gates; here is what else becomes of
      them. */
  ghost predicate SlotIsAsTold(s: State, e: Event, t: State) {
    && (s.start == None && t.start != None ==> t.active == Some(t.start.value.id))
    && (s.start != None || t.start == None ==>
      t.active == (if Parks(s, e) || e == Codex(Exit) || Restarts(e)
                      || StartGivenUp(s, e, true) || StartGivenUp(s, e, false) then None
                   else if StopDone(s, e) && s.active == Some(e.reply.id) then None
                   else if (TurnOver(s, e) || GivenUp(s, e)) && s.active == Some(e.message.id) then None
                   else s.active))
    && (s.start != None ==>
      var start := s.start.value;
      t.start == (if Restarts(e) || StartGivenUp(s, e, true) || StartGivenUp(s, e, false) then None
                  else if e == Server(StartSettled) && start.stage == Settling then None
                  else if e == Codex(Exit) then Some(Start(start.id, start.stage, true))
                  else if start.id !in s.missions then s.start
                  else if e == Answer(ThreadOpened)
                      && start.stage == Opening then Some(Start(start.id, Launching, start.lost))
                  else if e == Answer(TurnReplied)
                      && start.stage == Launching then Some(Start(start.id, Settling, start.lost))
                  else s.start))
  }

  lemma SlotByUser(s: State, q: Request)
    ensures SlotIsAsTold(s, User(q), UserStep(s, q))
  {
  }

  lemma SlotByCodex(s: State, c: Message)
    ensures SlotIsAsTold(s, Codex(c), CodexStep(s, c))
  {
  }

  lemma SlotByAnswer(s: State, a: Reply)
    ensures SlotIsAsTold(s, Answer(a), AnswerStep(s, a))
  {
  }

  lemma SlotByServer(s: State, i: Internal)
    ensures SlotIsAsTold(s, Server(i), ServerStep(s, i))
  {
  }

  lemma SlotInWords(s: State, e: Event)
    ensures SlotIsAsTold(s, e, Step(s, e))
  {
    hide SlotIsAsTold;
    match e
    case User(request) => SlotByUser(s, request);
    case Codex(message) => SlotByCodex(s, message);
    case Answer(reply) => SlotByAnswer(s, reply);
    case Server(internal) => SlotByServer(s, internal);
  }
}
