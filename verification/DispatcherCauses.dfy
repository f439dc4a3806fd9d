/** Why the status of a turn changes: each status is reached only by the events that stand for it. */
module DispatcherCauses {
  import opened Records
  import opened Dispatcher
  import opened DispatcherRecovery

  /** The dispatch of m, the least in the queue, begins with this step. */
  ghost predicate Dispatched(s: State, s': State, m: MissionId) {
    && s.start.None? && s.active.None? && s'.active == Some(m) && s'.start == Some(Start(m, Opening, false))
    && m in s'.missions
    && forall j :: j in s'.missions && s'.missions[j].status.Queued? ==>
        s'.missions[m].sequence <= s'.missions[j].sequence
  }

  ghost predicate Fails(s: State, e: Event, m: MissionId)
    requires m in s.missions
  {
    match e
    case Codex(TurnCompleted(id, outcome)) => id == m && outcome.TurnFailed? && s.missions[m].hasTurn
    case Codex(ContextError(id)) => id == m && !Recoverable(s.missions[m])
    case Answer(StartFailed(infra)) => s.start.Some? && s.start.value.id == m && !infra
    case Answer(RecoveryReply(id, ok, _)) => id == m && !ok && Calls(s.flight.recoveries, m) > 0
    case Server(CompactTimeout) => s.parked == Some(m) && s.gate.compacting
    case _ => false
  }

  ghost predicate Interrupts(s: State, e: Event, m: MissionId)
    requires m in s.missions
  {
    match e
    case Codex(TurnCompleted(id, outcome)) => id == m && outcome.TurnStopped? && s.missions[m].hasTurn
    case Codex(ContextError(id)) => id == m && Recoverable(s.missions[m])
    case Codex(Exit) => ExitSubject(s) == Some(m) && Active(s.missions[m].status) && !Recoverable(s.missions[m])
    case Answer(StopReply(id, ok)) => id == m && ok && Calls(s.flight.stops, m) > 0
    case Server(Restart(_)) => Active(s.missions[m].status) && !Recoverable(s.missions[m])
    case _ => false
  }

  /** What a turn must have been through to have the status. */
  ghost predicate Because(s: State, e: Event, m: MissionId, status: Status, s': State)
    requires m in s.missions
  {
    match status
    case Queued => e == User(Resume(m)) || Recovers(s, e, m) || Defers(s, e, m)
    case Starting => Dispatched(s, s', m)
    case Running =>
      || (e == Answer(TurnReplied) && s.start.Some? && s.start.value.id == m)
      || (e == User(Approve(m, true)) && s.missions[m].status.AwaitingApproval?)
    case AwaitingApproval => e == Codex(ApprovalRequest(m))
    case Completed => e == Codex(TurnCompleted(m, TurnDone)) && s.missions[m].hasTurn
    case Failed => Fails(s, e, m)
    case Interrupted => Interrupts(s, e, m)
    case Cancelled => e == User(StopCall(m)) && s.missions[m].status.Queued?
  }

  ghost predicate Explained(s: State, e: Event, s': State, m: MissionId)
    requires m in s.missions
  {
    m in s'.missions && (s'.missions[m].status != s.missions[m].status ==> Because(s, e, m, s'.missions[m].status, s'))
  }

  lemma ExplainedByUser(s: State, r: Request, m: MissionId)
    requires m in s.missions
    ensures Explained(s, User(r), UserStep(s, r), m)
  {
  }

  lemma ExplainedByCodex(s: State, c: Message, m: MissionId)
    requires m in s.missions
    ensures Explained(s, Codex(c), CodexStep(s, c), m)
  {
  }

  lemma ExplainedByAnswer(s: State, r: Reply, m: MissionId)
    requires m in s.missions
    ensures Explained(s, Answer(r), AnswerStep(s, r), m)
  {
  }

  lemma ExplainedByServer(s: State, i: Internal, m: MissionId)
    requires m in s.missions
    ensures Explained(s, Server(i), ServerStep(s, i), m)
  {
  }

  /** No row disappears, and no status changes without its cause, in any step, fair or not. */
  lemma EveryChangeHasItsCause(s: State, e: Event, m: MissionId)
    requires m in s.missions
    ensures Explained(s, e, Step(s, e), m)
  {
    match e
    case User(request) => ExplainedByUser(s, request, m);
    case Codex(message) => ExplainedByCodex(s, message, m);
    case Answer(reply) => ExplainedByAnswer(s, reply, m);
    case Server(internal) => ExplainedByServer(s, internal, m);
  }

  // ---- over runs

  /** Some step of the run gives m the status, with its cause. */
  ghost predicate CausedIn(s: State, es: seq<Event>, m: MissionId, status: Status)
    decreases |es|
  {
    && es != []
    && ((m in s.missions && Because(s, es[0], m, status, Step(s, es[0])))
        || CausedIn(Step(s, es[0]), es[1..], m, status))
  }

  /** A status that a turn did not have at the beginning of a run was given to it in the run, with its cause. */
  lemma {:induction false} EveryStatusIsCaused(s: State, es: seq<Event>, m: MissionId)
    requires m in s.missions
    ensures m in Run(s, es).missions
    ensures Run(s, es).missions[m].status != s.missions[m].status ==> CausedIn(s, es, m, Run(s, es).missions[m].status)
    decreases |es|
  {
    if es != [] {
      EveryChangeHasItsCause(s, es[0], m);
      hide Step, Because;
      EveryStatusIsCaused(Step(s, es[0]), es[1..], m);
    }
  }

  /** The statuses that one event alone stands for. */
  ghost predicate HasItsEvent(es: seq<Event>, m: MissionId, status: Status) {
    match status
    case Completed => Codex(TurnCompleted(m, TurnDone)) in es
    case Cancelled => User(StopCall(m)) in es
    case AwaitingApproval => Codex(ApprovalRequest(m)) in es
    case Running => Answer(TurnReplied) in es || User(Approve(m, true)) in es
    case _ => true
  }

  lemma {:induction false} CausedByItsEvent(s: State, es: seq<Event>, m: MissionId, status: Status)
    requires CausedIn(s, es, m, status)
    ensures HasItsEvent(es, m, status)
    decreases |es|
  {
    if !(m in s.missions && Because(s, es[0], m, status, Step(s, es[0]))) {
      assert forall e :: e in es[1..] ==> e in es;
      hide Step, Because;
      CausedByItsEvent(Step(s, es[0]), es[1..], m, status);
    }
  }

  /** Over any run: a turn is found completed, cancelled, waiting for approval or running only if Codex or the user
      said so about this very turn, or a start was replied to. */
  lemma FoundOnlyAfterItsEvent(s: State, es: seq<Event>, m: MissionId)
    requires m in s.missions
    ensures m in Run(s, es).missions
    ensures Run(s, es).missions[m].status != s.missions[m].status ==> HasItsEvent(es, m, Run(s, es).missions[m].status)
  {
    EveryStatusIsCaused(s, es, m);
    if Run(s, es).missions[m].status != s.missions[m].status {
      CausedByItsEvent(s, es, m, Run(s, es).missions[m].status);
    }
  }

  // ---- what the queue relies on

  /** The dispatcher never moves a row in the queue and never changes where it came from. */
  ghost predicate SameOrigin(m: Mission, m': Mission) {
    m'.sequence == m.sequence && m'.ingress == m.ingress && m'.timer == m.timer
  }

  ghost predicate OriginsStay(s: State, e: Event, s': State, m: MissionId) {
    && (m in s.missions ==> m in s'.missions && SameOrigin(s.missions[m], s'.missions[m]))
    && (m !in s.missions && m in s'.missions ==>
      exists sequence: nat :: e == User(Create(m, sequence, true)) && s'.missions[m].sequence == sequence)
  }

  lemma OriginsStayByUser(s: State, r: Request, m: MissionId)
    ensures OriginsStay(s, User(r), UserStep(s, r), m)
  {
    match r
    case Create(id, sequence, admitted) =>
      if m !in s.missions && m in UserStep(s, r).missions {
        assert UserStep(s, r).missions[m].sequence == sequence && r == Create(m, sequence, true);
      }
    case _ =>
  }

  ghost predicate RowStays(s: State, s': State, m: MissionId) {
    && (m in s.missions <==> m in s'.missions)
    && (m in s.missions ==> SameOrigin(s.missions[m], s'.missions[m]))
  }

  lemma OriginsStayByCodex(s: State, c: Message, m: MissionId)
    ensures RowStays(s, CodexStep(s, c), m)
  {
  }

  lemma OriginsStayByAnswer(s: State, r: Reply, m: MissionId)
    ensures RowStays(s, AnswerStep(s, r), m)
  {
  }

  lemma OriginsStayByServer(s: State, i: Internal, m: MissionId)
    ensures RowStays(s, ServerStep(s, i), m)
  {
  }

  /** Rows are added by create alone, and a row keeps its sequence, its batch and its timer: to the queue and to the
      scheduler all the dispatcher does is to change statuses. */
  lemma OnlyStatusesChange(s: State, e: Event, m: MissionId)
    ensures OriginsStay(s, e, Step(s, e), m)
  {
    match e
    case User(request) => OriginsStayByUser(s, request, m);
    case Codex(message) => OriginsStayByCodex(s, message, m);
    case Answer(reply) => OriginsStayByAnswer(s, reply, m);
    case Server(internal) => OriginsStayByServer(s, internal, m);
  }
}
