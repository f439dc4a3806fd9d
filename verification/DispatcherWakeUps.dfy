/** Exactly which steps forget the queue: after them a turn waits, every gate is open, and nothing will dispatch it. */
module DispatcherWakeUps {
  import opened Records
  import opened Dispatcher
  import opened DispatcherSafety

  predicate Owes(s: State) {
    s.owed.calls > 0 || s.owed.initsScheduled > 0 || s.owed.initsOpening > 0 || s.owed.retry || s.owed.readyEvent
  }

  /** A queued turn with every gate of processNext open has a call of processNext coming. */
  ghost predicate Awake(s: State) {
    GatesOpen(s) && HasQueued(s.missions) ==> Owes(s)
  }

  /** Every gate of processNext but the compaction is open, and no call of it is coming. */
  predicate OnlyTheCompactionHolds(s: State) {
    && s.start.None? && s.active.None? && !s.gate.clearing && !s.gate.paused && s.gate.ready && !Owes(s)
  }

  /** As OnlyTheCompactionHolds for the dispatch that is ending, which empties the slot. */
  predicate OnlyTheDispatchHolds(s: State) {
    && s.start.Some? && !s.gate.compacting && !s.gate.clearing && !s.gate.paused && s.gate.ready && !Owes(s)
  }

  ghost predicate QueuedBesides(t: Missions, id: MissionId) {
    exists j :: j in t && j != id && t[j].status.Queued?
  }

  /** What is owed apart from one call of initializeConversation. */
  predicate OwesMoreThan(s: State, scheduled: nat, retry: bool) {
    || s.owed.calls > 0 || s.owed.initsScheduled > scheduled || s.owed.initsOpening > 0
    || (s.owed.retry && !retry) || s.owed.readyEvent
  }

  /**
   The steps that forget the queue: a request to compact fails and opens the gate; initializeConversation finds no
   account or no model; a start that was interrupted fails for lack of a connection that is there again; or the slot
   was emptied, and the call scheduled for that came, while the dispatch was still ending.
   */
  ghost predicate Forgets(s: State, e: Event) {
    match e
    case Answer(RecoveryReply(id, ok, _)) =>
      && Calls(s.flight.recoveries, id) > 0 && id in s.missions && !ok
      && OnlyTheCompactionHolds(s) && QueuedBesides(s.missions, id)
    case Answer(CompactReply(ok)) =>
      s.flight.compactions > 0 && !ok && OnlyTheCompactionHolds(s) && HasQueued(s.missions)
    case Server(InitBegin(authenticated)) =>
      && s.owed.initsScheduled == 1 && !authenticated && !OwesMoreThan(s, 1, false)
      && GatesOpen(s) && HasQueued(s.missions)
    case Server(RetryFires(authenticated)) =>
      s.owed.retry && !authenticated && !OwesMoreThan(s, 0, true) && GatesOpen(s) && HasQueued(s.missions)
    case Answer(StartFailed(infra)) =>
      && OnlyTheDispatchHolds(s) && !s.start.value.stage.Settling? && s.start.value.id in s.missions
      && s.missions[s.start.value.id].status.Interrupted? && infra && HasQueued(s.missions)
    case Server(StartSettled) =>
      OnlyTheDispatchHolds(s) && s.start.value.stage.Settling? && s.active.None? && HasQueued(s.missions)
    case _ => false
  }

  lemma WakeByUser(s: State, r: Request)
    requires Awake(s)
    ensures Awake(UserStep(s, r))
  {
  }

  lemma WakeByCodex(s: State, m: Message)
    requires Awake(s)
    ensures Awake(CodexStep(s, m))
  {
  }

  lemma WakeByAnswer(s: State, r: Reply)
    requires Awake(s)
    ensures Awake(AnswerStep(s, r)) <==> !Forgets(s, Answer(r))
  {
    match r
    case RecoveryReply(id, ok, infra) => WakeByRecoveryReply(s, id, ok, infra);
    case StartFailed(infra) => WakeByStartFailed(s, infra);
    case _ =>
  }

  lemma WakeByRecoveryReply(s: State, id: MissionId, ok: bool, infra: bool)
    requires Awake(s)
    ensures Awake(RecoveryReplyStep(s, id, ok, infra)) <==> !Forgets(s, Answer(RecoveryReply(id, ok, infra)))
  {
    var s' := RecoveryReplyStep(s, id, ok, infra);
    if Calls(s.flight.recoveries, id) > 0 && id in s.missions && !ok {
      assert HasQueued(s'.missions) <==> QueuedBesides(s.missions, id) by {
        if QueuedBesides(s.missions, id) {
          var j :| j in s.missions && j != id && s.missions[j].status.Queued?;
          assert s'.missions[j].status.Queued?;
        }
      }
    }
  }

  lemma WakeByStartFailed(s: State, infra: bool)
    requires Awake(s)
    ensures Awake(StartFailedStep(s, infra)) <==> !Forgets(s, Answer(StartFailed(infra)))
  {
  }

  lemma WakeByServer(s: State, i: Internal)
    requires Awake(s)
    ensures Awake(ServerStep(s, i)) <==> !Forgets(s, Server(i))
  {
  }

  /** A step, fair or not, loses a wake-up if and only if it is one of those. */
  lemma WakeStep(s: State, e: Event)
    requires Awake(s)
    ensures Awake(Step(s, e)) <==> !Forgets(s, e)
  {
    match e
    case User(request) => WakeByUser(s, request);
    case Codex(message) => WakeByCodex(s, message);
    case Answer(reply) => WakeByAnswer(s, reply);
    case Server(internal) => WakeByServer(s, internal);
  }

  ghost predicate NeverForgets(s: State, es: seq<Event>)
    decreases |es|
  {
    es == [] || (!Forgets(s, es[0]) && NeverForgets(Step(s, es[0]), es[1..]))
  }

  /** Whether every state a run comes through is awake. */
  ghost predicate AlwaysAwake(s: State, es: seq<Event>)
    decreases |es|
  {
    Awake(s) && (es != [] ==> AlwaysAwake(Step(s, es[0]), es[1..]))
  }

  /** Whatever Codex does: a queued turn is never forgotten in a run if and only if the run has no such step. */
  lemma {:induction false} AwakeExactlyInRuns(s: State, es: seq<Event>)
    requires Awake(s)
    ensures AlwaysAwake(s, es) <==> NeverForgets(s, es)
    ensures NeverForgets(s, es) ==> Awake(Run(s, es))
    decreases |es|
  {
    hide Forgets, Step, Awake;
    if es != [] {
      WakeStep(s, es[0]);
      if Forgets(s, es[0]) {
        assert !AlwaysAwake(Step(s, es[0]), es[1..]);
      } else {
        AwakeExactlyInRuns(Step(s, es[0]), es[1..]);
      }
    }
  }

  // ---- what is enough for it

  /** Nothing is replayed at the end of a start: its turn is not over before its dispatch has ended. */
  predicate SettlesFirst(s: State, e: Event) {
    s.start.Some? && !s.start.value.lost && s.start.value.stage.Settling? ==>
      match e
      case Answer(StopReply(id, ok)) => ok ==> id != s.start.value.id
      case Codex(ContextError(id)) => id != s.start.value.id
      case Codex(TurnCompleted(id, _)) => id != s.start.value.id
      case _ => true
  }

  ghost predicate SettlingRun(s: State, es: seq<Event>)
    decreases |es|
  {
    es != [] ==> SettlesFirst(s, es[0]) && SettlingRun(Step(s, es[0]), es[1..])
  }

  /** A dispatch that is not lost has its turn in the slot to its end. */
  predicate Dispatching(s: State) {
    s.start.Some? && !s.start.value.lost ==> s.active == Some(s.start.value.id)
  }

  lemma DispatchingKept(s: State, e: Event)
    requires Safe(s) && Calm(s) && Dispatching(s) && Fair(s, e) && SettlesFirst(s, e)
    ensures Dispatching(Step(s, e))
  {
    match e
    case User(request) => DispatchingByUser(s, request);
    case Codex(message) => DispatchingByCodex(s, message);
    case Answer(reply) => DispatchingByAnswer(s, reply);
    case Server(internal) => DispatchingByServer(s, internal);
  }

  lemma DispatchingByUser(s: State, r: Request)
    requires Dispatching(s)
    ensures Dispatching(UserStep(s, r))
  {
  }

  lemma DispatchingByCodex(s: State, m: Message)
    requires Safe(s) && Calm(s) && Dispatching(s) && Fair(s, Codex(m)) && SettlesFirst(s, Codex(m))
    ensures Dispatching(CodexStep(s, m))
  {
  }

  lemma DispatchingByAnswer(s: State, r: Reply)
    requires Safe(s) && Dispatching(s) && !Disorders(s, Answer(r)) && SettlesFirst(s, Answer(r))
    ensures Dispatching(AnswerStep(s, r))
  {
  }

  lemma DispatchingByServer(s: State, i: Internal)
    requires Dispatching(s)
    ensures Dispatching(ServerStep(s, i))
  {
  }

  lemma CalmForgetsNothing(s: State, e: Event)
    requires Safe(s) && Calm(s) && Dispatching(s) && CompactionsSucceed(e) && Authenticated(e)
    ensures !Forgets(s, e)
  {
  }

  lemma {:induction false} CalmNeverForgets(s: State, es: seq<Event>)
    requires Safe(s) && Calm(s) && Dispatching(s) && FairRun(s, es) && SettlingRun(s, es)
    requires forall e :: e in es ==> CompactionsSucceed(e) && Authenticated(e)
    ensures NeverForgets(s, es)
    decreases |es|
  {
    if es != [] {
      CalmForgetsNothing(s, es[0]);
      CalmStep(s, es[0]);
      DispatchingKept(s, es[0]);
      hide Step, Forgets, Safe, Calm, Dispatching, Fair, SettlesFirst;
      CalmNeverForgets(Step(s, es[0]), es[1..]);
    }
  }

  /** In a fair run in which no compaction request fails, Codex is authenticated when it connects and nothing is
      replayed at the end of a start, a queued turn is never forgotten. */
  lemma NoLostWakeUp(t: Missions, ready: bool, es: seq<Event>)
    requires FairRun(Boot(t, ready), es) && SettlingRun(Boot(t, ready), es)
    requires forall e :: e in es ==> CompactionsSucceed(e) && Authenticated(e)
    ensures Awake(Run(Boot(t, ready), es))
  {
    CalmNeverForgets(Boot(t, ready), es);
    AwakeExactlyInRuns(Boot(t, ready), es);
  }

  // ---- two ways to forget

  /** A second turn waits while the first runs out of context, and the request to compact fails. */
  const FAILURE_WITH_A_QUEUE := [
    User(Create(2, 2, true)), Codex(ContextError(1)), Answer(RecoveryReply(1, false, false))
  ]

  lemma FailedCompactionForgetsTheQueue()
    ensures FairRun(TURN_RUNNING, FAILURE_WITH_A_QUEUE)
    ensures !Awake(Run(TURN_RUNNING, FAILURE_WITH_A_QUEUE))
  {
    var s1 := Step(TURN_RUNNING, FAILURE_WITH_A_QUEUE[0]);
    var s2 := Step(s1, FAILURE_WITH_A_QUEUE[1]);
    var s3 := Step(s2, FAILURE_WITH_A_QUEUE[2]);
    assert s3.missions[2].status.Queued?;
    assert FAILURE_WITH_A_QUEUE[3..] == [];
  }

  /** A second turn waits while the first is being started, and nothing else is owed. */
  const TURN_LAUNCHING := State(
    map[1 := Row(Starting, 1, true, 0).(hasTurn := false), 2 := Row(Queued, 2, false, 0)], Some(1),
    Some(Start(1, Launching, false)), None,
    Gate(false, false, false, true), Owed(0, 0, 0, false, false, false), Flight(0, map[], map[]))

  const TO_LAUNCHING := [
    User(Create(1, 1, true)), Server(InitBegin(true)), Server(InitOpened), User(Create(2, 2, true)),
        Answer(ThreadOpened)
  ]

  lemma TurnLaunchingIsReached()
    ensures FairRun(Boot(map[], true), TO_LAUNCHING) && Run(Boot(map[], true), TO_LAUNCHING) == TURN_LAUNCHING
  {
    var s1 := Step(Boot(map[], true), TO_LAUNCHING[0]);
    var s2 := Step(s1, TO_LAUNCHING[1]);
    var s3 := Step(s2, TO_LAUNCHING[2]);
    var s4 := Step(s3, TO_LAUNCHING[3]);
    var s5 := Step(s4, TO_LAUNCHING[4]);
    assert s5.missions == TURN_LAUNCHING.missions;
    assert TO_LAUNCHING[5..] == [];
  }

  /** A turn/completed that came before the reply to turn/start is replayed while its dispatch is still ending: the
      call scheduled for the next turn finds `dispatching` set, and nothing follows it. */
  const EARLY_COMPLETION := [
    Answer(TurnReplied), Codex(TurnCompleted(1, TurnDone)), Server(RunScheduled), Server(StartSettled)
  ]

  lemma AnEarlyCompletionForgetsTheQueue()
    ensures FairRun(TURN_LAUNCHING, EARLY_COMPLETION)
    ensures !Awake(Run(TURN_LAUNCHING, EARLY_COMPLETION))
    ensures Run(TURN_LAUNCHING, EARLY_COMPLETION).missions[1].status.Completed?
  {
    var s1 := Step(TURN_LAUNCHING, EARLY_COMPLETION[0]);
    var s2 := Step(s1, EARLY_COMPLETION[1]);
    var s3 := Step(s2, EARLY_COMPLETION[2]);
    var s4 := Step(s3, EARLY_COMPLETION[3]);
    assert EARLY_COMPLETION[4..] == [];
    assert s4.missions[2].status.Queued?;
  }
}
