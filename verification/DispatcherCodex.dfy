/** When Codex does not misspeak: in ordered runs it is enough that it speaks only for turns that are neither over nor
    told to stop. It is not enough that it is silent about completed ones; and without the order two turns become
    active although Codex speaks only for the turns it works on. */
module DispatcherCodex {
  import opened Records
  import opened Dispatcher
  import opened DispatcherSafety

  type Live = set<MissionId>

  /** The turns Codex works on: from its reply to turn/start on, until the turn completes, its context is full, its stop
      is acknowledged, or the process ends. */
  function NextLive(s: State, live: Live, e: Event): Live {
    match e
    case Answer(TurnReplied) =>
      if s.start.Some? && s.start.value.stage.Launching? then live + {s.start.value.id} else live
    case Answer(StopReply(id, ok)) => if ok then live - {id} else live
    case Codex(TurnCompleted(id, _)) => live - {id}
    case Codex(ContextError(id)) => live - {id}
    case Codex(Exit) => {}
    case Server(Restart(_)) => {}
    case _ => live
  }

  /** Codex asks for approval, and reports a full context, only for turns it works on. About completions nothing is
      said. */
  predicate SpeaksForLive(live: Live, e: Event) {
    match e
    case Codex(ApprovalRequest(id)) => id in live
    case Codex(ContextError(id)) => id in live
    case _ => true
  }

  ghost predicate LiveRun(s: State, live: Live, es: seq<Event>)
    decreases |es|
  {
    es != [] ==> SpeaksForLive(live, es[0]) && LiveRun(Step(s, es[0]), NextLive(s, live, es[0]), es[1..])
  }

  /** A turn that Codex works on is in the slot, and has been started. */
  predicate LiveInSlot(s: State, live: Live) {
    forall id :: id in live ==> s.active == Some(id) && !Starts(s)
  }

  lemma LiveStaysInSlot(s: State, live: Live, e: Event)
    requires Safe(s) && !Disorders(s, e) && LiveInSlot(s, live) && SpeaksForLive(live, e)
    ensures !Misspeaks(s, e)
    ensures LiveInSlot(Step(s, e), NextLive(s, live, e))
  {
    match e
    case User(request) => LiveByUser(s, live, request);
    case Codex(message) => LiveByCodex(s, live, message);
    case Answer(reply) => LiveByAnswer(s, live, reply);
    case Server(internal) => LiveByServer(s, live, internal);
  }

  lemma LiveByUser(s: State, live: Live, r: Request)
    requires LiveInSlot(s, live)
    ensures LiveInSlot(UserStep(s, r), live)
  {
  }

  lemma LiveByCodex(s: State, live: Live, m: Message)
    requires Safe(s) && !Disorders(s, Codex(m)) && LiveInSlot(s, live) && SpeaksForLive(live, Codex(m))
    ensures !Misspeaks(s, Codex(m))
    ensures LiveInSlot(CodexStep(s, m), NextLive(s, live, Codex(m)))
  {
  }

  lemma LiveByAnswer(s: State, live: Live, r: Reply)
    requires Safe(s) && !Disorders(s, Answer(r)) && LiveInSlot(s, live)
    ensures LiveInSlot(AnswerStep(s, r), NextLive(s, live, Answer(r)))
  {
  }

  lemma LiveByServer(s: State, live: Live, i: Internal)
    requires LiveInSlot(s, live)
    ensures LiveInSlot(ServerStep(s, i), NextLive(s, live, Server(i)))
  {
  }

  /** If no start is disordered and Codex speaks only for the turns it works on, it never misspeaks. */
  lemma {:induction false} LiveRunsAreFair(s: State, live: Live, es: seq<Event>)
    requires Safe(s) && OrderedRun(s, es) && LiveInSlot(s, live) && LiveRun(s, live, es)
    ensures FairRun(s, es)
    decreases |es|
  {
    if es != [] {
      LiveStaysInSlot(s, live, es[0]);
      SlotStep(s, es[0]);
      hide Safe, Step, Misspeaks, Disorders, LiveInSlot;
      LiveRunsAreFair(Step(s, es[0]), NextLive(s, live, es[0]), es[1..]);
    }
  }

  /** In every ordered run from a start of the server in which Codex speaks only for the turns it works on, crashes and
      restarts included, at most one turn is active. */
  lemma OneTurnWhileCodexSpeaksForLive(t: Missions, ready: bool, es: seq<Event>)
    requires OrderedRun(Boot(t, ready), es) && LiveRun(Boot(t, ready), {}, es)
    ensures forall i, j :: ActiveRow(Run(Boot(t, ready), es), i) && ActiveRow(Run(Boot(t, ready), es), j) ==> i == j
  {
    LiveRunsAreFair(Boot(t, ready), {}, es);
    AtMostOneActiveTurn(Boot(t, ready), es);
  }

  // ---- silence about completed turns is not enough

  /** Codex says nothing about a turn after its turn/completed; a new reply to turn/start begins a new one. */
  ghost predicate SilentAfterCompletion(s: State, over: set<MissionId>, es: seq<Event>)
    decreases |es|
  {
    es != [] ==> !SpeaksOf(es[0], over) && SilentAfterCompletion(Step(s, es[0]), NextOver(s, over, es[0]), es[1..])
  }

  predicate SpeaksOf(e: Event, over: set<MissionId>) {
    match e
    case Codex(ApprovalRequest(id)) => id in over
    case Codex(ContextError(id)) => id in over
    case Codex(TurnCompleted(id, _)) => id in over
    case _ => false
  }

  function NextOver(s: State, over: set<MissionId>, e: Event): set<MissionId> {
    match e
    case Codex(TurnCompleted(id, _)) => over + {id}
    case Answer(TurnReplied) => if s.start.Some? then over - {s.start.value.id} else over
    case _ => over
  }

  lemma {:induction false} NothingCompleted(s: State, es: seq<Event>)
    requires forall e :: e in es ==> !(e.Codex? && e.message.TurnCompleted?)
    ensures SilentAfterCompletion(s, {}, es)
    decreases |es|
  {
    if es != [] {
      hide Step;
      assert NextOver(s, {}, es[0]) == {};
      NothingCompleted(Step(s, es[0]), es[1..]);
    }
  }

  /** The first turn is stopped, and the second is dispatched and runs. */
  const TO_STOPPING := [User(Create(2, 2, true)), User(StopCall(1))]
  const TO_NEXT := [Answer(StopReply(1, true)), Server(RunScheduled)]
  const STOPPED := TO_STOPPING + TO_NEXT
  const STARTED := [Answer(ThreadOpened), Answer(TurnReplied), Server(StartSettled)]

  const SECOND_STARTS := TURN_RUNNING.(
    missions := map[1 := Row(Interrupted, 1, true, 0), 2 := Row(Starting, 2, false, 0)], active := Some(2),
    start := Some(Start(2, Opening, false)), flight := Flight(0, map[], map[1 := 0]))

  const SECOND_RUNS := SECOND_STARTS.(
    missions := map[1 := Row(Interrupted, 1, true, 0), 2 := Row(Running, 2, true, 0)], start := None)

  /** The second turn waits, and the stop of the first is on its way. */
  const STOPPING := TURN_RUNNING.(
    missions := map[1 := Row(Running, 1, true, 0), 2 := Row(Queued, 2, false, 0)],
    flight := Flight(0, map[], map[1 := 1]))

  lemma FirstTurnIsStopped()
    ensures OrderedRun(TURN_RUNNING, TO_STOPPING) && Run(TURN_RUNNING, TO_STOPPING) == STOPPING
  {
    var s1 := Step(TURN_RUNNING, TO_STOPPING[0]);
    var s2 := Step(s1, TO_STOPPING[1]);
    assert s2.missions == STOPPING.missions && s2.flight.stops == STOPPING.flight.stops;
    assert TO_STOPPING[2..] == [];
  }

  lemma SecondTurnIsNext()
    ensures OrderedRun(STOPPING, TO_NEXT) && Run(STOPPING, TO_NEXT) == SECOND_STARTS
  {
    var s3 := Step(STOPPING, TO_NEXT[0]);
    assert s3.missions[2].status.Queued?;
    var s4 := Step(s3, TO_NEXT[1]);
    assert s4.missions == SECOND_STARTS.missions && s4.flight.stops == SECOND_STARTS.flight.stops;
    assert TO_NEXT[2..] == [];
  }

  lemma SecondTurnStarts()
    ensures OrderedRun(TURN_RUNNING, STOPPED) && Run(TURN_RUNNING, STOPPED) == SECOND_STARTS
  {
    hide Run, OrderedRun, FairRun, Step;
    FirstTurnIsStopped();
    SecondTurnIsNext();
    RunInTwoParts(TURN_RUNNING, TO_STOPPING, TO_NEXT);
  }

  lemma SecondTurnRuns()
    ensures OrderedRun(SECOND_STARTS, STARTED) && Run(SECOND_STARTS, STARTED) == SECOND_RUNS
  {
    var s1 := Step(SECOND_STARTS, STARTED[0]);
    var s2 := Step(s1, STARTED[1]);
    var s3 := Step(s2, STARTED[2]);
    assert s3.missions == SECOND_RUNS.missions;
    assert STARTED[3..] == [];
  }

  /** Only then a report comes that the first was out of context. It empties the slot, whoever is in it, and the notice
      of the compaction dispatches the first turn beside the second. */
  const LATE_REPORT := [Codex(ContextError(1)), Codex(Compacted(ThreadCompacted))]

  lemma LateReportEmptiesTheSlot()
    ensures OrderedRun(SECOND_RUNS, LATE_REPORT)
    ensures var s := Run(SECOND_RUNS, LATE_REPORT); ActiveRow(s, 1) && ActiveRow(s, 2)
  {
    var s1 := Step(SECOND_RUNS, LATE_REPORT[0]);
    var s2 := Step(s1, LATE_REPORT[1]);
    assert LATE_REPORT[2..] == [];
    assert HasQueued(s1.missions[1 := s1.missions[1].(status := Queued, infraError := false)]) by {
      assert s1.missions[1 := s1.missions[1].(status := Queued, infraError := false)][1].status.Queued?;
    }
  }

  lemma AStoppedTurnCanRunBesideAnother()
    ensures var es := STOPPED + (STARTED + LATE_REPORT);
      && OrderedRun(TURN_RUNNING, es) && SilentAfterCompletion(TURN_RUNNING, {}, es)
      && ActiveRow(Run(TURN_RUNNING, es), 1) && ActiveRow(Run(TURN_RUNNING, es), 2)
  {
    hide Run, OrderedRun, FairRun, SilentAfterCompletion, Step, ActiveRow;
    SecondTurnStarts();
    SecondTurnRuns();
    LateReportEmptiesTheSlot();
    RunInTwoParts(TURN_RUNNING, STOPPED, STARTED + LATE_REPORT);
    RunInTwoParts(SECOND_STARTS, STARTED, LATE_REPORT);
    NothingCompleted(TURN_RUNNING, STOPPED + (STARTED + LATE_REPORT));
  }

  // ---- a completion that comes while its turn is being started again

  /** Codex neither asks for approval nor reports a full context. */
  predicate SaysNothing(e: Event) {
    !(e.Codex? && (e.message.ApprovalRequest? || e.message.ContextError?))
  }

  lemma {:induction false} LiveWhileNothingIsSaid(s: State, live: Live, es: seq<Event>)
    requires forall e :: e in es ==> SaysNothing(e)
    ensures LiveRun(s, live, es)
    decreases |es|
  {
    if es != [] {
      assert SaysNothing(es[0]);
      hide Step, NextLive;
      LiveWhileNothingIsSaid(Step(s, es[0]), NextLive(s, live, es[0]), es[1..]);
    }
  }

  lemma {:induction false} SilentAtFirst(s: State, es: seq<Event>, fs: seq<Event>)
    requires forall e :: e in es ==> !(e.Codex? && e.message.TurnCompleted?)
    requires SilentAfterCompletion(Run(s, es), {}, fs)
    ensures SilentAfterCompletion(s, {}, es + fs)
    decreases |es|
  {
    if es == [] {
      assert es + fs == fs;
    } else {
      hide Step;
      assert NextOver(s, {}, es[0]) == {};
      assert (es + fs)[0] == es[0] && (es + fs)[1..] == es[1..] + fs;
      SilentAtFirst(Step(s, es[0]), es[1..], fs);
    }
  }

  /** The turn runs out of context, its thread is compacted, and it is started again. */
  const RESTARTED := [
    Codex(ContextError(1)), Answer(RecoveryReply(1, true, false)), Codex(Compacted(ThreadCompacted)),
        Answer(ThreadOpened)
  ]

  const TURN_LAUNCHING_AGAIN := TURN_RUNNING.(
    missions := map[1 := Row(Starting, 1, true, 1)], start := Some(Start(1, Launching, false)),
    flight := Flight(0, map[1 := 0], map[]))

  lemma TheTurnIsRestarted()
    ensures FairRun(TURN_RUNNING, RESTARTED) && Run(TURN_RUNNING, RESTARTED) == TURN_LAUNCHING_AGAIN
  {
    var s1 := Step(TURN_RUNNING, RESTARTED[0]);
    var s2 := Step(s1, RESTARTED[1]);
    var s3 := Step(s2, RESTARTED[2]);
    var s4 := Step(s3, RESTARTED[3]);
    assert s4.missions == TURN_LAUNCHING_AGAIN.missions
        && s4.flight.recoveries == TURN_LAUNCHING_AGAIN.flight.recoveries;
    assert RESTARTED[4..] == [];
  }

  /** Only now the first attempt is reported to be over: the slot is emptied, the reply writes running all the same, and
      the next turn is dispatched beside it. */
  const LATE_COMPLETION := [
    Codex(TurnCompleted(1, TurnStopped)), Answer(TurnReplied), Server(StartSettled), User(Create(2, 2, true))
  ]

  lemma TheSlotIsEmptied()
    ensures !FairRun(TURN_LAUNCHING_AGAIN, LATE_COMPLETION)
      && SilentAfterCompletion(TURN_LAUNCHING_AGAIN, {}, LATE_COMPLETION)
    ensures var s := Run(TURN_LAUNCHING_AGAIN, LATE_COMPLETION); ActiveRow(s, 1) && ActiveRow(s, 2)
  {
    var s1 := Step(TURN_LAUNCHING_AGAIN, LATE_COMPLETION[0]);
    var s2 := Step(s1, LATE_COMPLETION[1]);
    var s3 := Step(s2, LATE_COMPLETION[2]);
    var s4 := Step(s3, LATE_COMPLETION[3]);
    assert LATE_COMPLETION[4..] == [];
    assert s3.missions[1].status.Running? && GatesOpen(s3);
  }

  /** Codex speaks only for the turn it works on, and is silent after its only completion; two turns are active. */
  lemma ALateCompletionMakesTwoTurnsActive()
    ensures var es := RESTARTED + LATE_COMPLETION;
      && LiveRun(TURN_RUNNING, {1}, es) && SilentAfterCompletion(TURN_RUNNING, {}, es)
      && ActiveRow(Run(TURN_RUNNING, es), 1) && ActiveRow(Run(TURN_RUNNING, es), 2)
  {
    var es := RESTARTED + LATE_COMPLETION;
    assert forall e :: e in es[1..] ==> SaysNothing(e);
    assert es[0] == Codex(ContextError(1));
    TheTurnIsRestarted();
    TheSlotIsEmptied();
    assert LiveRun(TURN_RUNNING, {1}, es) by {
      hide Step, NextLive;
      LiveWhileNothingIsSaid(Step(TURN_RUNNING, es[0]), NextLive(TURN_RUNNING, {1}, es[0]), es[1..]);
    }
    hide Run, Step, LiveRun, SilentAfterCompletion, ActiveRow;
    SilentAtFirst(TURN_RUNNING, RESTARTED, LATE_COMPLETION);
    RunInTwoParts(TURN_RUNNING, RESTARTED, LATE_COMPLETION);
  }
}
