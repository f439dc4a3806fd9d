/** How often a turn is put back in the queue without the user. */
module DispatcherRecovery {
  import opened Records
  import opened Dispatcher
  import opened DispatcherSafety

  ghost predicate Waits(s: State, m: MissionId) {
    m in s.missions && s.missions[m].status.Queued?
  }

  /** A turn that did not wait does now, or has been dispatched in the same step. */
  ghost predicate Enters(s: State, s': State, m: MissionId) {
    && !Waits(s, m)
    && (Waits(s', m) || (s.start.None? && s'.start.Some? && s'.start.value.id == m))
  }

  /** A recovery puts a turn that was not queued back in the queue: after the exit of the process, a restart,
      or the compaction it was parked for. */
  ghost predicate Recovers(s: State, e: Event, m: MissionId) {
    && m in s.missions
    && !s.missions[m].status.Queued?
    && match e
       case Codex(Exit) => ExitSubject(s) == Some(m) && Active(s.missions[m].status) && Recoverable(s.missions[m])
       case Codex(Compacted(notice)) => Heard(s, notice) && s.parked == Some(m)
       case Server(Restart(_)) => Active(s.missions[m].status) && Recoverable(s.missions[m])
       case _ => false
  }

  /** A turn that could not start because Codex was away waits for it, however often. */
  predicate Defers(s: State, e: Event, m: MissionId) {
    && m in s.missions
    && match e
       case Answer(StartFailed(infra)) => infra && s.start.Some? && s.start.value.id == m
       case Server(Restart(_)) => FailedToStart(s.missions, m)
       case _ => false
  }

  /** The user, a recovery and a deferral are the only ways back into the queue. */
  lemma WaysBackToTheQueue(s: State, e: Event, m: MissionId)
    requires m in s.missions && Enters(s, Step(s, e), m)
    ensures e == User(Resume(m)) || Recovers(s, e, m) || Defers(s, e, m)
  {
    match e
    case User(request) => WaysBackByUser(s, request, m);
    case Codex(message) => WaysBackByCodex(s, message, m);
    case Answer(reply) => assert reply.StartFailed?;
    case Server(internal) => WaysBackByServer(s, internal, m);
  }

  lemma WaysBackByUser(s: State, r: Request, m: MissionId)
    requires m in s.missions && Enters(s, UserStep(s, r), m)
    ensures r == Resume(m)
  {
  }

  lemma WaysBackByCodex(s: State, message: Message, m: MissionId)
    requires m in s.missions && Enters(s, CodexStep(s, message), m)
    ensures Recovers(s, Codex(message), m)
  {
  }

  lemma WaysBackByServer(s: State, i: Internal, m: MissionId)
    requires m in s.missions && Enters(s, ServerStep(s, i), m)
    ensures Recovers(s, Server(i), m) || Defers(s, Server(i), m)
  {
  }

  /** How often a turn may still be recovered: once while it has no attempt behind it, and once if it is parked. */
  function Allowance(s: State, m: MissionId): nat
    requires m in s.missions
  {
    (if s.missions[m].attempts == 0 then 1 else 0) + (if s.parked == Some(m) then 1 else 0)
  }

  /** One step spends the allowance it uses, and the attempts never go down unless the user resumes. */
  ghost predicate Spends(s: State, e: Event, s': State, m: MissionId)
    requires m in s.missions
  {
    && m in s'.missions
    && s'.missions[m].attempts >= s.missions[m].attempts
    && Allowance(s', m) + (if Recovers(s, e, m) then 1 else 0) <= Allowance(s, m)
  }

  lemma SpendsByUser(s: State, r: Request, m: MissionId)
    requires m in s.missions && r != Resume(m)
    ensures Spends(s, User(r), UserStep(s, r), m)
  {
  }

  lemma SpendsByCodex(s: State, message: Message, m: MissionId)
    requires m in s.missions
    ensures Spends(s, Codex(message), CodexStep(s, message), m)
  {
  }

  lemma SpendsByReply(s: State, r: Reply, m: MissionId)
    requires m in s.missions
    ensures Spends(s, Answer(r), AnswerStep(s, r), m)
  {
  }

  lemma SpendsByServer(s: State, i: Internal, m: MissionId)
    requires m in s.missions
    ensures Spends(s, Server(i), ServerStep(s, i), m)
  {
  }

  lemma SpendsStep(s: State, e: Event, m: MissionId)
    requires m in s.missions && e != User(Resume(m))
    ensures Spends(s, e, Step(s, e), m)
  {
    match e
    case User(request) => SpendsByUser(s, request, m);
    case Codex(message) => SpendsByCodex(s, message, m);
    case Answer(reply) => SpendsByReply(s, reply, m);
    case Server(internal) => SpendsByServer(s, internal, m);
  }

  /** How often m is recovered in a run. */
  ghost function Recoveries(s: State, es: seq<Event>, m: MissionId): nat
    decreases |es|
  {
    if es == [] then 0
    else (if Recovers(s, es[0], m) then 1 else 0) + Recoveries(Step(s, es[0]), es[1..], m)
  }

  /** Between two resumes by the user the attempts never go down, and process exits, restarts and compactions
      together recover a turn at most as often as its allowance at the first. */
  lemma {:induction false} RecoveryBudget(s: State, es: seq<Event>, m: MissionId)
    requires m in s.missions && User(Resume(m)) !in es
    ensures m in Run(s, es).missions && Run(s, es).missions[m].attempts >= s.missions[m].attempts
    ensures Recoveries(s, es, m) + Allowance(Run(s, es), m) <= Allowance(s, m)
    decreases |es|
  {
    if es != [] {
      SpendsStep(s, es[0], m);
      RecoveryBudget(Step(s, es[0]), es[1..], m);
    }
  }

  /** A turn that is not parked, or has an attempt behind it, is recovered at most once. */
  lemma RecoveredAtMostOnce(s: State, es: seq<Event>, m: MissionId)
    requires m in s.missions && User(Resume(m)) !in es
    requires s.parked != Some(m) || s.missions[m].attempts > 0
    ensures Recoveries(s, es, m) <= 1
  {
    RecoveryBudget(s, es, m);
  }

  // ---- the allowance can always be used up

  /** The turn is parked, and no attempt of it is counted: the user has resumed it since. */
  predicate ResumedWhileParked(s: State, m: MissionId) {
    s.parked == Some(m) && m in s.missions && s.missions[m].attempts == 0
  }

  /** A fair run in which m is recovered n times, and not resumed. */
  ghost predicate RecoversIn(s: State, es: seq<Event>, m: MissionId, n: nat) {
    User(Resume(m)) !in es && FairRun(s, es) && Recoveries(s, es, m) == n
  }

  lemma {:induction false} RecoveriesInTwoParts(s: State, es: seq<Event>, fs: seq<Event>, m: MissionId)
    ensures Recoveries(s, es + fs, m) == Recoveries(s, es, m) + Recoveries(Run(s, es), fs, m)
    decreases |es|
  {
    if es == [] {
      assert es + fs == fs;
    } else {
      assert (es + fs)[0] == es[0] && (es + fs)[1..] == es[1..] + fs;
      hide Recovers, Step;
      RecoveriesInTwoParts(Step(s, es[0]), es[1..], fs, m);
    }
  }

  lemma OneStep(s: State, e: Event, m: MissionId)
    requires Fair(s, e) && e != User(Resume(m))
    ensures RecoversIn(s, [e], m, if Recovers(s, e, m) then 1 else 0) && Run(s, [e]) == Step(s, e)
  {
    hide Step, Recovers, Fair;
    var es := [e];
    assert es[0] == e && es[1..] == [];
    assert User(Resume(m)) !in es;
    assert FairRun(Step(s, e), []) && FairRun(s, es);
    assert Run(Step(s, e), []) == Step(s, e) && Recoveries(Step(s, e), [], m) == 0;
    assert Recoveries(s, es, m) == if Recovers(s, e, m) then 1 else 0;
  }

  lemma Then(s: State, es: seq<Event>, k: nat, fs: seq<Event>, n: nat, m: MissionId)
    requires RecoversIn(s, es, m, k) && RecoversIn(Run(s, es), fs, m, n)
    ensures RecoversIn(s, es + fs, m, k + n) && Run(s, es + fs) == Run(Run(s, es), fs)
  {
    hide Run, Recoveries, FairRun;
    RecoveriesInTwoParts(s, es, fs, m);
    RunInTwoParts(s, es, fs);
  }

  function QueuedOthers(t: Missions, m: MissionId): set<MissionId> {
    set j | j in t && j != m && t[j].status.Queued?
  }

  /** Every other queued turn is cancelled. */
  function Cleared(t: Missions, m: MissionId): Missions {
    map j | j in t :: if j != m && t[j].status.Queued? then t[j].(status := Cancelled) else t[j]
  }

  lemma {:induction false} CancelOthers(s: State, m: MissionId) returns (es: seq<Event>)
    ensures RecoversIn(s, es, m, 0) && Run(s, es) == s.(missions := Cleared(s.missions, m))
    decreases |QueuedOthers(s.missions, m)|
  {
    es := [];
    if QueuedOthers(s.missions, m) == {} {
      assert forall j :: j in s.missions && j != m && s.missions[j].status.Queued? ==> j in QueuedOthers(s.missions, m);
      assert Cleared(s.missions, m) == s.missions;
    } else {
      var j :| j in QueuedOthers(s.missions, m);
      var t := s.(missions := SetStatus(s.missions, j, Cancelled));
      assert Step(s, User(StopCall(j))) == t;
      assert QueuedOthers(t.missions, m) == QueuedOthers(s.missions, m) - {j};
      assert Cleared(t.missions, m) == Cleared(s.missions, m);
      OneStep(s, User(StopCall(j)), m);
      hide RecoversIn, Run, Step, Cleared;
      var rest := CancelOthers(t, m);
      Then(s, [User(StopCall(j))], 0, rest, 0, m);
      es := [User(StopCall(j))] + rest;
    }
  }

  /** The dispatch of m has begun. */
  predicate Opens(s: State, m: MissionId) {
    && m in s.missions && s.missions[m].attempts == 0 && s.missions[m].status.Starting?
    && s.start == Some(Start(m, Opening, false))
  }

  lemma RecoveredByRestart(s: State, m: MissionId) returns (es: seq<Event>)
    requires Opens(s, m)
    ensures RecoversIn(s, es, m, 1)
  {
    OneStep(s, Answer(ThreadOpened), m);
    var t := Step(s, Answer(ThreadOpened));
    OneStep(t, Server(Restart(true)), m);
    assert Recovers(t, Server(Restart(true)), m);
    hide RecoversIn, Run, Step;
    Then(s, [Answer(ThreadOpened)], 0, [Server(Restart(true))], 1, m);
    es := [Answer(ThreadOpened)] + [Server(Restart(true))];
  }

  lemma OpensAlone(s: State, m: MissionId) returns (es: seq<Event>)
    requires GatesOpen(s) && s.owed.initsScheduled == 1 && s.owed.initsOpening == 0
    requires m in s.missions && s.missions[m].status.Queued? && s.missions[m].attempts == 0
    requires QueuedOthers(s.missions, m) == {}
    ensures RecoversIn(s, es, m, 0) && Opens(Run(s, es), m)
  {
    OneStep(s, Server(InitBegin(true)), m);
    var t := Step(s, Server(InitBegin(true)));
    OneStep(t, Server(InitOpened), m);
    assert HasQueued(t.missions);
    assert NextQueued(t.missions) == m by {
      assert NextQueued(t.missions) !in QueuedOthers(s.missions, m);
    }
    assert Opens(Step(t, Server(InitOpened)), m);
    hide RecoversIn, Run, Step, Opens;
    Then(s, [Server(InitBegin(true))], 0, [Server(InitOpened)], 0, m);
    es := [Server(InitBegin(true))] + [Server(InitOpened)];
  }

  /** A queued turn without attempts is recovered once in some fair run: restart, cancel the others, dispatch,
      restart. */
  lemma RecoveredFromTheQueue(s: State, m: MissionId) returns (es: seq<Event>)
    requires m in s.missions && s.missions[m].status.Queued? && s.missions[m].attempts == 0
    ensures RecoversIn(s, es, m, 1)
  {
    OneStep(s, Server(Restart(true)), m);
    var s1 := Step(s, Server(Restart(true)));
    assert !Recovers(s, Server(Restart(true)), m);
    var cancels := CancelOthers(s1, m);
    var s2 := s1.(missions := Cleared(s1.missions, m));
    assert QueuedOthers(s2.missions, m) == {};
    hide RecoversIn, Run, Step, Opens;
    var dispatch := OpensAlone(s2, m);
    var restart := RecoveredByRestart(Run(s2, dispatch), m);
    Then(s2, dispatch, 0, restart, 1, m);
    Then(s1, cancels, 0, dispatch + restart, 1, m);
    Then(s, [Server(Restart(true))], 0, cancels + (dispatch + restart), 1, m);
    es := [Server(Restart(true))] + (cancels + (dispatch + restart));
  }

  lemma RecoveredAfterCompaction(s: State, m: MissionId) returns (es: seq<Event>)
    requires ResumedWhileParked(s, m) && !s.missions[m].status.Queued?
    ensures RecoversIn(s, es, m, 2)
  {
    var e := Codex(Compacted(ThreadCompacted));
    OneStep(s, e, m);
    assert Recovers(s, e, m);
    var t := Step(s, e);
    assert Opens(t, m) || (t.missions[m].status.Queued? && t.missions[m].attempts == 0);
    hide RecoversIn, Run, Step;
    var rest;
    if Opens(t, m) { rest := RecoveredByRestart(t, m); } else { rest := RecoveredFromTheQueue(t, m); }
    Then(s, [e], 1, rest, 1, m);
    es := [e] + rest;
  }

  lemma RecoveredTwice(s: State, m: MissionId) returns (es: seq<Event>)
    requires ResumedWhileParked(s, m)
    ensures RecoversIn(s, es, m, 2)
  {
    if s.missions[m].status.Queued? {
      OneStep(s, User(StopCall(m)), m);
      var t := Step(s, User(StopCall(m)));
      assert ResumedWhileParked(t, m) && !t.missions[m].status.Queued?;
      hide RecoversIn, Run, Step, ResumedWhileParked;
      var rest := RecoveredAfterCompaction(t, m);
      Then(s, [User(StopCall(m))], 0, rest, 2, m);
      es := [User(StopCall(m))] + rest;
    } else {
      es := RecoveredAfterCompaction(s, m);
    }
  }

  /** Without being resumed again, a turn can be recovered more than once exactly if it was resumed while parked. */
  lemma RecoveredTwiceExactly(s: State, m: MissionId)
    requires m in s.missions
    ensures (exists es :: User(Resume(m)) !in es && FairRun(s, es) && Recoveries(s, es, m) > 1)
      <==> ResumedWhileParked(s, m)
  {
    if ResumedWhileParked(s, m) {
      var es := RecoveredTwice(s, m);
      assert User(Resume(m)) !in es && FairRun(s, es) && Recoveries(s, es, m) > 1;
    } else {
      forall es | User(Resume(m)) !in es && FairRun(s, es) ensures Recoveries(s, es, m) <= 1 {
        RecoveredAtMostOnce(s, es, m);
      }
    }
  }

  /** Such a state is reached: parked for a compaction, the turn is resumed by the user. */
  const PARKED := TURN_RUNNING.(
    missions := map[1 := Row(Interrupted, 1, true, 1)], active := None, parked := Some(1),
    gate := Gate(true, false, false, true), flight := Flight(0, map[1 := 1], map[]))

  lemma ParkedIsReached()
    ensures Fair(TURN_RUNNING, Codex(ContextError(1))) && Step(TURN_RUNNING, Codex(ContextError(1))) == PARKED
    ensures ResumedWhileParked(Step(PARKED, User(Resume(1))), 1)
  {
    assert Step(TURN_RUNNING, Codex(ContextError(1))).missions == PARKED.missions;
  }

  // ---- one requeue per parking

  predicate Parks(s: State, e: Event, m: MissionId) {
    e == Codex(ContextError(m)) && m in s.missions && Recoverable(s.missions[m])
  }

  /** A notice of a compaction, under any of its three names, requeues m. */
  predicate Unparks(s: State, e: Event, m: MissionId) {
    e.Codex? && e.message.Compacted? && Heard(s, e.message.notice) && s.parked == Some(m)
  }

  function IsParked(s: State, m: MissionId): nat {
    if s.parked == Some(m) then 1 else 0
  }

  ghost function Parkings(s: State, es: seq<Event>, m: MissionId): nat
    decreases |es|
  {
    if es == [] then 0 else (if Parks(s, es[0], m) then 1 else 0) + Parkings(Step(s, es[0]), es[1..], m)
  }

  ghost function Unparkings(s: State, es: seq<Event>, m: MissionId): nat
    decreases |es|
  {
    if es == [] then 0 else (if Unparks(s, es[0], m) then 1 else 0) + Unparkings(Step(s, es[0]), es[1..], m)
  }

  lemma ParkingStep(s: State, e: Event, m: MissionId)
    ensures (if Unparks(s, e, m) then 1 else 0) + IsParked(Step(s, e), m)
         <= (if Parks(s, e, m) then 1 else 0) + IsParked(s, m)
  {
    match e
    case User(request) => assert UserStep(s, request).parked == s.parked;
    case Codex(message) => assert Unparks(s, e, m) ==> CodexStep(s, message).parked.None?;
    case Answer(reply) => assert AnswerStep(s, reply).parked in {s.parked, None};
    case Server(internal) => assert ServerStep(s, internal).parked in {s.parked, None};
  }

  /** However often a compaction is reported, a turn is put back at most once for each time it was parked. */
  lemma {:induction false} OneRequeuePerParking(s: State, es: seq<Event>, m: MissionId)
    ensures Unparkings(s, es, m) + IsParked(Run(s, es), m) <= Parkings(s, es, m) + IsParked(s, m)
    decreases |es|
  {
    if es != [] {
      ParkingStep(s, es[0], m);
      OneRequeuePerParking(Step(s, es[0]), es[1..], m);
    }
  }
}
