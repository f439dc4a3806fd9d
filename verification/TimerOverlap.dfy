/** Which steps of the dispatcher let work of one timer overlap: the scheduler looks before it asks for a turn, but what
    puts a turn back into the queue does not. */
module TimerOverlap {
  import opened Records
  import opened Dispatcher
  import Timers
  import TimerProofs

  /** What the scheduler sees of the missions table. */
  function TurnsOf(t: Missions): map<MissionId, Timers.Turn> {
    map m | m in t :: Timers.Turn(t[m].status, t[m].timer)
  }

  ghost predicate NoOverlap(t: Missions) {
    TimerProofs.NoOverlap(TurnsOf(t))
  }

  predicate OwesFor(m: Mission, timer: Option<TimerId>) {
    timer.Some? && m.timer == timer && Pending(m.status)
  }

  /** Another turn of its timer is pending, and this one is not. */
  ghost predicate WouldBeSecond(t: Missions, m: MissionId) {
    && m in t && !Pending(t[m].status)
    && exists j :: j in t && j != m && OwesFor(t[j], t[m].timer)
  }

  /** The turn waits, or a restart puts it back into the queue. */
  predicate WaitsAfterRestart(t: Missions, j: MissionId)
    requires j in t
  {
    t[j].status.Queued? || (Active(t[j].status) && Recoverable(t[j])) || FailedToStart(t, j)
  }

  /** A turn that could not start, because Codex was away, is tried again beside another one of its timer. */
  ghost predicate RetriesBeside(t: Missions, i: MissionId, j: MissionId) {
    && i in t && j in t && i != j && t[i].timer.Some? && t[j].timer == t[i].timer
    && FailedToStart(t, i) && WaitsAfterRestart(t, j)
  }

  ghost predicate RestartsTwo(t: Missions) {
    exists i, j :: RetriesBeside(t, i, j)
  }

  /**
   The user resumes an interrupted turn; a compaction puts back a parked one; Codex asks for approval for a finished one
   or replies to its start; a start that is over otherwise is deferred; or a restart tries a failed turn again.
   */
  ghost predicate Overlaps(s: State, e: Event) {
    match e
    case User(Resume(m)) => WouldBeSecond(s.missions, m) && s.missions[m].status.Interrupted? && s.missions[m].hasThread
    case Codex(Compacted(notice)) => Heard(s, notice) && s.parked.Some? && WouldBeSecond(s.missions, s.parked.value)
    case Codex(ApprovalRequest(m)) => WouldBeSecond(s.missions, m)
    case Answer(TurnReplied) => s.start.Some? && s.start.value.stage.Launching?
        && WouldBeSecond(s.missions, s.start.value.id)
    case Answer(StartFailed(infra)) =>
      && infra && s.start.Some? && !s.start.value.stage.Settling? && WouldBeSecond(s.missions, s.start.value.id)
      && !s.missions[s.start.value.id].status.Interrupted?
    case Server(Restart(_)) => RestartsTwo(s.missions)
    case _ => false
  }

  /** One row gets another status. */
  lemma OneRowChanges(t: Missions, m: MissionId, row: Mission)
    requires NoOverlap(t) && m in t && row.timer == t[m].timer
    ensures NoOverlap(t[m := row]) <==> !(Pending(row.status) && WouldBeSecond(t, m))
  {
    var t' := t[m := row];
    if Pending(row.status) && WouldBeSecond(t, m) {
      var j :| j in t && j != m && OwesFor(t[j], t[m].timer);
      assert TimerProofs.Owes(TurnsOf(t')[m]) && TimerProofs.Owes(TurnsOf(t')[j]);
    } else {
      assert TimerProofs.Owes(TurnsOf(t)[m]) <==> OwesFor(t[m], t[m].timer);
      forall i, j | i in t' && j in t' && TimerProofs.Owes(TurnsOf(t')[i]) && TimerProofs.Owes(TurnsOf(t')[j])
                    && t'[i].timer == t'[j].timer
        ensures i == j
      {
        assert i != m ==> OwesFor(t[i], t[i].timer) && TimerProofs.Owes(TurnsOf(t)[i]);
        assert j != m ==> OwesFor(t[j], t[j].timer) && TimerProofs.Owes(TurnsOf(t)[j]);
        assert t[i].timer == t[j].timer;
      }
    }
  }

  lemma ARowWithoutTimer(t: Missions, m: MissionId, row: Mission)
    requires NoOverlap(t) && m !in t && row.timer.None?
    ensures NoOverlap(t[m := row])
  {
    var t' := t[m := row];
    forall i, j | i in t' && j in t' && TimerProofs.Owes(TurnsOf(t')[i]) && TimerProofs.Owes(TurnsOf(t')[j])
                  && t'[i].timer == t'[j].timer
      ensures i == j
    {
      assert TimerProofs.Owes(TurnsOf(t)[i]) && TimerProofs.Owes(TurnsOf(t)[j]);
    }
  }

  /** A dispatch moves a queued turn on. */
  lemma DispatchKeepsOverlap(s: State)
    ensures NoOverlap(ProcessNext(s).missions) <==> NoOverlap(s.missions)
  {
    var t, t' := s.missions, ProcessNext(s).missions;
    assert t'.Keys == t.Keys;
    assert forall m :: m in t ==> t'[m].timer == t[m].timer && (Pending(t'[m].status) <==> Pending(t[m].status));
    hide ProcessNext;
    SameOwing(t, t');
    SameOwing(t', t);
  }

  lemma SameOwing(t: Missions, t': Missions)
    requires t'.Keys == t.Keys
    requires forall m :: m in t ==> t'[m].timer == t[m].timer && (Pending(t'[m].status) ==> Pending(t[m].status))
    ensures NoOverlap(t) ==> NoOverlap(t')
  {
    if NoOverlap(t) {
      forall i, j | i in t' && j in t' && TimerProofs.Owes(TurnsOf(t')[i]) && TimerProofs.Owes(TurnsOf(t')[j])
                    && t'[i].timer == t'[j].timer
        ensures i == j
      {
        assert TimerProofs.Owes(TurnsOf(t)[i]) && TimerProofs.Owes(TurnsOf(t)[j]);
      }
    }
  }

  lemma OverlapByUser(s: State, r: Request)
    requires NoOverlap(s.missions)
    ensures NoOverlap(UserStep(s, r).missions) <==> !Overlaps(s, User(r))
  {
    hide NoOverlap, ProcessNext, NextQueued;
    match r
    case Create(id, sequence, admitted) =>
      if !s.gate.clearing && admitted && id !in s.missions {
        var row := Mission(Queued, sequence, None, None, false, false, 0, false);
        ARowWithoutTimer(s.missions, id, row);
        DispatchKeepsOverlap(s.(missions := s.missions[id := row]));
      } else {
        DispatchKeepsOverlap(s);
      }
    case Resume(m) =>
      if m in s.missions && s.missions[m].status.Interrupted? && s.missions[m].hasThread {
        var row := s.missions[m].(status := Queued, attempts := 0, infraError := false);
        OneRowChanges(s.missions, m, row);
        DispatchKeepsOverlap(s.(missions := s.missions[m := row]));
      }
    case StopCall(m) => if m in s.missions { OneRowChanges(s.missions, m, s.missions[m].(status := Cancelled)); }
    case Approve(m, _) => if m in s.missions { OneRowChanges(s.missions, m, s.missions[m].(status := Running)); }
    case _ =>
  }

  lemma OverlapByCodex(s: State, c: Message)
    requires NoOverlap(s.missions)
    ensures NoOverlap(CodexStep(s, c).missions) <==> !Overlaps(s, Codex(c))
  {
    hide NoOverlap, ProcessNext, NextQueued, FirstActive;
    match c
    case ApprovalRequest(m) =>
      if m in s.missions { OneRowChanges(s.missions, m, s.missions[m].(status := AwaitingApproval)); }
    case TurnCompleted(m, outcome) =>
      if m in s.missions { OneRowChanges(s.missions, m, CompletedRow(s.missions[m], outcome)); }
    case Compacted(notice) => OverlapByNotice(s, notice);
    case TurnStarted =>
      if s.active.Some? && s.active.value in s.missions {
        OneRowChanges(s.missions, s.active.value, s.missions[s.active.value].(hasTurn := true));
      }
    case ContextError(m) =>
      if m in s.missions {
        OneRowChanges(s.missions, m, s.missions[m].(status := Interrupted, attempts := s.missions[m].attempts + 1));
        OneRowChanges(s.missions, m, s.missions[m].(status := Failed, infraError := false));
      }
    case Exit =>
      var subject := ExitSubject(s);
      if Salvages(s.missions, subject) {
        OneRowChanges(s.missions, subject.value, Salvaged(s.missions[subject.value]));
      }
    case _ =>
  }

  lemma OverlapByNotice(s: State, notice: Notice)
    requires NoOverlap(s.missions)
    ensures NoOverlap(CompactedStep(s, notice).missions) <==> !Overlaps(s, Codex(Compacted(notice)))
  {
    hide NoOverlap, ProcessNext, NextQueued;
    if Heard(s, notice) {
      var t := s.missions;
      if s.parked.Some? && s.parked.value in t {
        t := t[s.parked.value := t[s.parked.value].(status := Queued, infraError := false)];
        OneRowChanges(s.missions, s.parked.value, t[s.parked.value]);
      }
      DispatchKeepsOverlap(CompactionOver(s).(missions := t, parked := None));
    }
  }

  lemma OverlapByAnswer(s: State, r: Reply)
    requires NoOverlap(s.missions)
    ensures NoOverlap(AnswerStep(s, r).missions) <==> !Overlaps(s, Answer(r))
  {
    hide NoOverlap;
    match r
    case StopReply(m, _) => if m in s.missions { OneRowChanges(s.missions, m, s.missions[m].(status := Interrupted)); }
    case RecoveryReply(m, _, infra) =>
      if m in s.missions { OneRowChanges(s.missions, m, s.missions[m].(status := Failed, infraError := infra)); }
    case ThreadOpened => OverlapByStart(s, true);
    case TurnReplied => OverlapByStart(s, true);
    case StartFailed(infra) => OverlapByStart(s, infra);
    case _ =>
  }

  lemma OverlapByStart(s: State, infra: bool)
    requires NoOverlap(s.missions)
    ensures NoOverlap(ThreadOpenedStep(s).missions)
    ensures NoOverlap(TurnRepliedStep(s).missions) <==> !Overlaps(s, Answer(TurnReplied))
    ensures NoOverlap(StartFailedStep(s, infra).missions) <==> !Overlaps(s, Answer(StartFailed(infra)))
  {
    hide NoOverlap;
    if s.start.Some? && s.start.value.id in s.missions {
      var m := s.start.value.id;
      var row := s.missions[m];
      OneRowChanges(s.missions, m, row.(hasThread := true));
      OneRowChanges(s.missions, m, row.(status := Running, hasThread := true, hasTurn := true));
      OneRowChanges(s.missions, m, row.(status := Queued, infraError := false, attempts := row.attempts + 1));
      OneRowChanges(s.missions, m, row.(status := Failed, infraError := false));
    }
  }

  lemma OverlapByServer(s: State, i: Internal)
    requires NoOverlap(s.missions)
    ensures NoOverlap(ServerStep(s, i).missions) <==> !Overlaps(s, Server(i))
  {
    match i
    case RunScheduled =>
      if s.owed.calls > 0 { DispatchKeepsOverlap(s.(owed := s.owed.(calls := s.owed.calls - 1))); }
      hide NoOverlap, ProcessNext;
    case InitOpened =>
      if s.owed.initsOpening > 0 { DispatchKeepsOverlap(s.(owed := s.owed.(initsOpening := s.owed.initsOpening - 1))); }
      hide NoOverlap, ProcessNext;
    case CompactTimeout => OverlapByTimeout(s);
    case Restart(ready) => OverlapByRestart(s.missions); hide NoOverlap, RecoveredTable;
    case _ => hide NoOverlap;
  }

  lemma OverlapByTimeout(s: State)
    requires NoOverlap(s.missions)
    ensures NoOverlap(CompactTimeoutStep(s).missions)
  {
    hide NoOverlap, ProcessNext, NextQueued;
    if s.owed.timeout && s.gate.compacting {
      var t := s.missions;
      if s.parked.Some? && s.parked.value in t {
        t := t[s.parked.value := t[s.parked.value].(status := Failed, infraError := false)];
        OneRowChanges(s.missions, s.parked.value, t[s.parked.value]);
      }
      var s1 := s.(owed := s.owed.(timeout := false));
      DispatchKeepsOverlap(CompactionOver(s).(missions := t, parked := None));
    }
  }

  lemma WaitsExactly(t: Missions, j: MissionId)
    requires j in t
    ensures Pending(RecoveredRow(t, j).status) <==> WaitsAfterRestart(t, j)
    ensures WaitsAfterRestart(t, j) && !FailedToStart(t, j) ==> Pending(t[j].status)
  {
  }

  lemma OverlapByRestart(t: Missions)
    requires NoOverlap(t)
    ensures NoOverlap(RecoveredTable(t)) <==> !RestartsTwo(t)
  {
    var t' := RecoveredTable(t);
    assert forall i :: i in t ==> t'[i] == RecoveredRow(t, i) && t'[i].timer == t[i].timer;
    forall i | i in t ensures TimerProofs.Owes(TurnsOf(t')[i]) <==> t[i].timer.Some? && WaitsAfterRestart(t, i) {
      WaitsExactly(t, i);
    }
    hide RecoveredTable;
    if RestartsTwo(t) {
      var i, j :| RetriesBeside(t, i, j);
      assert WaitsAfterRestart(t, i);
      assert TimerProofs.Owes(TurnsOf(t')[i]) && TimerProofs.Owes(TurnsOf(t')[j]);
    } else {
      hide FailedToStart;
      forall i, j | i in t && j in t && t[i].timer.Some? && t[i].timer == t[j].timer
                    && WaitsAfterRestart(t, i) && WaitsAfterRestart(t, j)
        ensures i == j
      {
        WaitsExactly(t, i);
        WaitsExactly(t, j);
        assert !RetriesBeside(t, i, j) && !RetriesBeside(t, j, i);
        assert i != j ==> TimerProofs.Owes(TurnsOf(t)[i]) && TimerProofs.Owes(TurnsOf(t)[j]);
      }
    }
  }

  /** After a step of the dispatcher work of one timer overlaps if and only if the step is one of those. */
  lemma OverlapExactly(s: State, e: Event)
    requires NoOverlap(s.missions)
    ensures NoOverlap(Step(s, e).missions) <==> !Overlaps(s, e)
  {
    match e
    case User(request) => OverlapByUser(s, request);
    case Codex(message) => OverlapByCodex(s, message);
    case Answer(reply) => OverlapByAnswer(s, reply);
    case Server(internal) => OverlapByServer(s, internal);
  }

  /** Whatever else is going on: a running turn of a timer is stopped, the timer may then be run again, and resuming the
      stopped turn makes two. */
  lemma AStoppedRunOverlapsWhenResumed(s: State, m: MissionId, timer: TimerId, n: MissionId, sequence: nat)
    requires NoOverlap(s.missions) && m in s.missions && n !in s.missions
    requires s.missions[m].status.Running? && s.missions[m].hasThread && s.missions[m].hasTurn
    requires s.missions[m].timer == Some(timer)
    ensures var stopped := Step(Step(s, User(StopCall(m))), Answer(StopReply(m, true)));
      && stopped.missions[m].status.Interrupted?
      && Timers.PendingOf(TurnsOf(stopped.missions), timer) == {}
      && var again := Mission(Queued, sequence, None, Some(timer), false, false, 0, false);
         !NoOverlap(Step(stopped.(missions := stopped.missions[n := again]), User(Resume(m))).missions)
  {
    var stopped := Step(Step(s, User(StopCall(m))), Answer(StopReply(m, true)));
    assert stopped.missions == s.missions[m := s.missions[m].(status := Interrupted)];
    forall j | j in s.missions && j != m && s.missions[j].timer == Some(timer) ensures !Pending(s.missions[j].status) {
      assert TimerProofs.Owes(TurnsOf(s.missions)[m]);
      assert TimerProofs.Owes(TurnsOf(s.missions)[j]) <==> Pending(s.missions[j].status);
    }
    var again := Mission(Queued, sequence, None, Some(timer), false, false, 0, false);
    var t := stopped.missions[n := again];
    assert NoOverlap(t) by {
      forall i, j | i in t && j in t && TimerProofs.Owes(TurnsOf(t)[i]) && TimerProofs.Owes(TurnsOf(t)[j])
                    && t[i].timer == t[j].timer
        ensures i == j
      {
        if i != n && j != n { assert TimerProofs.Owes(TurnsOf(s.missions)[i])
            && TimerProofs.Owes(TurnsOf(s.missions)[j]); }
      }
    }
    assert OwesFor(t[n], t[m].timer);
    hide Step, NoOverlap;
    OverlapExactly(stopped.(missions := t), User(Resume(m)));
  }
}
