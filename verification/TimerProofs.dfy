/** What holds of the scheduler in every run: occurrences, turns and overlap. */
module TimerProofs {
  import opened Records
  import opened Schedules
  import opened Timers

  // ---- the invariant

  /** The records of a timer, in the order they were written: automatic occurrences strictly increase, none lies in
      the future, and no occasion is recorded twice. */
  ghost predicate InOrder(runs: seq<TimerRun>, now: int) {
    && (forall i, j :: 0 <= i < j < |runs| && runs[i].timer == runs[j].timer ==>
        Follows(runs[i].occasion, runs[j].occasion))
    && (forall k :: 0 <= k < |runs| ==> runs[k].occasion.instant <= now)
  }

  predicate Follows(o: Occasion, o': Occasion) {
    o != o' && (o.At? && o'.At? ==> o.instant < o'.instant)
  }

  /** The next run of a timer lies above everything recorded for it, and its evaluator only moves forward. */
  ghost predicate Ahead(w: World, timers: TimerTable, runs: seq<TimerRun>) {
    && (forall id :: id in timers ==> Advances(w, timers[id].schedule))
    && (forall k :: 0 <= k < |runs| ==>
        runs[k].timer in timers && Below(runs[k].occasion, timers[runs[k].timer].nextAt))
  }

  predicate Below(o: Occasion, next: Option<int>) {
    o.At? && next.Some? ==> o.instant < next.value
  }

  ghost predicate Advances(w: World, row: StoredSchedule) {
    forall t :: NextAfter(w, row, t).Some? ==> NextAfter(w, row, t).value > t
  }

  /** A record is queued exactly if it has a turn, that turn belongs to its timer, and no two records share one. */
  ghost predicate Owned(runs: seq<TimerRun>, turns: map<MissionId, Turn>) {
    && (forall k :: 0 <= k < |runs| ==> OwnsTurn(runs[k], turns))
    && (forall i, j :: 0 <= i < j < |runs| && runs[i].turn.Some? ==> runs[i].turn != runs[j].turn)
  }

  predicate OwnsTurn(run: TimerRun, turns: map<MissionId, Turn>) {
    && !run.status.RunClaimed?
    && (run.status.RunQueued? <==> run.turn.Some?)
    && (run.turn.Some? ==> run.turn.value in turns && turns[run.turn.value].timer == Some(run.timer))
  }

  ghost predicate Inv(w: World, s: State) {
    InOrder(s.runs, s.now) && Ahead(w, s.timers, s.runs) && Owned(s.runs, s.turns)
  }

  // ---- one record

  /** What tick wants to record is never there already, so its insert is never ignored. */
  lemma TheInsertIsNeverIgnored(w: World, s: State, id: TimerId)
    requires Inv(w, s) && id in s.timers && s.timers[id].nextAt.Some?
    ensures !Recorded(s.runs, id, At(s.timers[id].nextAt.value))
  {
  }

  ghost predicate Acceptable(w: World, s: State, run: TimerRun, timer: Timer) {
    && run.timer in s.timers
    && run.occasion.instant <= s.now
    && Advances(w, timer.schedule)
    && match run.occasion
       case At(due) => s.timers[run.timer].nextAt == Some(due) && Below(run.occasion, timer.nextAt)
       case Manual(_) => timer.nextAt == s.timers[run.timer].nextAt
  }

  lemma RecordKeepsOrder(w: World, s: State, run: TimerRun, timer: Timer)
    requires InOrder(s.runs, s.now) && Ahead(w, s.timers, s.runs) && Acceptable(w, s, run, timer)
    ensures var t := RecordStep(s, run, timer); InOrder(t.runs, t.now) && Ahead(w, t.timers, t.runs)
  {
    hide Advances;
    if !Recorded(s.runs, run.timer, run.occasion) {
      forall k | 0 <= k < |s.runs| && s.runs[k].timer == run.timer ensures Follows(s.runs[k].occasion, run.occasion) {
        assert Below(s.runs[k].occasion, s.timers[run.timer].nextAt);
      }
      var t := RecordStep(s, run, timer);
      forall k | 0 <= k < |t.runs|
        ensures t.runs[k].timer in t.timers && Below(t.runs[k].occasion, t.timers[t.runs[k].timer].nextAt)
      {
        if k < |s.runs| { assert Below(s.runs[k].occasion, s.timers[s.runs[k].timer].nextAt); }
      }
    }
  }

  lemma RecordKeepsOwned(s: State, run: TimerRun, timer: Timer)
    requires Owned(s.runs, s.turns) && OwnsTurn(run, s.turns) && run.turn.None?
    ensures var t := RecordStep(s, run, timer); Owned(t.runs, t.turns)
  {
  }

  lemma ClaimKeepsOwned(s: State, run: TimerRun, timer: Timer, turn: Option<MissionId>)
    requires Owned(s.runs, s.turns)
    ensures var t := ClaimStep(s, run, timer, turn); Owned(t.runs, t.turns)
  {
  }

  lemma ClaimKeepsOrder(w: World, s: State, run: TimerRun, timer: Timer, turn: Option<MissionId>)
    requires InOrder(s.runs, s.now) && Ahead(w, s.timers, s.runs) && Acceptable(w, s, run, timer)
    ensures var t := ClaimStep(s, run, timer, turn); InOrder(t.runs, t.now) && Ahead(w, t.timers, t.runs)
  {
    RecordKeepsOrder(w, s, run.(status := RunQueued, turn := turn), timer);
  }

  /** A record without a turn. */
  lemma RecordKeepsInv(w: World, s: State, run: TimerRun, timer: Timer)
    requires Inv(w, s) && Acceptable(w, s, run, timer)
    requires run.turn.None? && !run.status.RunClaimed? && !run.status.RunQueued?
    ensures Inv(w, RecordStep(s, run, timer))
  {
    hide RecordStep, Acceptable, InOrder, Ahead, Owned;
    RecordKeepsOrder(w, s, run, timer);
    RecordKeepsOwned(s, run, timer);
  }

  lemma ClaimKeepsInv(w: World, s: State, run: TimerRun, timer: Timer, turn: Option<MissionId>)
    requires Inv(w, s) && Acceptable(w, s, run, timer)
    ensures Inv(w, ClaimStep(s, run, timer, turn))
  {
    hide ClaimStep, Acceptable, InOrder, Ahead, Owned;
    ClaimKeepsOrder(w, s, run, timer, turn);
    ClaimKeepsOwned(s, run, timer, turn);
  }

  /** The timer moves on from the occurrence it stands at. */
  lemma MovedIsAcceptable(w: World, s: State, id: TimerId, status: RunStatus, at: int)
    requires Inv(w, s) && id in s.timers && s.timers[id].nextAt.Some? && s.timers[id].nextAt.value <= at
    requires s.timers[id].nextAt.value <= s.now
    ensures Acceptable(w, s, TimerRun(id, At(s.timers[id].nextAt.value), status, None), Moved(w, s.timers[id], at))
  {
    hide NextAfter, InOrder, Owned;
    assert Advances(w, s.timers[id].schedule);
  }

  lemma StoppedIsAcceptable(w: World, s: State, id: TimerId)
    requires Inv(w, s) && id in s.timers && s.timers[id].nextAt.Some? && s.timers[id].nextAt.value <= s.now
    ensures var row := s.timers[id];
      Acceptable(w, s, TimerRun(id, At(row.nextAt.value), RunFailed, None), row.(nextAt := None, enabled := false))
  {
    hide NextAfter, InOrder, Owned;
    assert Advances(w, s.timers[id].schedule);
  }

  lemma LaterKeepsInv(w: World, s: State, ms: nat)
    requires Inv(w, s)
    ensures Inv(w, s.(now := s.now + ms))
  {
  }

  lemma RowKeepsInv(w: World, s: State, id: TimerId, answer: Answer, tickNow: int)
    requires Inv(w, s) && tickNow <= s.now
    requires id in s.timers && s.timers[id].nextAt.Some? ==> s.timers[id].nextAt.value <= tickNow
    ensures Inv(w, RowStep(w, s, id, answer, tickNow))
  {
    if id in s.timers && s.timers[id].nextAt.Some? {
      var row, t := s.timers[id], s.(now := s.now + answer.lag);
      var due := row.nextAt.value;
      hide Inv, Acceptable, RecordStep, ClaimStep, FrequencyIsValid, Moved;
      LaterKeepsInv(w, s, answer.lag);
      if tickNow - due > MISSED_AFTER_MS {
        MovedIsAcceptable(w, t, id, RunMissed, tickNow);
        RecordKeepsInv(w, t, TimerRun(id, At(due), RunMissed, None), Moved(w, row, tickNow));
      } else if !FrequencyIsValid(w, row.schedule, due) {
        StoppedIsAcceptable(w, t, id);
        RecordKeepsInv(w, t, TimerRun(id, At(due), RunFailed, None), row.(nextAt := None, enabled := false));
      } else if PendingOf(s.turns, id) != {} {
        MovedIsAcceptable(w, t, id, RunSkipped, tickNow);
        RecordKeepsInv(w, t, TimerRun(id, At(due), RunSkipped, None), Moved(w, row, tickNow));
      } else {
        MovedIsAcceptable(w, t, id, RunClaimed, t.now);
        ClaimKeepsInv(w, t, TimerRun(id, At(due), RunClaimed, None), Moved(w, row, t.now), answer.turn);
      }
    }
  }

  // ---- one tick

  ghost predicate IsBatch(t: TimerTable, ids: set<TimerId>, due: seq<TimerId>, n: nat)
    requires AllScheduled(t, ids)
  {
    && (forall k :: 0 <= k < |due| ==> due[k] in ids)
    && (forall i, j :: 0 <= i < j < |due| ==> due[i] != due[j] && Sooner(t, due[i], due[j]))
    && |due| <= n
    && (|due| < n ==> forall id :: id in ids ==> id in due)
    && (forall k, id :: 0 <= k < |due| && id in ids && id !in due ==> Sooner(t, due[k], id))
  }

  lemma OneMoreInBatch(t: TimerTable, ids: set<TimerId>, id: TimerId, rest: seq<TimerId>, n: nat)
    requires AllScheduled(t, ids) && IsSoonest(t, ids, id) && n > 0 && IsBatch(t, ids - {id}, rest, n - 1)
    ensures IsBatch(t, ids, [id] + rest, n)
  {
    hide Sooner;
    var due := [id] + rest;
    assert forall k :: 0 < k < |due| ==> due[k] == rest[k - 1] && due[k] in ids - {id};
    forall x | x in ids && x !in due ensures x in ids - {id} && x !in rest {
      assert due[0] == id;
      assert forall k :: 0 <= k < |rest| ==> rest[k] == due[k + 1];
    }
  }

  /** A tick takes the due timers that have waited longest, each once. */
  lemma {:induction false} SoonestIsBatch(t: TimerTable, ids: set<TimerId>, n: nat)
    requires AllScheduled(t, ids)
    ensures IsBatch(t, ids, Soonest(t, ids, n), n)
    decreases n
  {
    if n > 0 && ids != {} {
      SoonestExists(t, ids);
      var due := Soonest(t, ids, n);
      var id, rest := due[0], due[1..];
      assert IsSoonest(t, ids, id) && rest == Soonest(t, ids - {id}, n - 1);
      SoonestIsBatch(t, ids - {id}, n - 1);
      hide IsBatch, IsSoonest, Soonest;
      OneMoreInBatch(t, ids, id, rest, n);
      assert due == [id] + rest;
    }
  }

  ghost predicate HasNew(runs: seq<TimerRun>, from: nat, id: TimerId) {
    exists k :: from <= k < |runs| && runs[k].timer == id
  }

  /** The schedule of the row would run more often than every five minutes, from the occurrence at an instant on. */
  predicate TooOften(w: World, row: StoredSchedule, at: int) {
    match row.kind
    case Interval => Number(row.value) == None || Number(row.value).value < 5
    case Cron =>
      var first := w.cron(row.value, row.timezone, at);
      first == None || w.cron(row.value, row.timezone, first.value + 1) == None
      || w.cron(row.value, row.timezone, first.value + 1).value - first.value < 300_000
    case _ => false
  }

  /** A turn of the timer waits, starts, runs or awaits approval. */
  ghost predicate Busy(turns: map<MissionId, Turn>, id: TimerId) {
    exists m :: m in turns && turns[m].timer == Some(id) &&
                turns[m].status in {Queued, Starting, Running, AwaitingApproval}
  }

  lemma ConditionsInWords(w: World, row: StoredSchedule, at: int, turns: map<MissionId, Turn>, id: TimerId)
    ensures FrequencyIsValid(w, row, at) <==> !TooOften(w, row, at)
    ensures PendingOf(turns, id) != {} <==> Busy(turns, id)
  {
    if Busy(turns, id) {
      var m :| m in turns && turns[m].timer == Some(id)
          && turns[m].status in {Queued, Starting, Running, AwaitingApproval};
      assert m in PendingOf(turns, id);
    }
    if PendingOf(turns, id) != {} {
      var m :| m in PendingOf(turns, id);
      assert turns[m].status in {Queued, Starting, Running, AwaitingApproval};
    }
    hide Number;
  }

  /** What a record of a due timer says, and why: missed by more than an hour; else failed for a schedule that runs too
      often; else skipped for a turn that is pending; and else queued, with a new turn of this timer. */
  ghost predicate Justified(w: World, s: State, run: TimerRun, tickNow: int) {
    && run.timer in s.timers
    && var row := s.timers[run.timer];
    && row.enabled && row.nextAt.Some? && row.nextAt.value <= tickNow && run.occasion == At(row.nextAt.value)
    && run.status == (if tickNow - row.nextAt.value > 3_600_000 then RunMissed
                      else if TooOften(w, row.schedule, row.nextAt.value) then RunFailed
                      else if Busy(s.turns, run.timer) then RunSkipped
                      else RunQueued)
    && (run.turn == None <==> run.status != RunQueued)
    && (run.turn != None ==> run.turn.value !in s.turns)
  }

  /** Where a timer with a new record stands. After a failure, or if it runs once, it is switched off for good. Else it
      stays on, at the first occurrence after the tick, or after the claim of its turn, which lies in the future. */
  ghost predicate MovedOn(w: World, row: Timer, row': Timer, status: RunStatus, tickNow: int, now: int) {
    && row'.schedule == row.schedule && row'.texts == row.texts
    && (row'.nextAt.Some? ==> row'.nextAt.value > tickNow)
    && (status == RunFailed || row.schedule.kind == Once ==> row'.nextAt == None && row'.enabled == false)
    && (status != RunFailed && row.schedule.kind != Once ==> row'.enabled == true)
    && (status == RunMissed || status == RunSkipped ==> row'.nextAt == NextAfter(w, row.schedule, tickNow))
    && (status != RunFailed ==> exists at :: tickNow <= at <= now && row'.nextAt == NextAfter(w, row.schedule, at))
  }

  /** The turn of a queued record waits, and belongs to the timer. */
  predicate HasItsTurn(run: TimerRun, t: State) {
    run.turn != None ==> run.turn.value in t.turns && t.turns[run.turn.value] == Turn(Queued, Some(run.timer))
  }

  /** The tables only grow, and new turns belong to the given timers. */
  ghost predicate Grows(s: State, t: State, due: seq<TimerId>) {
    && t.now >= s.now && t.timers.Keys == s.timers.Keys
    && (forall m :: m in s.turns ==> m in t.turns && t.turns[m] == s.turns[m])
    && (forall m :: m in t.turns && m !in s.turns ==> t.turns[m].timer.Some? && t.turns[m].timer.value in due)
  }

  /** A run was recorded for the occurrence the timer stood at, and the timer moved on; or the turn was refused. */
  ghost predicate RowDone(w: World, s: State, t: State, id: TimerId, answer: Answer, tickNow: int) {
    && Grows(s, t, [id])
    && (forall j :: j in s.timers && j != id ==> t.timers[j] == s.timers[j])
    && ((t.timers == s.timers && t.runs == s.runs && Refused(answer, t))
        || (&& |t.runs| == |s.runs| + 1 && t.runs[..|s.runs|] == s.runs && t.runs[|s.runs|].timer == id
            && Justified(w, s, t.runs[|s.runs|], tickNow) && HasItsTurn(t.runs[|s.runs|], t)
            && MovedOn(w, s.timers[id], t.timers[id], t.runs[|s.runs|].status, tickNow, t.now)))
  }

  predicate Refused(answer: Answer, t: State) {
    answer.turn.None? || answer.turn.value in t.turns
  }

  lemma MovesOn(w: World, row: Timer, at: int, status: RunStatus, tickNow: int)
    requires Advances(w, row.schedule) && tickNow <= at
    requires status == RunQueued || ((status == RunMissed || status == RunSkipped) && at == tickNow)
    ensures MovedOn(w, row, Moved(w, row, at), status, tickNow, at)
  {
    hide NextAfter;
    assert Moved(w, row, at).nextAt == NextAfter(w, row.schedule, at);
    assert row.schedule.kind.Once? ==> NextAfter(w, row.schedule, at).None? by { OnceHasNoNext(w, row.schedule, at); }
  }

  lemma OnceHasNoNext(w: World, row: StoredSchedule, at: int)
    ensures row.kind.Once? ==> NextAfter(w, row, at).None?
  {
  }

  lemma RecordIsDone(w: World, s: State, lag: nat, run: TimerRun, timer: Timer, answer: Answer, tickNow: int)
    requires Justified(w, s, run, tickNow) && run.turn == None && !Recorded(s.runs, run.timer, run.occasion)
    requires MovedOn(w, s.timers[run.timer], timer, run.status, tickNow, s.now + lag)
    ensures RowDone(w, s, RecordStep(s.(now := s.now + lag), run, timer), run.timer, answer, tickNow)
  {
    hide Justified, MovedOn, Recorded;
    assert run.timer in s.timers by { JustifiedIsKnown(w, s, run, tickNow); }
  }

  lemma JustifiedIsKnown(w: World, s: State, run: TimerRun, tickNow: int)
    requires Justified(w, s, run, tickNow)
    ensures run.timer in s.timers
  {
  }

  lemma ClaimIsDone(w: World, s: State, run: TimerRun, timer: Timer, answer: Answer, tickNow: int)
    requires run.timer in s.timers && !Recorded(s.runs, run.timer, run.occasion)
    requires answer.turn.Some? && answer.turn.value !in s.turns ==>
      Justified(w, s, run.(status := RunQueued, turn := answer.turn), tickNow)
    requires MovedOn(w, s.timers[run.timer], timer, RunQueued, tickNow, s.now + answer.lag)
    ensures RowDone(w, s, ClaimStep(s.(now := s.now + answer.lag), run, timer, answer.turn), run.timer, answer, tickNow)
  {
    hide Justified, MovedOn, Recorded;
  }

  predicate IsDue(s: State, id: TimerId, now: int) {
    id in s.timers && s.timers[id].enabled && s.timers[id].nextAt.Some? && s.timers[id].nextAt.value <= now
  }

  lemma MissedIsDone(w: World, s: State, id: TimerId, answer: Answer, tickNow: int)
    requires Inv(w, s) && tickNow <= s.now && IsDue(s, id, tickNow)
    requires tickNow - s.timers[id].nextAt.value > MISSED_AFTER_MS
    ensures RowDone(w, s, RowStep(w, s, id, answer, tickNow), id, answer, tickNow)
  {
    var row := s.timers[id];
    TheInsertIsNeverIgnored(w, s, id);
    ConditionsInWords(w, row.schedule, row.nextAt.value, s.turns, id);
    assert Advances(w, row.schedule);
    hide NextAfter, FrequencyIsValid, Moved, Inv, Recorded, PendingOf, TooOften, Busy, RecordStep, RowDone, MovedOn;
    MovesOn(w, row, tickNow, RunMissed, tickNow);
    MovedOnLater(w, row, Moved(w, row, tickNow), RunMissed, tickNow, tickNow, s.now + answer.lag);
    RecordIsDone(w, s, answer.lag, TimerRun(id, At(row.nextAt.value), RunMissed, None), Moved(w, row, tickNow),
        answer, tickNow);
  }

  lemma FailedIsDone(w: World, s: State, id: TimerId, answer: Answer, tickNow: int)
    requires Inv(w, s) && tickNow <= s.now && IsDue(s, id, tickNow)
    requires tickNow - s.timers[id].nextAt.value <= MISSED_AFTER_MS
    requires !FrequencyIsValid(w, s.timers[id].schedule, s.timers[id].nextAt.value)
    ensures RowDone(w, s, RowStep(w, s, id, answer, tickNow), id, answer, tickNow)
  {
    var row := s.timers[id];
    TheInsertIsNeverIgnored(w, s, id);
    ConditionsInWords(w, row.schedule, row.nextAt.value, s.turns, id);
    hide NextAfter, FrequencyIsValid, Moved, Inv, Recorded, PendingOf, TooOften, Busy, RecordStep, RowDone;
    RecordIsDone(w, s, answer.lag, TimerRun(id, At(row.nextAt.value), RunFailed, None),
                 row.(nextAt := None, enabled := false), answer, tickNow);
  }

  lemma SkippedIsDone(w: World, s: State, id: TimerId, answer: Answer, tickNow: int)
    requires Inv(w, s) && tickNow <= s.now && IsDue(s, id, tickNow)
    requires tickNow - s.timers[id].nextAt.value <= MISSED_AFTER_MS
    requires FrequencyIsValid(w, s.timers[id].schedule, s.timers[id].nextAt.value) && PendingOf(s.turns, id) != {}
    ensures RowDone(w, s, RowStep(w, s, id, answer, tickNow), id, answer, tickNow)
  {
    var row := s.timers[id];
    TheInsertIsNeverIgnored(w, s, id);
    ConditionsInWords(w, row.schedule, row.nextAt.value, s.turns, id);
    assert Advances(w, row.schedule);
    hide NextAfter, FrequencyIsValid, Moved, Inv, Recorded, PendingOf, TooOften, Busy, RecordStep, RowDone, MovedOn;
    MovesOn(w, row, tickNow, RunSkipped, tickNow);
    MovedOnLater(w, row, Moved(w, row, tickNow), RunSkipped, tickNow, tickNow, s.now + answer.lag);
    RecordIsDone(w, s, answer.lag, TimerRun(id, At(row.nextAt.value), RunSkipped, None), Moved(w, row, tickNow),
        answer, tickNow);
  }

  lemma ClaimedIsDone(w: World, s: State, id: TimerId, answer: Answer, tickNow: int)
    requires Inv(w, s) && tickNow <= s.now && IsDue(s, id, tickNow)
    requires tickNow - s.timers[id].nextAt.value <= MISSED_AFTER_MS
    requires FrequencyIsValid(w, s.timers[id].schedule, s.timers[id].nextAt.value) && PendingOf(s.turns, id) == {}
    ensures RowDone(w, s, RowStep(w, s, id, answer, tickNow), id, answer, tickNow)
  {
    var row := s.timers[id];
    TheInsertIsNeverIgnored(w, s, id);
    ConditionsInWords(w, row.schedule, row.nextAt.value, s.turns, id);
    assert Advances(w, row.schedule);
    hide NextAfter, FrequencyIsValid, Moved, Inv, Recorded, PendingOf, TooOften, Busy, ClaimStep, RowDone, MovedOn;
    MovesOn(w, row, s.now + answer.lag, RunQueued, tickNow);
    ClaimIsDone(w, s, TimerRun(id, At(row.nextAt.value), RunClaimed, None), Moved(w, row, s.now + answer.lag),
        answer, tickNow);
  }

  lemma RowIsDone(w: World, s: State, id: TimerId, answer: Answer, tickNow: int)
    requires Inv(w, s) && tickNow <= s.now && IsDue(s, id, tickNow)
    ensures RowDone(w, s, RowStep(w, s, id, answer, tickNow), id, answer, tickNow)
  {
    hide Inv, FrequencyIsValid, PendingOf, RowStep, RowDone;
    var row := s.timers[id];
    if tickNow - row.nextAt.value > MISSED_AFTER_MS {
      MissedIsDone(w, s, id, answer, tickNow);
    } else if !FrequencyIsValid(w, row.schedule, row.nextAt.value) {
      FailedIsDone(w, s, id, answer, tickNow);
    } else if PendingOf(s.turns, id) != {} {
      SkippedIsDone(w, s, id, answer, tickNow);
    } else {
      ClaimedIsDone(w, s, id, answer, tickNow);
    }
  }

  /** What a tick leaves: the records that were there, then one new record at most for each timer of the batch, each
      with its reason; a timer with a new record has moved on, any other is as it was, and one of the batch only because
      its turn was refused. */
  ghost predicate TickDone(w: World, s: State, t: State, due: seq<TimerId>, answers: seq<Answer>, tickNow: int) {
    Grows(s, t, due) && RecordsDone(w, s, t, due, tickNow) && OthersStay(s, t, due, answers)
  }

  ghost predicate RecordsDone(w: World, s: State, t: State, due: seq<TimerId>, tickNow: int) {
    && |t.runs| >= |s.runs| && t.runs[..|s.runs|] == s.runs
    && (forall k :: |s.runs| <= k < |t.runs| ==> NewRecord(w, s, t, t.runs[k], due, tickNow))
  }

  ghost predicate OthersStay(s: State, t: State, due: seq<TimerId>, answers: seq<Answer>) {
    && t.timers.Keys == s.timers.Keys
    && (forall id :: id in s.timers && !HasNew(t.runs, |s.runs|, id) ==> t.timers[id] == s.timers[id])
    && (forall k :: 0 <= k < |due| && !HasNew(t.runs, |s.runs|, due[k]) ==> Refused(AnswerOf(answers, k), t))
  }

  ghost predicate NewRecord(w: World, s: State, t: State, run: TimerRun, due: seq<TimerId>, tickNow: int) {
    && run.timer in due && run.timer in s.timers && run.timer in t.timers
    && Justified(w, s, run, tickNow)
    && MovedOn(w, s.timers[run.timer], t.timers[run.timer], run.status, tickNow, t.now)
    && HasItsTurn(run, t)
  }

  lemma NotYetDone(w: World, s: State, u: State, due: seq<TimerId>, answers: seq<Answer>, id: TimerId, tickNow: int)
    requires TickDone(w, s, u, due, answers, tickNow) && id !in due
    ensures !HasNew(u.runs, |s.runs|, id)
    ensures PendingOf(u.turns, id) == PendingOf(s.turns, id)
  {
    hide Justified, MovedOn;
  }

  lemma JustifiedBefore(w: World, s: State, u: State, run: TimerRun, tickNow: int)
    requires Justified(w, u, run, tickNow)
    requires run.timer in s.timers && run.timer in u.timers && s.timers[run.timer] == u.timers[run.timer]
    requires PendingOf(u.turns, run.timer) == PendingOf(s.turns, run.timer) && s.turns.Keys <= u.turns.Keys
    ensures Justified(w, s, run, tickNow)
  {
    ConditionsInWords(w, s.timers[run.timer].schedule, tickNow, s.turns, run.timer);
    ConditionsInWords(w, s.timers[run.timer].schedule, tickNow, u.turns, run.timer);
    hide TooOften, Busy, FrequencyIsValid, PendingOf;
  }

  lemma MovedOnLater(w: World, row: Timer, row': Timer, status: RunStatus, tickNow: int, now: int, later: int)
    requires MovedOn(w, row, row', status, tickNow, now) && now <= later
    ensures MovedOn(w, row, row', status, tickNow, later)
  {
  }

  lemma GrowsMore(s: State, u: State, t: State, due: seq<TimerId>, id: TimerId)
    requires Grows(s, u, due) && Grows(u, t, [id])
    ensures Grows(s, t, due + [id])
  {
  }

  lemma OneMoreRecord(w: World, s: State, u: State, t: State, due: seq<TimerId>, id: TimerId, answer: Answer,
      tickNow: int)
    requires RecordsDone(w, s, u, due, tickNow) && RowDone(w, u, t, id, answer, tickNow)
    requires id !in due && id in s.timers && id in u.timers && u.timers[id] == s.timers[id]
    requires PendingOf(u.turns, id) == PendingOf(s.turns, id) && s.turns.Keys <= u.turns.Keys
    ensures RecordsDone(w, s, t, due + [id], tickNow)
  {
    assert u.now <= t.now && t.timers.Keys == u.timers.Keys;
    assert forall m :: m in u.turns ==> m in t.turns && t.turns[m] == u.turns[m];
    hide Justified, MovedOn, PendingOf, Grows, Refused;
    assert t.runs[..|u.runs|] == u.runs;
    assert t.runs[..|s.runs|] == u.runs[..|s.runs|];
    forall k | |s.runs| <= k < |t.runs| ensures NewRecord(w, s, t, t.runs[k], due + [id], tickNow) {
      if k < |u.runs| {
        var run := u.runs[k];
        assert t.runs[k] == run && NewRecord(w, s, u, run, due, tickNow);
        assert t.timers[run.timer] == u.timers[run.timer];
        MovedOnLater(w, s.timers[run.timer], u.timers[run.timer], run.status, tickNow, u.now, t.now);
      } else {
        JustifiedBefore(w, s, u, t.runs[k], tickNow);
      }
    }
  }

  lemma OneMoreStays(s: State, u: State, t: State, due: seq<TimerId>, id: TimerId, answers: seq<Answer>)
    requires OthersStay(s, u, due, answers) && |s.runs| <= |u.runs| <= |t.runs| && t.runs[..|u.runs|] == u.runs
    requires t.timers.Keys == u.timers.Keys && u.turns.Keys <= t.turns.Keys
    requires forall j :: j in u.timers && j != id ==> t.timers[j] == u.timers[j]
    requires HasNew(t.runs, |s.runs|, id) || (t.timers == u.timers && Refused(AnswerOf(answers, |due|), t))
    ensures OthersStay(s, t, due + [id], answers)
  {
    hide AnswerOf;
    forall j | HasNew(u.runs, |s.runs|, j) ensures HasNew(t.runs, |s.runs|, j) {
      var k :| |s.runs| <= k < |u.runs| && u.runs[k].timer == j;
      assert t.runs[k] == t.runs[..|u.runs|][k];
    }
    hide HasNew;
    forall k | 0 <= k < |due| + 1 && !HasNew(t.runs, |s.runs|, (due + [id])[k])
      ensures Refused(AnswerOf(answers, k), t)
    {
      if k < |due| { assert (due + [id])[k] == due[k]; }
    }
  }

  lemma OneMoreRow(w: World, s: State, u: State, t: State, due: seq<TimerId>, id: TimerId, answers: seq<Answer>,
                   tickNow: int)
    requires TickDone(w, s, u, due, answers, tickNow) && id !in due && id in s.timers
    requires RowDone(w, u, t, id, AnswerOf(answers, |due|), tickNow)
    ensures TickDone(w, s, t, due + [id], answers, tickNow)
  {
    NotYetDone(w, s, u, due, answers, id, tickNow);
    GrowsMore(s, u, t, due, id);
    OneMoreRecord(w, s, u, t, due, id, AnswerOf(answers, |due|), tickNow);
    if |t.runs| > |u.runs| { assert t.runs[|u.runs|].timer == id && HasNew(t.runs, |s.runs|, id); }
    hide Justified, MovedOn, PendingOf, RecordsDone;
    assert t.runs[..|u.runs|] == u.runs;
    OneMoreStays(s, u, t, due, id, answers);
  }

  lemma {:induction false} RowsAreDone(w: World, s: State, due: seq<TimerId>, n: nat, answers: seq<Answer>,
      tickNow: int)
    requires Inv(w, s) && tickNow <= s.now && n <= |due|
    requires forall i, j :: 0 <= i < j < |due| ==> due[i] != due[j]
    requires forall k :: 0 <= k < |due| ==> IsDue(s, due[k], tickNow)
    ensures var t := TickRows(w, s, due, n, answers, tickNow);
      Inv(w, t) && TickDone(w, s, t, due[..n], answers, tickNow)
    decreases n
  {
    hide Inv, RowStep, Justified, MovedOn;
    if n == 0 {
      assert s.runs[..|s.runs|] == s.runs;
    } else {
      var u := TickRows(w, s, due, n - 1, answers, tickNow);
      var id, answer := due[n - 1], AnswerOf(answers, n - 1);
      RowsAreDone(w, s, due, n - 1, answers, tickNow);
      OneMoreOfBatch(due, n);
      NotYetDone(w, s, u, due[..n - 1], answers, id, tickNow);
      assert u.timers[id] == s.timers[id];
      RowKeepsInv(w, u, id, answer, tickNow);
      RowIsDone(w, u, id, answer, tickNow);
      hide TickDone, RowDone;
      OneMoreRow(w, s, u, RowStep(w, u, id, answer, tickNow), due[..n - 1], id, answers, tickNow);
    }
  }

  lemma OneMoreOfBatch(due: seq<TimerId>, n: nat)
    requires 0 < n <= |due| && forall i, j :: 0 <= i < j < |due| ==> due[i] != due[j]
    ensures due[n - 1] !in due[..n - 1] && due[..n] == due[..n - 1] + [due[n - 1]]
  {
  }

  /** A tick after any time of not running records one run at most for each timer, under the occurrence it stood at,
      and takes it past the present; only a timer whose turn was refused stays where it was. */
  lemma ATickMovesOn(w: World, s: State, answers: seq<Answer>)
    requires Inv(w, s)
    ensures var t := TickStep(w, s, answers);
      Inv(w, t) && TickDone(w, s, t, Batch(s.timers, s.now), answers, s.now)
  {
    var due := Batch(s.timers, s.now);
    SoonestIsBatch(s.timers, DueTimers(s.timers, s.now), TICK_LIMIT);
    assert forall k :: 0 <= k < |due| ==> due[k] in DueTimers(s.timers, s.now);
    hide Inv, TickDone, TickRows;
    RowsAreDone(w, s, due, |due|, answers, s.now);
    assert due[..|due|] == due;
  }

  /** In a tick no timer gets two records. */
  lemma OneRecordPerTick(w: World, s: State, answers: seq<Answer>, i: nat, j: nat)
    requires Inv(w, s)
    requires var t := TickStep(w, s, answers); |s.runs| <= i < j < |t.runs|
    ensures TickStep(w, s, answers).runs[i].timer != TickStep(w, s, answers).runs[j].timer
  {
    ATickMovesOn(w, s, answers);
    hide TickStep, MovedOn;
    var t, due := TickStep(w, s, answers), Batch(s.timers, s.now);
    assert NewRecord(w, s, t, t.runs[i], due, s.now) && NewRecord(w, s, t, t.runs[j], due, s.now);
  }

  // ---- every step, every run

  /** Deleting a timer deletes its records and keeps the others in their order. */
  lemma {:induction false} WithoutKeeps(w: World, s: State, runs: seq<TimerRun>, id: TimerId)
    requires InOrder(runs, s.now) && Owned(runs, s.turns)
    ensures var rest := Without(runs, id);
      && InOrder(rest, s.now) && Owned(rest, s.turns)
      && (forall k :: 0 <= k < |rest| ==> rest[k] in runs && rest[k].timer != id)
    decreases |runs|
  {
    if runs != [] {
      var before, last := runs[..|runs| - 1], runs[|runs| - 1];
      WithoutKeeps(w, s, before, id);
      var rest := Without(before, id);
      forall k | 0 <= k < |rest| ensures rest[k] in runs && Precedes(rest[k], last) {
        assert rest[k] in before;
        var i :| 0 <= i < |before| && before[i] == rest[k];
        assert runs[i] == before[i];
        assert Precedes(runs[i], runs[|runs| - 1]);
      }
      assert OwnsTurn(last, s.turns) && last in runs && last.occasion.instant <= s.now;
      WithLast(s, rest, last);
    }
  }

  predicate Precedes(run: TimerRun, last: TimerRun) {
    && (run.timer == last.timer ==> Follows(run.occasion, last.occasion))
    && (run.turn.Some? ==> run.turn != last.turn)
  }

  lemma WithLast(s: State, runs: seq<TimerRun>, last: TimerRun)
    requires InOrder(runs, s.now) && Owned(runs, s.turns) && OwnsTurn(last, s.turns) && last.occasion.instant <= s.now
    requires forall k :: 0 <= k < |runs| ==> Precedes(runs[k], last)
    ensures InOrder(runs + [last], s.now) && Owned(runs + [last], s.turns)
  {
    hide Follows, OwnsTurn;
    var all := runs + [last];
    assert forall k :: 0 <= k < |runs| ==> all[k] == runs[k] && Precedes(all[k], last);
    assert all[|runs|] == last;
  }

  lemma RemoveKeepsInv(w: World, s: State, id: TimerId)
    requires Inv(w, s)
    ensures Inv(w, RemoveStep(s, id))
  {
    hide Advances, Below;
    WithoutKeeps(w, s, s.runs, id);
    var t := RemoveStep(s, id);
    forall k | 0 <= k < |t.runs|
      ensures t.runs[k].timer in t.timers && Below(t.runs[k].occasion, t.timers[t.runs[k].timer].nextAt)
    {
      assert t.runs[k] in s.runs && t.runs[k].timer != id;
    }
  }

  lemma SaveKeepsInv(w: World, s: State, id: TimerId, input: TimerInput, enabled: bool)
    requires Inv(w, s) && StrictlyLater(w)
    ensures Inv(w, SaveStep(w, s, id, input, enabled))
  {
    if ValidInput(w, input, s.now) {
      forall t ensures NextAfter(w, Store(input), t).Some? ==> NextAfter(w, Store(input), t).value > t {
        StoredAdvances(w, input, t);
      }
      assert Advances(w, Store(input));
      if !input.kind.Once? { NextRunIsLater(w, input, s.now); }
      assert NextRun(w, input, s.now).Some? ==> NextRun(w, input, s.now).value > s.now;
      hide NextRun, NextAfter, Store, Advances, ValidInput;
    }
  }

  lemma RunNowKeepsInv(w: World, s: State, id: TimerId, answer: Answer)
    requires Inv(w, s)
    ensures Inv(w, RunNowStep(s, id, answer))
  {
    if id in s.timers && PendingOf(s.turns, id) == {} {
      var t := s.(now := s.now + answer.lag);
      var run := TimerRun(id, Manual(s.now), RunClaimed, None);
      assert Inv(w, t);
      ClaimKeepsOrder(w, t, run, s.timers[id], answer.turn);
      ClaimKeepsOwned(t, run, s.timers[id], answer.turn);
      hide ClaimStep, InOrder, Ahead, Owned;
    }
  }

  lemma InvKept(w: World, s: State, e: Event)
    requires Inv(w, s) && StrictlyLater(w)
    ensures Inv(w, Step(w, s, e))
  {
    hide TickStep, RemoveStep, SaveStep, RunNowStep, Advances, StrictlyLater;
    match e
    case Created(id, input, enabled) => SaveKeepsInv(w, s, id, input, enabled);
    case Updated(id, patch) =>
      if id in s.timers {
        SaveKeepsInv(w, s, id, Merged(s.timers[id], patch), OrElse(patch.enabled, s.timers[id].enabled));
      }
    case Removed(id) => RemoveKeepsInv(w, s, id);
    case RunNow(id, answer) => RunNowKeepsInv(w, s, id, answer);
    case Ticked(answers) => ATickMovesOn(w, s, answers);
    case OtherTurn(_) =>
    case TurnChanged(_, _) =>
    case Passed(_) =>
  }

  lemma {:induction false} InvInEveryRun(w: World, s: State, es: seq<Event>)
    requires Inv(w, s) && StrictlyLater(w)
    ensures Inv(w, Run(w, s, es))
    decreases |es|
  {
    if es != [] {
      InvKept(w, s, es[0]);
      hide Inv, Step;
      InvInEveryRun(w, Step(w, s, es[0]), es[1..]);
    }
  }

  /** In every run the automatic occurrences recorded for a timer strictly increase and its next run lies above all of
      them; no occasion has two records, and none is left claimed. */
  lemma OccurrencesIncrease(w: World, now: int, es: seq<Event>)
    requires StrictlyLater(w)
    ensures var s := Run(w, Empty(now), es);
      && (forall i, j :: 0 <= i < j < |s.runs| && s.runs[i].timer == s.runs[j].timer ==>
        && s.runs[i].occasion != s.runs[j].occasion
        && (s.runs[i].occasion.At? && s.runs[j].occasion.At? ==>
            s.runs[i].occasion.instant < s.runs[j].occasion.instant))
      && (forall k :: 0 <= k < |s.runs| ==>
        && !s.runs[k].status.RunClaimed?
        && s.runs[k].timer in s.timers
        && (s.runs[k].occasion.At? && s.timers[s.runs[k].timer].nextAt.Some? ==>
          s.runs[k].occasion.instant < s.timers[s.runs[k].timer].nextAt.value))
  {
    InvInEveryRun(w, Empty(now), es);
    hide Run, StrictlyLater, Advances;
    var s := Run(w, Empty(now), es);
    assert forall k :: 0 <= k < |s.runs| ==> OwnsTurn(s.runs[k], s.turns);
    assert forall i, j :: 0 <= i < j < |s.runs| && s.runs[i].timer == s.runs[j].timer ==>
      Follows(s.runs[i].occasion, s.runs[j].occasion);
  }

  // ---- overlap

  /** Each timer owns at most one pending turn. */
  ghost predicate NoOverlap(turns: map<MissionId, Turn>) {
    forall i, j :: i in turns && j in turns && turns[i].timer == turns[j].timer && Owes(turns[i]) && Owes(turns[j]) ==>
      i == j
  }

  predicate Owes(turn: Turn) {
    turn.timer.Some? && Pending(turn.status)
  }

  /** A turn of a timer that is not pending any more becomes so again although the timer has another one. */
  predicate Revives(s: State, e: Event) {
    && e.TurnChanged? && e.turn in s.turns && s.turns[e.turn].timer.Some?
    && !Pending(s.turns[e.turn].status) && Pending(e.status)
    && PendingOf(s.turns, s.turns[e.turn].timer.value) != {}
  }

  lemma ClaimKeepsNoOverlap(s: State, run: TimerRun, timer: Timer, turn: Option<MissionId>)
    requires NoOverlap(s.turns) && PendingOf(s.turns, run.timer) == {}
    ensures NoOverlap(ClaimStep(s, run, timer, turn).turns)
  {
    forall m | m in s.turns && s.turns[m].timer == Some(run.timer) ensures !Pending(s.turns[m].status) {
      assert m !in PendingOf(s.turns, run.timer);
    }
  }

  lemma RowKeepsNoOverlap(w: World, s: State, id: TimerId, answer: Answer, tickNow: int)
    requires NoOverlap(s.turns)
    ensures NoOverlap(RowStep(w, s, id, answer, tickNow).turns)
  {
    if id in s.timers && s.timers[id].nextAt.Some? && PendingOf(s.turns, id) == {} {
      var t := s.(now := s.now + answer.lag);
      var run := TimerRun(id, At(s.timers[id].nextAt.value), RunClaimed, None);
      ClaimKeepsNoOverlap(t, run, Moved(w, s.timers[id], t.now), answer.turn);
      hide ClaimStep, NoOverlap;
    }
  }

  lemma {:induction false} RowsKeepNoOverlap(w: World, s: State, due: seq<TimerId>, n: nat, answers: seq<Answer>,
                                             tickNow: int)
    requires NoOverlap(s.turns) && n <= |due|
    ensures NoOverlap(TickRows(w, s, due, n, answers, tickNow).turns)
  {
    hide NoOverlap, RowStep;
    if n > 0 {
      RowsKeepNoOverlap(w, s, due, n - 1, answers, tickNow);
      var u := TickRows(w, s, due, n - 1, answers, tickNow);
      RowKeepsNoOverlap(w, u, due[n - 1], AnswerOf(answers, n - 1), tickNow);
    }
  }

  lemma ChangeAndOverlap(s: State, m: MissionId, status: Status)
    requires NoOverlap(s.turns) && m in s.turns
    ensures NoOverlap(s.turns[m := s.turns[m].(status := status)]) <==> !Revives(s, TurnChanged(m, status))
  {
    var turns := s.turns[m := s.turns[m].(status := status)];
    if Revives(s, TurnChanged(m, status)) {
      var j :| j in PendingOf(s.turns, s.turns[m].timer.value);
      assert Owes(turns[m]) && Owes(turns[j]);
    } else if s.turns[m].timer.Some? && Pending(status) && !Pending(s.turns[m].status) {
      forall j | j in s.turns && s.turns[j].timer == s.turns[m].timer ensures !Pending(s.turns[j].status) {
        assert j !in PendingOf(s.turns, s.turns[m].timer.value);
      }
    }
  }

  /** Work of one timer overlaps after a step exactly if the step makes a turn pending again whose timer has another
      pending one. */
  lemma OverlapStep(w: World, s: State, e: Event)
    requires NoOverlap(s.turns)
    ensures NoOverlap(Step(w, s, e).turns) <==> !Revives(s, e)
  {
    match e
    case RunNow(id, answer) =>
      if id in s.timers && PendingOf(s.turns, id) == {} {
        var t := s.(now := s.now + answer.lag);
        ClaimKeepsNoOverlap(t, TimerRun(id, Manual(s.now), RunClaimed, None), s.timers[id], answer.turn);
        hide ClaimStep, NoOverlap;
      }
    case Ticked(answers) =>
      var due := Batch(s.timers, s.now);
      RowsKeepNoOverlap(w, s, due, |due|, answers, s.now);
      hide NoOverlap;
    case TurnChanged(m, status) => if m in s.turns { ChangeAndOverlap(s, m, status); }
    case _ => 
  }

  ghost predicate NeverRevives(w: World, s: State, es: seq<Event>)
    decreases |es|
  {
    es == [] || (!Revives(s, es[0]) && NeverRevives(w, Step(w, s, es[0]), es[1..]))
  }

  /** In a run of ticks, Run-now calls and turns that only move on, no timer ever owns two pending turns. */
  lemma {:induction false} NoOverlapInRuns(w: World, s: State, es: seq<Event>)
    requires NoOverlap(s.turns) && NeverRevives(w, s, es)
    ensures NoOverlap(Run(w, s, es).turns)
    decreases |es|
  {
    if es != [] {
      OverlapStep(w, s, es[0]);
      hide Step, NoOverlap, Revives;
      NoOverlapInRuns(w, Step(w, s, es[0]), es[1..]);
    }
  }

  lemma RunUnfolds(w: World, s: State, e: Event, es: seq<Event>)
    ensures Run(w, s, [e] + es) == Run(w, Step(w, s, e), es)
  {
    assert ([e] + es)[1..] == es;
  }

  /** The events of the exception: a run is stopped, the user runs the timer again and then resumes the stopped turn. */
  lemma AResumedTurnOverlaps(w: World)
    requires w.knowsZone("UTC")
    ensures var hour := TimerInput(Texts("a", "b"), Interval, NO_FIELDS.(intervalMinutes := Some(60)), "UTC");
      var es := [Created(0, hour, true)] + ([RunNow(0, Answer(Some(0), 0))] + ([TurnChanged(0,
          Interrupted)] + ([Passed(1)] +
                ([RunNow(0, Answer(Some(1), 0))] + ([TurnChanged(0, Queued)] + [])))));
      PendingOf(Run(w, Empty(0), es).turns, 0) == {0, 1}
  {
    var hour := TimerInput(Texts("a", "b"), Interval, NO_FIELDS.(intervalMinutes := Some(60)), "UTC");
    var timer := Timer(hour.texts, Store(hour), true, NextRun(w, hour, 0));
    var first, second := TimerRun(0, Manual(0), RunQueued, Some(0)), TimerRun(0, Manual(1), RunQueued, Some(1));
    var s1 := State(map[0 := timer], [], map[], 0);
    var s2 := State(map[0 := timer], [first], map[0 := Turn(Queued, Some(0))], 0);
    var s4 := State(map[0 := timer], [first], map[0 := Turn(Interrupted, Some(0))], 1);
    var s5 := State(map[0 := timer], [first, second], map[0 := Turn(Interrupted, Some(0)), 1 := Turn(Queued,
        Some(0))], 1);
    assert Step(w, Empty(0), Created(0, hour, true)) == s1;
    hide Store, NextRun;
    assert Step(w, s1, RunNow(0, Answer(Some(0), 0))) == s2;
    assert Step(w, Step(w, s2, TurnChanged(0, Interrupted)), Passed(1)) == s4;
    assert Step(w, s4, RunNow(0, Answer(Some(1), 0))) == s5 by {
      assert PendingOf(s4.turns, 0) == {};
      assert !Recorded(s4.runs, 0, Manual(1));
    }
    var e6 := [TurnChanged(0, Queued)] + [];
    var e5 := [RunNow(0, Answer(Some(1), 0))] + e6;
    var e4 := [Passed(1)] + e5;
    var e3 := [TurnChanged(0, Interrupted)] + e4;
    var e2 := [RunNow(0, Answer(Some(0), 0))] + e3;
    var s6 := Step(w, s5, TurnChanged(0, Queued));
    assert PendingOf(s6.turns, 0) == {0, 1};
    hide Step, Run, PendingOf;
    RunUnfolds(w, Empty(0), Created(0, hour, true), e2);
    RunUnfolds(w, s1, RunNow(0, Answer(Some(0), 0)), e3);
    RunUnfolds(w, s2, TurnChanged(0, Interrupted), e4);
    RunUnfolds(w, Step(w, s2, TurnChanged(0, Interrupted)), Passed(1), e5);
    RunUnfolds(w, s4, RunNow(0, Answer(Some(1), 0)), e6);
    RunUnfolds(w, s5, TurnChanged(0, Queued), []);
    assert Run(w, s6, []) == s6 by { NothingRuns(w, s6); }
  }

  lemma NothingRuns(w: World, s: State)
    ensures Run(w, s, []) == s
  {
  }

  // ---- switching a timer off and on

  /** toggle: update with nothing but the switch. */
  function Toggle(row: Timer): Patch {
    Patch(None, None, None, NO_FIELDS, None, Some(!row.enabled))
  }

  /** A row as create or update wrote it. */
  predicate WrittenFrom(row: Timer, input: TimerInput) {
    && input.texts.name != "" && input.texts.prompt != "" && ValidFields(input.kind, input.fields)
    && row.texts == input.texts && row.schedule == Store(input)
  }

  /** The switch changes neither the texts nor the schedule of a timer. It is refused exactly for a timezone that is not
      known any more, a single run that is over, and a cron expression that no longer passes. A recurring timer that is
      switched on runs next when its row says so after this moment. */
  lemma ToggleKeepsTheSchedule(w: World, s: State, id: TimerId, input: TimerInput)
    requires id in s.timers && WrittenFrom(s.timers[id], input)
    ensures var row := s.timers[id];
      var row' := UpdateStep(w, s, id, Toggle(row)).timers[id];
      && row'.texts == row.texts && row'.schedule == row.schedule
      && (row'.enabled != row.enabled <==>
        && w.knowsZone(input.timezone)
        && (input.kind.Once? ==> FutureDate(w, input.fields, s.now))
        && (input.kind.Cron? ==> CronAccepted(w, input.fields.cronExpression.value, input.timezone, s.now)))
      && (row'.enabled == row.enabled ==> row' == row)
      && (row'.enabled && !row.enabled && !input.kind.Once? ==> row'.nextAt == NextAfter(w, row.schedule, s.now))
      && (!row'.enabled && row.enabled ==> row'.nextAt.None?)
  {
    var row := s.timers[id];
    var again := Merged(row, Toggle(row));
    DecodeRestores(input);
    SavingAgainKeepsTheText(input);
    assert again == input.(fields := DecodeSchedule(Store(input)));
    if !input.kind.Once? { EvaluatorsAgree(w, again, s.now); }
    hide NextRun, NextAfter, Store, DecodeSchedule, CronAccepted, ValidTime, PartCount;
  }
}
