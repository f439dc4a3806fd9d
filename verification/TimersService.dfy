/** The scheduler as the class that holds it. A transaction is a method that leaves the tables as they were when the
    code inside throws. */
module TimersServiceModel {
  import opened Records
  import opened Schedules
  import opened Timers
  import opened TimerProofs

  class TimersService {
    var timers: TimerTable
    var runs: seq<TimerRun>
    var turns: map<MissionId, Turn>
    var now: int                   // the clock
    var ticking: bool

    ghost function View(): State
      reads this
    {
      State(timers, runs, turns, now)
    }

    /** SELECT 1 FROM missions WHERE timer_id = ? AND status IN the pending ones. */
    method TimerHasPendingWork(id: TimerId) returns (pending: bool)
      ensures pending <==> PendingOf(turns, id) != {}
    {
      pending := (set m | m in turns && turns[m].timer == Some(id) && Pending(turns[m].status)) != {};
      assert (set m | m in turns && turns[m].timer == Some(id) && Pending(turns[m].status)) == PendingOf(turns, id);
    }

    /** The unique index over the timer and its occasion. */
    method IsRecorded(id: TimerId, occasion: Occasion) returns (found: bool)
      ensures found <==> Recorded(runs, id, occasion)
    {
      for k := 0 to |runs|
        invariant forall j :: 0 <= j < k ==> !(runs[j].timer == id && runs[j].occasion == occasion)
      {
        if runs[k].timer == id && runs[k].occasion == occasion { return true; }
      }
      return false;
    }

    /** markMissed and recordWithoutTurn. */
    method Record(run: TimerRun, timer: Timer)
      modifies this`runs, this`timers
      ensures View() == RecordStep(old(View()), run, timer)
    {
      var ignored := IsRecorded(run.timer, run.occasion);
      if ignored { return; }
      runs := runs + [run];
      timers := timers[run.timer := timer];
    }

    /** Insert the claim, create the turn, complete the record and move the timer; all of it or nothing. */
    method ClaimAndQueue(id: TimerId, row: Timer, occasion: Occasion, manual: bool, w: World, turn: Option<MissionId>)
      modifies this`runs, this`timers, this`turns
      ensures View() == ClaimStep(old(View()), TimerRun(id, occasion, RunClaimed, None),
                                  if manual && id in old(timers) then old(timers)[id] else Moved(w, row, now), turn)
    {
      var before := runs;
      var ignored := IsRecorded(id, occasion);
      if ignored { return; }
      var claim := |runs|;
      runs := runs + [TimerRun(id, occasion, RunClaimed, None)];
      if turn.None? || turn.value in turns {
        runs := before;            // create throws: rollback
        return;
      }
      turns := turns[turn.value := Turn(Queued, Some(id))];
      runs := runs[claim := runs[claim].(status := RunQueued, turn := turn)];
      assert runs == before + [TimerRun(id, occasion, RunQueued, turn)];
      if manual && id in timers {
        assert timers == timers[id := timers[id]];
        return;
      }
      var next := NextAfter(w, row.schedule, now);
      timers := timers[id := row.(nextAt := next, enabled := !row.schedule.kind.Once?)];
    }

    method SelectSoonest(ids: set<TimerId>) returns (id: TimerId)
      requires AllScheduled(timers, ids) && ids != {}
      ensures IsSoonest(timers, ids, id)
    {
      SoonestExists(timers, ids);
      hide Sooner;
      id :| id in ids && IsSoonest(timers, ids, id);
    }

    /** The rows that a tick looks at, soonest first. */
    method SelectDue() returns (due: seq<TimerId>)
      ensures due == Batch(timers, now)
    {
      var ids := DueTimers(timers, now);
      due := [];
      var n := TICK_LIMIT;
      assert AllScheduled(timers, ids) && Batch(timers, now) == Soonest(timers, ids, n);
      hide IsSoonest, Soonest, Batch, DueTimers;
      while n > 0 && ids != {}
        invariant AllScheduled(timers, ids)
        invariant Batch(timers, now) == due + Soonest(timers, ids, n)
        decreases n
      {
        var id := SelectSoonest(ids);
        OnlyOneIsSoonest(timers, ids, id, n);
        Regroup(due, id, Soonest(timers, ids - {id}, n - 1));
        due, ids, n := due + [id], ids - {id}, n - 1;
      }
      NoneLeft(timers, ids, n);
    }

    /** One round of the loop of tick, on the row as it was read. */
    method TickRow(w: World, id: TimerId, row: Timer, answer: Answer, tickNow: int)
      requires id in timers && timers[id] == row && row.nextAt.Some?
      modifies this
      ensures View() == RowStep(w, old(View()), id, answer, tickNow)
      ensures ticking == old(ticking)
    {
      hide FrequencyIsValid, NextAfter, Recorded, PendingOf;
      var due := row.nextAt.value;
      now := now + answer.lag;
      if tickNow - due > MISSED_AFTER_MS {
        Record(TimerRun(id, At(due), RunMissed, None), Moved(w, row, tickNow));
        return;
      }
      if !FrequencyIsValid(w, row.schedule, due) {
        Record(TimerRun(id, At(due), RunFailed, None), row.(nextAt := None, enabled := false));
        return;
      }
      var overlap := TimerHasPendingWork(id);
      if overlap {
        Record(TimerRun(id, At(due), RunSkipped, None), Moved(w, row, tickNow));
        return;
      }
      ClaimAndQueue(id, row, At(due), false, w, answer.turn);
    }

    /** A tick has no await, so the flag never stops one. */
    method Tick(w: World, answers: seq<Answer>)
      modifies this
      ensures View() == if old(ticking) then old(View()) else Step(w, old(View()), Ticked(answers))
      ensures ticking == old(ticking)
    {
      if ticking { return; }
      ticking := true;
      var tickNow := now;
      var due := SelectDue();
      BatchIsDistinct(timers, now);
      hide Batch, RowStep;
      var rows := timers;
      for k := 0 to |due|
        invariant View() == TickRows(w, old(View()), due, k, answers, tickNow)
        invariant forall j :: k <= j < |due| ==> due[j] in timers && due[j] in rows && timers[due[j]] == rows[due[j]]
        invariant ticking
      {
        ghost var before := View();
        TickRow(w, due[k], rows[due[k]], AnswerOf(answers, k), tickNow);
        RowLeavesOthers(w, before, due[k], AnswerOf(answers, k), tickNow);
      }
      ticking := false;
    }

    method RunNow(id: TimerId, answer: Answer, w: World) returns (refused: bool)
      modifies this
      ensures View() == Step(w, old(View()), Event.RunNow(id, answer))
      ensures refused <==> id !in old(timers) || PendingOf(old(turns), id) != {}
    {
      if id !in timers { return true; }
      var overlap := TimerHasPendingWork(id);
      if overlap { return true; }
      var occasion := Manual(now);
      now := now + answer.lag;
      ClaimAndQueue(id, timers[id], occasion, true, w, answer.turn);
      return false;
    }

    /** create, under a new id. */
    method Create(id: TimerId, input: TimerInput, enabled: bool, w: World) returns (valid: bool)
      requires id !in timers
      modifies this`timers
      ensures View() == Step(w, old(View()), Created(id, input, enabled))
      ensures valid <==> ValidInput(w, input, now)
    {
      valid := ValidInput(w, input, now);
      if !valid { return; }
      var next := None;
      if enabled { next := NextRun(w, input, now); }
      timers := timers[id := Timer(input.texts, Store(input), enabled, next)];
    }

    /** update, with the body over what the row shows. */
    method Update(id: TimerId, patch: Patch, w: World) returns (valid: bool)
      modifies this`timers
      ensures View() == Step(w, old(View()), Updated(id, patch))
      ensures valid <==> id in old(timers) && ValidInput(w, Merged(old(timers)[id], patch), now)
    {
      if id !in timers { return false; }
      var input := Merged(timers[id], patch);
      var enabled := OrElse(patch.enabled, timers[id].enabled);
      valid := ValidInput(w, input, now);
      if !valid { return; }
      var next := None;
      if enabled { next := NextRun(w, input, now); }
      timers := timers[id := Timer(input.texts, Store(input), enabled, next)];
    }

    method Remove(id: TimerId, w: World) returns (found: bool)
      modifies this`timers, this`runs
      ensures View() == Step(w, old(View()), Removed(id))
      ensures found <==> id in old(timers)
    {
      found := id in timers;
      if !found { return; }
      timers := map j | j in timers && j != id :: timers[j];
      runs := Without(runs, id);
    }
  }

  lemma Regroup(due: seq<TimerId>, id: TimerId, rest: seq<TimerId>)
    ensures due + ([id] + rest) == (due + [id]) + rest
  {
  }

  lemma NoneLeft(t: TimerTable, ids: set<TimerId>, n: nat)
    requires AllScheduled(t, ids) && (n == 0 || ids == {})
    ensures Soonest(t, ids, n) == []
  {
  }

  lemma OnlyOneIsSoonest(t: TimerTable, ids: set<TimerId>, id: TimerId, n: nat)
    requires AllScheduled(t, ids) && IsSoonest(t, ids, id) && n > 0
    ensures Soonest(t, ids, n) == [id] + Soonest(t, ids - {id}, n - 1)
  {
    var first := Soonest(t, ids, n)[0];
    assert IsSoonest(t, ids, first) && Sooner(t, id, first) && Sooner(t, first, id);
  }

  lemma BatchIsDistinct(t: TimerTable, now: int)
    ensures var due := Batch(t, now);
      && (forall k :: 0 <= k < |due| ==> due[k] in t && t[due[k]].nextAt.Some?)
      && forall i, j :: 0 <= i < j < |due| ==> due[i] != due[j]
  {
    SoonestIsBatch(t, DueTimers(t, now), TICK_LIMIT);
    assert forall k :: 0 <= k < |Batch(t, now)| ==> Batch(t, now)[k] in DueTimers(t, now);
  }

  lemma RowLeavesOthers(w: World, s: State, id: TimerId, answer: Answer, tickNow: int)
    ensures var t := RowStep(w, s, id, answer, tickNow);
      s.timers.Keys == t.timers.Keys && forall j :: j in s.timers && j != id ==> t.timers[j] == s.timers[j]
  {
    hide Moved, FrequencyIsValid, Recorded, PendingOf;
  }
}
