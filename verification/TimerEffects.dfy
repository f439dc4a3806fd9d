/** What the scheduler does to timers, records and turns, by their columns: which timers a tick takes, when a timer is
    found switched off, and what running, saving and deleting a timer leave. */
module TimerEffects {
  import opened Records
  import opened Schedules
  import opened Timers
  import opened TimerProofs

  // ---- which timers a tick takes

  /** Switched on, and not later than now. */
  function AllDue(s: State): set<TimerId> {
    set id | id in s.timers && s.timers[id].enabled && s.timers[id].nextAt != None && s.timers[id].nextAt.value <= s.now
  }

  /** A tick takes all that is due, or the twenty that are due longest. */
  lemma TakenByATick(s: State)
    ensures var due := Batch(s.timers, s.now);
      && (forall k :: 0 <= k < |due| ==> due[k] in AllDue(s))
      && (forall i, j :: 0 <= i < j < |due| ==>
        due[i] != due[j] && s.timers[due[i]].nextAt.value <= s.timers[due[j]].nextAt.value)
      && |due| <= 20
      && (|due| < 20 ==> forall id :: id in AllDue(s) ==> id in due)
      && (forall k, id :: 0 <= k < |due| && id in AllDue(s) && id !in due ==>
        s.timers[due[k]].nextAt.value <= s.timers[id].nextAt.value)
  {
    var ids := DueTimers(s.timers, s.now);
    assert ids == AllDue(s);
    SoonestIsBatch(s.timers, ids, TICK_LIMIT);
    hide Soonest, DueTimers, AllDue;
    var due := Batch(s.timers, s.now);
    forall i, j | 0 <= i < j < |due|
      ensures due[i] != due[j] && s.timers[due[i]].nextAt.value <= s.timers[due[j]].nextAt.value
    {
      assert Sooner(s.timers, due[i], due[j]);
    }
    forall k, id | 0 <= k < |due| && id in ids && id !in due
      ensures s.timers[due[k]].nextAt.value <= s.timers[id].nextAt.value
    {
      assert Sooner(s.timers, due[k], id);
    }
  }

  // ---- the clock and the turns of a tick

  /** The time that passes in the first n rounds of a tick. */
  function Passing(answers: seq<Answer>, n: nat): nat {
    if n == 0 then 0 else Passing(answers, n - 1) + (if n <= |answers| then answers[n - 1].lag else 0)
  }

  /** A queued record has the turn of the round of its timer, and the timer runs next after the time of that round. */
  ghost predicate ClaimIsAsTold(w: World, s: State, t: State, due: seq<TimerId>, k: nat, answers: seq<Answer>,
      run: TimerRun)
    requires k < |due| && due[k] in s.timers
  {
    run.timer == due[k] && run.status == RunQueued ==>
      && k < |answers| && run.turn == answers[k].turn
      && due[k] in t.timers
      && t.timers[due[k]].nextAt == NextAfter(w, s.timers[due[k]].schedule, s.now + Passing(answers, k + 1))
  }

  ghost predicate ClaimsAreAsTold(w: World, s: State, t: State, due: seq<TimerId>, n: nat, answers: seq<Answer>)
    requires n <= |due| && forall k :: 0 <= k < |due| ==> due[k] in s.timers
  {
    && t.now == s.now + Passing(answers, n)
    && forall j, k :: |s.runs| <= j < |t.runs| && 0 <= k < n ==> ClaimIsAsTold(w, s, t, due, k, answers, t.runs[j])
  }

  ghost predicate OneRound(w: World, u: State, t: State, id: TimerId, answer: Answer)
    requires id in u.timers
  {
    && t.now == u.now + answer.lag && t.timers.Keys == u.timers.Keys
    && (forall j :: j in u.timers && j != id ==> t.timers[j] == u.timers[j])
    && (t.runs == u.runs || OneMoreRun(w, u, t, id, answer))
  }

  ghost predicate OneMoreRun(w: World, u: State, t: State, id: TimerId, answer: Answer)
    requires id in u.timers
  {
    && |t.runs| == |u.runs| + 1 && t.runs[..|u.runs|] == u.runs && t.runs[|u.runs|].timer == id
    && (t.runs[|u.runs|].status == RunQueued ==>
      && answer.turn != None && t.runs[|u.runs|].turn == answer.turn && id in t.timers
      && t.timers[id].nextAt == NextAfter(w, u.timers[id].schedule, u.now + answer.lag))
  }

  lemma ARound(w: World, u: State, id: TimerId, answer: Answer, tickNow: int)
    requires id in u.timers && u.timers[id].nextAt.Some?
    ensures OneRound(w, u, RowStep(w, u, id, answer, tickNow), id, answer)
  {
    hide FrequencyIsValid, PendingOf, Recorded, NextAfter;
  }

  lemma {:induction false} RoundsInWords(w: World, s: State, due: seq<TimerId>, n: nat, answers: seq<Answer>,
      tickNow: int)
    requires Inv(w, s) && tickNow <= s.now && n <= |due|
    requires forall i, j :: 0 <= i < j < |due| ==> due[i] != due[j]
    requires forall k :: 0 <= k < |due| ==> due[k] in s.timers && IsDue(s, due[k], tickNow)
    ensures ClaimsAreAsTold(w, s, TickRows(w, s, due, n, answers, tickNow), due, n, answers)
    ensures |s.runs| <= |TickRows(w, s, due, n, answers, tickNow).runs|
    ensures forall j :: |s.runs| <= j < |TickRows(w, s, due, n, answers, tickNow).runs| ==>
      TickRows(w, s, due, n, answers, tickNow).runs[j].timer in due[..n]
    decreases n
  {
    if n > 0 {
      var u := TickRows(w, s, due, n - 1, answers, tickNow);
      RoundsInWords(w, s, due, n - 1, answers, tickNow);
      NextIsUntouched(w, s, due, n, answers, tickNow);
      ARound(w, u, due[n - 1], AnswerOf(answers, n - 1), tickNow);
      hide Inv, RowStep, ClaimsAreAsTold, OneRound, IsDue;
      OneMoreRound(w, s, u, RowStep(w, u, due[n - 1], AnswerOf(answers, n - 1), tickNow), due, n, answers);
    }
  }

  lemma NextIsUntouched(w: World, s: State, due: seq<TimerId>, n: nat, answers: seq<Answer>, tickNow: int)
    requires Inv(w, s) && tickNow <= s.now && 0 < n <= |due|
    requires forall i, j :: 0 <= i < j < |due| ==> due[i] != due[j]
    requires forall k :: 0 <= k < |due| ==> due[k] in s.timers && IsDue(s, due[k], tickNow)
    ensures var u := TickRows(w, s, due, n - 1, answers, tickNow);
      && u.timers.Keys == s.timers.Keys && u.timers[due[n - 1]] == s.timers[due[n - 1]]
      && u.timers[due[n - 1]].nextAt.Some?
  {
    hide Inv, TickRows, TickDone;
    OneMoreOfBatch(due, n);
    assert IsDue(s, due[n - 1], tickNow);
    RowsAreDone(w, s, due, n - 1, answers, tickNow);
    OthersAreUntouched(w, s, TickRows(w, s, due, n - 1, answers, tickNow), due[..n - 1], answers, due[n - 1], tickNow);
  }

  lemma OthersAreUntouched(w: World, s: State, u: State, due: seq<TimerId>, answers: seq<Answer>, id: TimerId,
      tickNow: int)
    requires TickDone(w, s, u, due, answers, tickNow) && id in s.timers && id !in due
    ensures u.timers.Keys == s.timers.Keys && u.timers[id] == s.timers[id]
  {
    NotYetDone(w, s, u, due, answers, id, tickNow);
    hide Justified, MovedOn, PendingOf;
  }

  lemma OneMoreRound(w: World, s: State, u: State, t: State, due: seq<TimerId>, n: nat, answers: seq<Answer>)
    requires 0 < n <= |due| && forall k :: 0 <= k < |due| ==> due[k] in s.timers && due[k] in u.timers
    requires forall i, j :: 0 <= i < j < |due| ==> due[i] != due[j]
    requires ClaimsAreAsTold(w, s, u, due, n - 1, answers) && |s.runs| <= |u.runs|
    requires forall j :: |s.runs| <= j < |u.runs| ==> u.runs[j].timer in due[..n - 1]
    requires due[n - 1] in u.timers && u.timers[due[n - 1]] == s.timers[due[n - 1]]
    requires OneRound(w, u, t, due[n - 1], AnswerOf(answers, n - 1))
    ensures ClaimsAreAsTold(w, s, t, due, n, answers) && |s.runs| <= |t.runs|
    ensures forall j :: |s.runs| <= j < |t.runs| ==> t.runs[j].timer in due[..n]
  {
    hide NextAfter;
    assert due[..n] == due[..n - 1] + [due[n - 1]];
    forall j, k | |s.runs| <= j < |t.runs| && 0 <= k < n ensures ClaimIsAsTold(w, s, t, due, k, answers, t.runs[j]) {
      if j < |u.runs| {
        assert t.runs[j] == u.runs[j];
        if k < n - 1 { assert ClaimIsAsTold(w, s, u, due, k, answers, u.runs[j]); }
      }
    }
    forall j | |s.runs| <= j < |t.runs| ensures t.runs[j].timer in due[..n] {
      if j < |u.runs| { assert t.runs[j] == u.runs[j]; }
    }
  }

  /** A tick takes as long as its rounds; the turn of the k-th timer is the one created in the k-th round, and the
      timer runs next after the time of that round, not of the tick. */
  lemma ClaimsInWords(w: World, s: State, answers: seq<Answer>)
    requires Inv(w, s)
    ensures var t, due := TickStep(w, s, answers), Batch(s.timers, s.now);
      && (forall k :: 0 <= k < |due| ==> due[k] in s.timers)
      && ClaimsAreAsTold(w, s, t, due, |due|, answers)
  {
    var due := Batch(s.timers, s.now);
    SoonestIsBatch(s.timers, DueTimers(s.timers, s.now), TICK_LIMIT);
    assert forall k :: 0 <= k < |due| ==> due[k] in DueTimers(s.timers, s.now);
    hide Inv, TickRows;
    RoundsInWords(w, s, due, |due|, answers, s.now);
  }

  // ---- when a timer is found switched off

  /** The timer is deleted, an update switches it off, or a tick records a failure of it, or a run of a timer that runs
      once. */
  ghost predicate SwitchesOff(w: World, s: State, e: Event, id: TimerId)
    requires id in s.timers
  {
    match e
    case Removed(i) => i == id
    case Updated(i, patch) => i == id && patch.enabled == Some(false)
    case Ticked(_) =>
      exists k :: |s.runs| <= k < |Step(w, s, e).runs| && Step(w, s, e).runs[k].timer == id &&
                  (Step(w, s, e).runs[k].status == RunFailed || s.timers[id].schedule.kind == Once)
    case _ => false
  }

  lemma StaysOnInATick(w: World, s: State, answers: seq<Answer>, id: TimerId)
    requires Inv(w, s) && id in s.timers && s.timers[id].enabled && !SwitchesOff(w, s, Ticked(answers), id)
    ensures id in TickStep(w, s, answers).timers && TickStep(w, s, answers).timers[id].enabled
  {
    ATickMovesOn(w, s, answers);
    var t, due := TickStep(w, s, answers), Batch(s.timers, s.now);
    assert Step(w, s, Ticked(answers)) == t;
    hide TickStep, Batch, Justified, Inv;
    if HasNew(t.runs, |s.runs|, id) {
      var k :| |s.runs| <= k < |t.runs| && t.runs[k].timer == id;
      assert NewRecord(w, s, t, t.runs[k], due, s.now);
      assert t.runs[k].status != RunFailed && s.timers[id].schedule.kind != Once;
    }
  }

  lemma StaysOnInAStep(w: World, s: State, e: Event, id: TimerId)
    requires Inv(w, s) && id in s.timers && s.timers[id].enabled && !SwitchesOff(w, s, e, id)
    ensures id in Step(w, s, e).timers && Step(w, s, e).timers[id].enabled
  {
    hide TickStep, Inv, ValidInput, Store, NextRun, Merged;
    if e.Ticked? { StaysOnInATick(w, s, e.answers, id); }
  }

  ghost predicate NeverOff(w: World, s: State, es: seq<Event>, id: TimerId)
    decreases |es|
  {
    es != [] ==>
      id in s.timers && !SwitchesOff(w, s, es[0], id) && NeverOff(w, Step(w, s, es[0]), es[1..], id)
  }

  /** A timer that is on is found off, or gone, only after such an event; and a timer that is on is due when the clock
      reaches its next run. */
  lemma {:induction false} StaysOn(w: World, s: State, es: seq<Event>, id: TimerId)
    requires StrictlyLater(w) && Inv(w, s) && id in s.timers && s.timers[id].enabled && NeverOff(w, s, es, id)
    ensures var t := Run(w, s, es);
      && id in t.timers && t.timers[id].enabled
      && (t.timers[id].nextAt != None && t.timers[id].nextAt.value <= t.now ==> id in AllDue(t))
    decreases |es|
  {
    if es != [] {
      StaysOnInAStep(w, s, es[0], id);
      InvKept(w, s, es[0]);
      hide Inv, Step, SwitchesOff, AllDue, StrictlyLater;
      StaysOn(w, Step(w, s, es[0]), es[1..], id);
    }
  }

  // ---- running, saving and deleting a timer

  /** Run now: only for a timer without pending work. It records a run that no tick will take for an occurrence, with
      a new turn of the timer, and leaves the timer as it is; or nothing at all, when the turn is refused. */
  lemma RunNowInWords(w: World, s: State, id: TimerId, answer: Answer)
    ensures var t := Step(w, s, RunNow(id, answer));
      && t.timers == s.timers
      && (id !in s.timers || Busy(s.turns, id) ==> t == s)
      && (id in s.timers && !Busy(s.turns, id) ==>
        && t.now == s.now + answer.lag
        && (if answer.turn == None || answer.turn.value in s.turns || Recorded(s.runs, id, Manual(s.now))
            then t.runs == s.runs && t.turns == s.turns
            else && t.runs == s.runs + [TimerRun(id, Manual(s.now), RunQueued, answer.turn)]
                 && t.turns == s.turns[answer.turn.value := Turn(Queued, Some(id))]))
  {
    if id in s.timers { ConditionsInWords(w, s.timers[id].schedule, s.now, s.turns, id); }
    hide Busy, PendingOf, Recorded, TooOften, FrequencyIsValid;
  }

  /** The columns that create and update write: the texts, the schedule, the switch, and the next run, which is none
      for a timer that is switched off. An input that is not valid writes nothing. */
  lemma SavedInWords(w: World, s: State, id: TimerId, input: TimerInput, enabled: bool)
    ensures var t := Step(w, s, Created(id, input, enabled));
      && t.runs == s.runs && t.turns == s.turns && t.now == s.now
      && (if id in s.timers || !ValidInput(w, input, s.now) then t == s
          else t.timers == s.timers[id := Timer(input.texts,
                                                StoredSchedule(input.kind, EncodeSchedule(input), input.timezone),
                                                    enabled,
                                                if enabled then NextRun(w, input, s.now) else None)])
  {
    hide ValidInput, NextRun, EncodeSchedule;
  }

  /** The field that was given, and else the one of the row. */
  predicate Given<T(==)>(given: Option<T>, current: Option<T>, merged: Option<T>) {
    if given == None then merged == current else merged == given
  }

  /** An update takes from the body what is there and from the row what is not; an input that is then not valid changes
      nothing, a valid one is what the row says afterwards. */
  lemma UpdatedInWords(w: World, s: State, id: TimerId, p: Patch)
    requires id in s.timers
    ensures var row, input := s.timers[id], Merged(s.timers[id], p);
      var f, g := DecodeSchedule(row.schedule), input.fields;
      var t := Step(w, s, Updated(id, p));
      && input.texts.name == (if p.name == None then row.texts.name else p.name.value)
      && input.texts.prompt == (if p.prompt == None then row.texts.prompt else p.prompt.value)
      && input.kind == (if p.kind == None then row.schedule.kind else p.kind.value)
      && input.timezone == (if p.timezone == None then row.schedule.timezone else p.timezone.value)
      && Given(p.fields.runAt, f.runAt, g.runAt) && Given(p.fields.time, f.time, g.time)
      && Given(p.fields.weekday, f.weekday, g.weekday) && Given(p.fields.minute, f.minute, g.minute)
      && Given(p.fields.intervalMinutes, f.intervalMinutes, g.intervalMinutes)
      && Given(p.fields.cronExpression, f.cronExpression, g.cronExpression)
      && (!ValidInput(w, input, s.now) ==> t == s)
      && (ValidInput(w, input, s.now) ==>
        && t == s.(timers := s.timers[id := t.timers[id]])
        && t.timers[id].enabled == (if p.enabled == None then row.enabled else p.enabled.value)
        && ShowsTheInput(t.timers[id], input)
        && t.timers[id].nextAt == (if t.timers[id].enabled then NextRun(w, input, s.now) else None))
  {
    var input := Merged(s.timers[id], p);
    if ValidInput(w, input, s.now) { DecodeRestores(input); }
    hide ValidTime, PartCount, CronAccepted, FutureDate, NextRun, DecodeSchedule, EncodeSchedule;
  }

  /** The row has the texts, the kind and the timezone, and decodes to the fields that the kind uses. */
  predicate ShowsTheInput(row: Timer, input: TimerInput) {
    && row.texts == input.texts && row.schedule.kind == input.kind && row.schedule.timezone == input.timezone
    && var f := DecodeSchedule(row.schedule);
    match input.kind
    case Once => f == Fields(input.fields.runAt, None, None, None, None, None)
    case Daily => f == Fields(None, input.fields.time, None, None, None, None)
    case Weekly => f == Fields(None, input.fields.time, input.fields.weekday, None, None, None)
    case Hourly => f == Fields(None, None, None, input.fields.minute, None, None)
    case Interval => f == Fields(None, None, None, None, input.fields.intervalMinutes, None)
    case Cron => f == Fields(None, None, None, None, None, input.fields.cronExpression)
  }

  /** The records of the other timers, each as often as it was. */
  lemma {:induction false} OthersRemain(runs: seq<TimerRun>, id: TimerId, run: TimerRun)
    ensures Count(Without(runs, id), run) == (if run.timer == id then 0 else Count(runs, run))
    decreases |runs|
  {
    if runs != [] {
      var before, last := runs[..|runs| - 1], runs[|runs| - 1];
      OthersRemain(before, id, run);
      var rest := Without(before, id);
      assert (rest + [last])[..|rest|] == rest;
    }
  }

  function Count(runs: seq<TimerRun>, run: TimerRun): nat {
    if runs == [] then 0 else Count(runs[..|runs| - 1], run) + (if runs[|runs| - 1] == run then 1 else 0)
  }

  /** Deleting a timer takes its records with it, and nothing else. */
  lemma RemovedInWords(w: World, s: State, id: TimerId, run: TimerRun)
    requires Inv(w, s)
    ensures var t := Step(w, s, Removed(id));
      && t.timers.Keys == s.timers.Keys - {id} && (forall j :: j in t.timers ==> t.timers[j] == s.timers[j])
      && t.turns == s.turns && t.now == s.now
      && Count(t.runs, run) == (if run.timer == id then 0 else Count(s.runs, run))
  {
    OthersRemain(s.runs, id, run);
    if id !in s.timers { NoRecordsOfStrangers(w, s, id, run, s.runs); }
    hide Without, Count;
  }

  lemma {:induction false} NoRecordsOfStrangers(w: World, s: State, id: TimerId, run: TimerRun, runs: seq<TimerRun>)
    requires Inv(w, s) && id !in s.timers && runs <= s.runs
    ensures run.timer == id ==> Count(runs, run) == 0
    decreases |runs|
  {
    if runs != [] {
      assert s.runs[|runs| - 1] == runs[|runs| - 1];
      assert s.runs[|runs| - 1].timer in s.timers;
      NoRecordsOfStrangers(w, s, id, run, runs[..|runs| - 1]);
    }
  }

  /** The other events change turns and the clock, and nothing else. */
  lemma OthersInWords(w: World, s: State, m: MissionId, status: Status, ms: nat)
    ensures Step(w, s, Passed(ms)) == s.(now := s.now + ms)
    ensures Step(w, s, OtherTurn(m)) == if m in s.turns then s else s.(turns := s.turns[m := Turn(Queued, None)])
    ensures Step(w, s, TurnChanged(m, status))
      == if m in s.turns then s.(turns := s.turns[m := Turn(status, s.turns[m].timer)]) else s
  {
  }
}
