/** The scheduler: timers, the records of their runs, and the turns they ask for. */
module Timers {
  import opened Records
  import opened Schedules

  const MISSED_AFTER_MS := 3_600_000
  const TICK_LIMIT: nat := 20

  /** A row of the timers table. */
  datatype Timer = Timer(texts: Texts, schedule: StoredSchedule, enabled: bool, nextAt: Option<int>)

  /** The body of an update: what is absent stays as it is. */
  datatype Patch = Patch(
    name: Option<string>,
    prompt: Option<string>,
    kind: Option<ScheduleKind>,
    fields: Fields,
    timezone: Option<string>,
    enabled: Option<bool>
  )

  /** scheduled_for: the instant of an occurrence, or "manual:" and an instant. */
  datatype Occasion = At(instant: int) | Manual(instant: int)

  datatype RunStatus = RunClaimed | RunQueued | RunMissed | RunSkipped | RunFailed

  /** A row of timer_runs. */
  datatype TimerRun = TimerRun(timer: TimerId, occasion: Occasion, status: RunStatus, turn: Option<MissionId>)

  /** The columns of a mission that the scheduler looks at. */
  datatype Turn = Turn(status: Status, timer: Option<TimerId>)

  type TimerTable = map<TimerId, Timer>

  datatype State = State(timers: TimerTable, runs: seq<TimerRun>, turns: map<MissionId, Turn>, now: int)

  /** What create() does when a run asks for a turn: the id of the new turn, or None when it throws. The clock is read
      again for every claim. */
  datatype Answer = Answer(turn: Option<MissionId>, lag: nat)

  datatype Event =
    | Created(id: TimerId, input: TimerInput, enabled: bool)
    | Updated(id: TimerId, patch: Patch)
    | Removed(id: TimerId)
    | RunNow(id: TimerId, answer: Answer)
    | Ticked(answers: seq<Answer>)
    | OtherTurn(turn: MissionId)
    | TurnChanged(turn: MissionId, status: Status)
    | Passed(ms: nat)

  // ---- queries

  function PendingOf(turns: map<MissionId, Turn>, timer: TimerId): set<MissionId> {
    set m | m in turns && turns[m].timer == Some(timer) && Pending(turns[m].status)
  }

  function DueTimers(t: TimerTable, now: int): set<TimerId> {
    set id | id in t && t[id].enabled && t[id].nextAt.Some? && t[id].nextAt.value <= now
  }

  /** ORDER BY next_run_at, ties by id. */
  predicate Sooner(t: TimerTable, i: TimerId, j: TimerId)
    requires i in t && j in t && t[i].nextAt.Some? && t[j].nextAt.Some?
  {
    t[i].nextAt.value < t[j].nextAt.value || (t[i].nextAt == t[j].nextAt && i <= j)
  }

  predicate AllScheduled(t: TimerTable, ids: set<TimerId>) {
    forall i :: i in ids ==> i in t && t[i].nextAt.Some?
  }

  predicate IsSoonest(t: TimerTable, ids: set<TimerId>, id: TimerId)
    requires AllScheduled(t, ids)
  {
    id in ids && forall j :: j in ids ==> Sooner(t, id, j)
  }

  lemma SoonestExists(t: TimerTable, ids: set<TimerId>)
    requires AllScheduled(t, ids) && ids != {}
    ensures exists id :: IsSoonest(t, ids, id)
  {
    var k :| k in ids;
    if ids == {k} {
      assert IsSoonest(t, ids, k);
    } else {
      SoonestExists(t, ids - {k});
      var m :| IsSoonest(t, ids - {k}, m);
      var first := if Sooner(t, k, m) then k else m;
      forall j | j in ids ensures Sooner(t, first, j) {
        if j != k { assert Sooner(t, m, j); }
      }
      assert IsSoonest(t, ids, first);
    }
  }

  /** The first n of the timers, soonest first. */
  ghost function Soonest(t: TimerTable, ids: set<TimerId>, n: nat): (due: seq<TimerId>)
    requires AllScheduled(t, ids)
    decreases n
  {
    if n == 0 || ids == {} then []
    else
      SoonestExists(t, ids);
      var id :| IsSoonest(t, ids, id);
      [id] + Soonest(t, ids - {id}, n - 1)
  }

  ghost function Batch(t: TimerTable, now: int): seq<TimerId> {
    Soonest(t, DueTimers(t, now), TICK_LIMIT)
  }

  // ---- records

  /** UNIQUE(timer_id, scheduled_for). */
  ghost predicate Recorded(runs: seq<TimerRun>, timer: TimerId, occasion: Occasion) {
    exists k :: 0 <= k < |runs| && runs[k].timer == timer && runs[k].occasion == occasion
  }

  /** INSERT OR IGNORE of a record; and, unless it is ignored, the new columns of the timer and the turn. */
  ghost function RecordStep(s: State, run: TimerRun, timer: Timer): State {
    if Recorded(s.runs, run.timer, run.occasion) then s
    else s.(runs := s.runs + [run], timers := s.timers[run.timer := timer])
  }

  /** The row after a run that happened, was missed or was skipped. */
  function Moved(w: World, row: Timer, after: int): Timer {
    row.(nextAt := NextAfter(w, row.schedule, after), enabled := !row.schedule.kind.Once?)
  }

  /** claimAndQueue: one transaction, so a create that throws leaves nothing behind. The id of a new turn is random
      and never one that exists. */
  ghost function ClaimStep(s: State, run: TimerRun, timer: Timer, turn: Option<MissionId>): State {
    if Recorded(s.runs, run.timer, run.occasion) || turn.None? || turn.value in s.turns then s
    else
      RecordStep(s, run.(status := RunQueued, turn := turn), timer)
        .(turns := s.turns[turn.value := Turn(Queued, Some(run.timer))])
  }

  /** One round of the loop of tick. */
  ghost function RowStep(w: World, s: State, id: TimerId, answer: Answer, tickNow: int): State {
    if id !in s.timers || s.timers[id].nextAt.None? then s
    else
      var row := s.timers[id];
      var due := row.nextAt.value;
      var t := s.(now := s.now + answer.lag);
      if tickNow - due > MISSED_AFTER_MS then
        RecordStep(t, TimerRun(id, At(due), RunMissed, None), Moved(w, row, tickNow))
      else if !FrequencyIsValid(w, row.schedule, due) then
        RecordStep(t, TimerRun(id, At(due), RunFailed, None), row.(nextAt := None, enabled := false))
      else if PendingOf(s.turns, id) != {} then
        RecordStep(t, TimerRun(id, At(due), RunSkipped, None), Moved(w, row, tickNow))
      else
        ClaimStep(t, TimerRun(id, At(due), RunClaimed, None), Moved(w, row, t.now), answer.turn)
  }

  function AnswerOf(answers: seq<Answer>, k: nat): Answer {
    if k < |answers| then answers[k] else Answer(None, 0)
  }

  /** The first n rounds of the loop. */
  ghost function TickRows(w: World, s: State, due: seq<TimerId>, n: nat, answers: seq<Answer>, tickNow: int): State
    requires n <= |due|
  {
    if n == 0 then s
    else RowStep(w, TickRows(w, s, due, n - 1, answers, tickNow), due[n - 1], AnswerOf(answers, n - 1), tickNow)
  }

  ghost function TickStep(w: World, s: State, answers: seq<Answer>): State {
    var due := Batch(s.timers, s.now);
    TickRows(w, s, due, |due|, answers, s.now)
  }

  ghost function RunNowStep(s: State, id: TimerId, answer: Answer): State {
    if id !in s.timers || PendingOf(s.turns, id) != {} then s
    else
      var t := s.(now := s.now + answer.lag);
      ClaimStep(t, TimerRun(id, Manual(s.now), RunClaimed, None), s.timers[id], answer.turn)
  }

  /** create and update, which both start with parseTimerInput and end with the whole row. */
  function SaveStep(w: World, s: State, id: TimerId, input: TimerInput, enabled: bool): State {
    if !ValidInput(w, input, s.now) then s
    else s.(timers := s.timers[id := Timer(input.texts, Store(input), enabled,
                                                  if enabled then NextRun(w, input, s.now) else None)])
  }

  /** body.x ?? current.x */
  function Or<T>(given: Option<T>, current: Option<T>): Option<T> {
    if given.Some? then given else current
  }

  function OrElse<T>(given: Option<T>, current: T): T {
    if given.Some? then given.value else current
  }

  /** The input of an update: the body over the view of the row. */
  function Merged(row: Timer, p: Patch): TimerInput {
    var f, g := DecodeSchedule(row.schedule), p.fields;
    TimerInput(
      Texts(OrElse(p.name, row.texts.name), OrElse(p.prompt, row.texts.prompt)),
      OrElse(p.kind, row.schedule.kind),
      Fields(Or(g.runAt, f.runAt), Or(g.time, f.time), Or(g.weekday, f.weekday), Or(g.minute, f.minute),
             Or(g.intervalMinutes, f.intervalMinutes), Or(g.cronExpression, f.cronExpression)),
      OrElse(p.timezone, row.schedule.timezone))
  }

  function UpdateStep(w: World, s: State, id: TimerId, p: Patch): State
    requires id in s.timers
  {
    SaveStep(w, s, id, Merged(s.timers[id], p), OrElse(p.enabled, s.timers[id].enabled))
  }

  /** ON DELETE CASCADE. */
  function Without(runs: seq<TimerRun>, timer: TimerId): seq<TimerRun> {
    if runs == [] then []
    else
      var rest := Without(runs[..|runs| - 1], timer);
      if runs[|runs| - 1].timer == timer then rest else rest + [runs[|runs| - 1]]
  }

  function RemoveStep(s: State, id: TimerId): State {
    s.(timers := map j | j in s.timers && j != id :: s.timers[j], runs := Without(s.runs, id))
  }

  ghost function Step(w: World, s: State, e: Event): State {
    match e
    case Created(id, input, enabled) => if id in s.timers then s else SaveStep(w, s, id, input, enabled)
    case Updated(id, patch) => if id !in s.timers then s else UpdateStep(w, s, id, patch)
    case Removed(id) => if id !in s.timers then s else RemoveStep(s, id)
    case RunNow(id, answer) => RunNowStep(s, id, answer)
    case Ticked(answers) => TickStep(w, s, answers)
    case OtherTurn(m) => if m in s.turns then s else s.(turns := s.turns[m := Turn(Queued, None)])
    case TurnChanged(m, status) =>
      if m !in s.turns then s else s.(turns := s.turns[m := s.turns[m].(status := status)])
    case Passed(ms) => s.(now := s.now + ms)
  }

  ghost function Run(w: World, s: State, es: seq<Event>): State
    decreases |es|
  {
    if es == [] then s else Run(w, Step(w, s, es[0]), es[1..])
  }

  function Empty(now: int): State {
    State(map[], [], map[], now)
  }
}
