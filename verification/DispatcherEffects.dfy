/** When a dispatch begins: only with every gate open, and for the turn that waits longest. */
module DispatcherEffects {
  import opened Records
  import opened Dispatcher

  // ---- a dispatch begins

  /** The five gates, by their fields: nothing is compacted or cleared, nothing is paused, and Codex is ready. */
  const OPEN := Gate(false, false, false, true)

  /** The turn waited, or this event has put it into the queue. */
  predicate WasOffered(s: State, e: Event, m: MissionId) {
    || (m in s.missions && s.missions[m].status == Queued)
    || (m !in s.missions && e.User? && e.request.Create? && e.request.id == m && e.request.admitted)
    || e == User(Resume(m))
    || (e.Codex? && e.message.Compacted? && s.parked == Some(m))
  }

  ghost predicate BeginsRightly(s: State, e: Event, t: State)
    requires t.start.Some?
  {
    && s.active == None
    && t.gate == OPEN
    && t.start == Some(Start(t.start.value.id, Opening, false)) && t.active == Some(t.start.value.id)
    && t.start.value.id in t.missions && t.missions[t.start.value.id].status == Starting
    && WasOffered(s, e, t.start.value.id)
    && forall j :: j in t.missions && t.missions[j].status == Queued ==>
      t.missions[t.start.value.id].sequence <= t.missions[j].sequence
  }

  lemma BegunByUser(s: State, r: Request)
    requires s.start.None? && UserStep(s, r).start.Some?
    ensures BeginsRightly(s, User(r), UserStep(s, r))
  {
    if r.Create? { assert r == Create(r.id, r.sequence, r.admitted); }
  }

  lemma BegunByCodex(s: State, c: Message)
    requires s.start.None? && CodexStep(s, c).start.Some?
    ensures BeginsRightly(s, Codex(c), CodexStep(s, c))
  {
  }

  lemma BegunByServer(s: State, i: Internal)
    requires s.start.None? && ServerStep(s, i).start.Some?
    ensures BeginsRightly(s, Server(i), ServerStep(s, i))
  {
  }

  /** A dispatch begins only with an empty slot and every gate open, and it takes the turn with the least sequence of
      those that wait. */
  lemma DispatchesOnlyWithOpenGates(s: State, e: Event)
    requires s.start.None? && Step(s, e).start.Some?
    ensures BeginsRightly(s, e, Step(s, e))
  {
    match e
    case User(request) => BegunByUser(s, request);
    case Codex(message) => BegunByCodex(s, message);
    case Answer(_) =>
    case Server(internal) => BegunByServer(s, internal);
  }

  /** The events that call processNext now. */
  predicate CallsNow(s: State, e: Event) {
    match e
    case User(Create(_, _, admitted)) => admitted && !s.gate.clearing
    case User(Resume(m)) => m in s.missions && s.missions[m].status == Interrupted && s.missions[m].hasThread
    case Codex(Compacted(notice)) => notice != TurnAlias || (s.gate.compacting && s.active == None)
    case Server(RunScheduled) => s.owed.calls > 0
    case Server(InitOpened) => s.owed.initsOpening > 0
    case Server(CompactTimeout) => s.owed.timeout && s.gate.compacting
    case _ => false
  }

  ghost predicate SomeWaits(s: State) {
    exists m :: m in s.missions && s.missions[m].status == Queued
  }

  /** And after such a call no turn waits with the slot empty and every gate open. */
  lemma ACallDispatches(s: State, e: Event)
    requires CallsNow(s, e)
    ensures var t := Step(s, e); !(t.start == None && t.active == None && t.gate == OPEN && SomeWaits(t))
  {
    var t := Step(s, e);
    if t.start == None && t.active == None && t.gate == OPEN && SomeWaits(t) {
      var m :| m in t.missions && t.missions[m].status == Queued;
      assert HasQueued(t.missions);
    }
  }

  /** Closed after every step. */
  ghost predicate StaysClosed(s: State, es: seq<Event>)
    decreases |es|
  {
    es != [] ==> Step(s, es[0]).gate != OPEN && StaysClosed(Step(s, es[0]), es[1..])
  }

  lemma NothingStartsInAStep(s: State, e: Event, m: MissionId)
    requires Step(s, e).gate != OPEN
    ensures s.start.None? ==> Step(s, e).start.None?
    ensures m in Step(s, e).missions && Step(s, e).missions[m].status == Starting ==>
      m in s.missions && s.missions[m].status == Starting
  {
    if s.start.None? && Step(s, e).start.Some? { DispatchesOnlyWithOpenGates(s, e); }
    if IsStarted(s, Step(s, e), m) {
      match e
      case User(request) => StartedByUser(s, request, m);
      case Codex(message) => StartedByCodex(s, message, m);
      case Answer(reply) => NoneStartedByAnswer(s, reply, m);
      case Server(internal) => StartedByServer(s, internal, m);
    }
  }

  /** m is started in this step. */
  predicate IsStarted(s: State, t: State, m: MissionId) {
    && m in t.missions && t.missions[m].status == Starting
    && (m in s.missions ==> s.missions[m].status != Starting)
  }

  lemma StartedByUser(s: State, r: Request, m: MissionId)
    requires IsStarted(s, UserStep(s, r), m)
    ensures s.start.None? && UserStep(s, r).start.Some?
  {
  }

  lemma StartedByCodex(s: State, c: Message, m: MissionId)
    requires IsStarted(s, CodexStep(s, c), m)
    ensures s.start.None? && CodexStep(s, c).start.Some?
  {
  }

  lemma StartedByServer(s: State, i: Internal, m: MissionId)
    requires IsStarted(s, ServerStep(s, i), m)
    ensures s.start.None? && ServerStep(s, i).start.Some?
  {
  }

  lemma NoneStartedByAnswer(s: State, r: Reply, m: MissionId)
    ensures !IsStarted(s, AnswerStep(s, r), m)
  {
  }

  /** While dispatch stays paused, or the context is cleared or compacted, or Codex is not ready, no turn is started. */
  lemma {:induction false} NothingStartsWhileClosed(s: State, es: seq<Event>, m: MissionId)
    requires StaysClosed(s, es)
    ensures s.start.None? ==> Run(s, es).start.None?
    ensures m in Run(s, es).missions && Run(s, es).missions[m].status == Starting ==>
      m in s.missions && s.missions[m].status == Starting
    decreases |es|
  {
    if es != [] {
      NothingStartsInAStep(s, es[0], m);
      hide Step;
      NothingStartsWhileClosed(Step(s, es[0]), es[1..], m);
    }
  }
}
