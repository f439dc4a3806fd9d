/**
 A batch becomes a turn when it is due, and the turn is written from the messages the batch has then. Whether a message
 can join the batch later depends on when things happen: a batch that a crash left open although its turn was created
 is due, and what is due is flushed at the next start, before the WhatsApp client brings the first message.
 */
module HandOverTiming {
  import opened Records
  import opened IngressQueue
  import opened IngressProofs

  // ---- which steps add a message to a batch

  function Members(messages: seq<Message>, b: BatchId): set<int> {
    set i | 0 <= i < |messages| && messages[i].batch == Some(b)
  }

  ghost predicate HasTurn(s: State, b: BatchId) {
    exists id :: IsTurnOf(s.missions, id, b)
  }

  /** A claimed message is added while the queue is not full, and b is the open batch it fits into. */
  ghost predicate Joins(s: State, e: Event, b: BatchId) {
    && e.Add? && e.row < |s.messages| && s.messages[e.row].id in s.claims
    && PendingCount(s) < MAX_PENDING_TURNS
    && Target(s.batches, RowLoad(s.messages[e.row])) == Some(b)
  }

  lemma MembersByLink(s: State, i: nat, c: BatchId, batch: Batch, now: int, b: BatchId)
    requires i < |s.messages| && s.messages[i].batch.None?
    ensures var s' := LinkStep(s, i, c, batch, now);
      Members(s'.messages, b) == Members(s.messages, b) + (if b == c then {i as int} else {})
  {
    hide DueAt, RowLoad;
  }

  lemma MembersByAdd(s: State, i: nat, now: int, newId: BatchId, b: BatchId)
    requires Conserved(s) && b in s.batches
    ensures (Members(AddStep(s, i, now, newId).messages, b) == Members(s.messages, b))
      <==> !Joins(s, Add(i, now, newId), b)
    ensures Members(s.messages, b) <= Members(AddStep(s, i, now, newId).messages, b)
  {
    hide NextSequence, PendingCount, Members, LinkStep, LoadsAddUp;
    if i < |s.messages| && s.messages[i].id in s.claims && PendingCount(s) < MAX_PENDING_TURNS {
      var target := Target(s.batches, RowLoad(s.messages[i]));
      assert (i as int) !in Members(s.messages, b) by { NotAMember(s.messages, i, b); }
      if target.Some? {
        MembersByLink(s, i, target.value, s.batches[target.value], now, b);
      } else if newId !in s.batches {
        MembersByLink(s, i, newId, NewBatch(NextSequence(s)), now, b);
      }
    }
  }

  lemma NotAMember(messages: seq<Message>, i: nat, b: BatchId)
    requires i < |messages| && messages[i].batch.None?
    ensures (i as int) !in Members(messages, b)
  {
  }

  lemma MembersByOthers(s: State, e: Event, b: BatchId)
    requires !e.Add?
    ensures Members(Step(s, e).messages, b) == Members(s.messages, b)
  {
    hide NextSequence, PendingCount;
  }

  /** A step changes the messages of a batch exactly if one joins it. */
  lemma MembersChangeExactly(s: State, e: Event, b: BatchId)
    requires Conserved(s) && b in s.batches
    ensures Members(Step(s, e).messages, b) == Members(s.messages, b) <==> !Joins(s, e, b)
    ensures Members(s.messages, b) <= Members(Step(s, e).messages, b)
  {
    if e.Add? {
      hide AddStep, Joins, Members;
      MembersByAdd(s, e.row, e.now, e.freshBatch, b);
    } else {
      hide Step, Members;
      MembersByOthers(s, e, b);
    }
  }

  ghost predicate NoneJoins(s: State, es: seq<Event>, b: BatchId)
    decreases |es|
  {
    es != [] ==> !Joins(s, es[0], b) && NoneJoins(Step(s, es[0]), es[1..], b)
  }

  lemma {:induction false} MembersOnlyGrow(s: State, es: seq<Event>, b: BatchId)
    requires Kept(s) && b in s.batches
    ensures Members(s.messages, b) <= Members(Run(s, es).messages, b)
    decreases |es|
  {
    if es != [] {
      OneStepKept(s, es[0], b);
      MembersChangeExactly(s, es[0], b);
      hide Members, Kept, Step;
      MembersOnlyGrow(Step(s, es[0]), es[1..], b);
    }
  }

  lemma OneStepKept(s: State, e: Event, b: BatchId)
    requires Kept(s)
    ensures Conserved(s) && Kept(Step(s, e))
    ensures b in s.batches ==> b in Step(s, e).batches
    ensures HasTurn(s, b) ==> HasTurn(Step(s, e), b)
  {
    PositionsKept(s, e);
    ConservedStep(s, e);
    HandedOnceKept(s, e);
    StepExtends(s, e);
    hide Step, Positions, Conserved, HandedOnce, NextSequence, TakesPlaceOfBatch;
    if HasTurn(s, b) {
      var id :| IsTurnOf(s.missions, id, b);
      assert IsTurnOf(Step(s, e).missions, id, b);
    }
  }

  /** Over any run, crashes included, a batch ends with other messages than it had exactly if one joined it in between:
      its turn, if it had one at the beginning, was then written without that message. */
  lemma {:induction false} MembersChangeExactlyInRuns(s: State, es: seq<Event>, b: BatchId)
    requires Kept(s) && b in s.batches
    ensures Members(Run(s, es).messages, b) == Members(s.messages, b) <==> NoneJoins(s, es, b)
    decreases |es|
  {
    if es != [] {
      OneStepKept(s, es[0], b);
      MembersChangeExactly(s, es[0], b);
      MembersOnlyGrow(Step(s, es[0]), es[1..], b);
      hide Members, Kept, Step, Joins;
      MembersChangeExactlyInRuns(Step(s, es[0]), es[1..], b);
    }
  }

  // ---- when things happen

  /** The queue, the clock, and whether what was due at the start of the process has been flushed. */
  datatype Timed = Timed(queue: State, clock: int, flushed: bool)

  datatype Moment = Happens(event: Event, at: int) | FirstFlushDone(at: int)

  ghost function TimedStep(t: Timed, m: Moment): Timed {
    match m
    case Happens(e, at) => Timed(Step(t.queue, e), at, t.flushed && !e.Crash?)
    case FirstFlushDone(at) => t.(clock := at, flushed := true)
  }

  /**
   The clock does not go back. Between creating the turn of a batch and marking the batch there is no await, so nothing
   but a crash comes in between. Only batches that are due are handed over. At the start a timer without delay flushes
   everything that is due, before the WhatsApp client, which is only launched then, brings a message.
   */
  ghost predicate Possible(t: Timed, m: Moment) {
    && m.at >= t.clock
    && match m
       case Happens(e, at) =>
         && (t.queue.handOver.Some? ==> e.Mark? || e == Reject(t.queue.handOver.value.batch) || e.Crash?)
         && (e.Begin? && e.batch in t.queue.batches ==> t.queue.batches[e.batch].dueAt <= at)
         && (e.Add? ==> t.flushed && e.now == at)
       case FirstFlushDone(at) =>
         && t.queue.handOver.None?
         && forall b :: b in t.queue.batches && t.queue.batches[b].status.Open? ==> t.queue.batches[b].dueAt > at
  }

  ghost function TimedRun(t: Timed, ms: seq<Moment>): Timed
    decreases |ms|
  {
    if ms == [] then t else TimedRun(TimedStep(t, ms[0]), ms[1..])
  }

  ghost predicate PossibleRun(t: Timed, ms: seq<Moment>)
    decreases |ms|
  {
    ms != [] ==> Possible(t, ms[0]) && PossibleRun(TimedStep(t, ms[0]), ms[1..])
  }

  /** Open although its turn exists. */
  ghost predicate HalfOpen(s: State, b: BatchId) {
    b in s.batches && s.batches[b].status.Open? && HasTurn(s, b)
  }

  /** Such a batch is due, and either its hand-over is under way or what is due is still to be flushed. */
  ghost predicate Punctual(t: Timed) {
    forall b :: HalfOpen(t.queue, b) ==>
      && t.queue.batches[b].dueAt <= t.clock
      && (!t.flushed || (t.queue.handOver.Some? && t.queue.handOver.value.batch == b))
  }

  /** Nothing joins a batch that has its turn. */
  lemma NoneJoinsTooLate(t: Timed, m: Moment, b: BatchId)
    requires Punctual(t) && Possible(t, m) && HasTurn(t.queue, b)
    ensures m.Happens? ==> !Joins(t.queue, m.event, b)
  {
    hide PendingCount, CanAppend;
    assert m.Happens? && m.event.Add? ==> !HalfOpen(t.queue, b);
  }

  lemma PunctualByBegin(t: Timed, b: BatchId, newId: MissionId, configured: bool, at: int)
    requires Punctual(t) && Possible(t, Happens(Begin(b, newId, configured), at))
    ensures Punctual(TimedStep(t, Happens(Begin(b, newId, configured), at)))
  {
    hide PendingCount;
    var s, s' := t.queue, HandOverStep(t.queue, b, newId, configured);
    forall c | HalfOpen(s', c) && c != b ensures HalfOpen(s, c) {
      var id :| IsTurnOf(s'.missions, id, c);
      assert IsTurnOf(s.missions, id, c);
    }
  }

  lemma PunctualByAdd(t: Timed, i: nat, now: int, newId: BatchId)
    requires Kept(t.queue) && Punctual(t) && Possible(t, Happens(Add(i, now, newId), now))
    ensures Punctual(TimedStep(t, Happens(Add(i, now, newId), now)))
  {
    var s, s' := t.queue, AddStep(t.queue, i, now, newId);
    AddExtends(s, i, now, newId);
    hide AddStep, Conserved, HandedOnce, NextSequence;
    forall c | HasTurn(s', c) ensures HasTurn(s, c) && c in s.batches {
      var id :| IsTurnOf(s'.missions, id, c);
      assert IsTurnOf(s.missions, id, c);
    }
    assert forall c :: HalfOpen(s', c) ==> HalfOpen(s, c);
    assert forall c :: !HalfOpen(s, c);
    hide Kept, HalfOpen;
  }

  lemma PunctualByOthers(t: Timed, e: Event, at: int)
    requires Punctual(t) && Possible(t, Happens(e, at)) && !e.Begin? && !e.Add?
    ensures Punctual(TimedStep(t, Happens(e, at)))
  {
    hide PendingCount, NextSequence;
    var s, s' := t.queue, Step(t.queue, e);
    forall c | HalfOpen(s', c) ensures HalfOpen(s, c) && s'.batches[c].dueAt == s.batches[c].dueAt {
      var id :| IsTurnOf(s'.missions, id, c);
      assert IsTurnOf(s.missions, id, c);
    }
  }

  lemma PunctualKept(t: Timed, m: Moment)
    requires Kept(t.queue) && Punctual(t) && Possible(t, m)
    ensures Punctual(TimedStep(t, m))
  {
    match m
    case Happens(e, at) =>
      hide TimedStep, Punctual, Kept;
      if e.Begin? {
        PunctualByBegin(t, e.batch, e.freshMission, e.configured, at);
      } else if e.Add? {
        PunctualByAdd(t, e.row, e.now, e.freshBatch);
      } else {
        PunctualByOthers(t, e, at);
      }
    case FirstFlushDone(_) =>
  }

  lemma {:induction false} PunctualInRuns(t: Timed, ms: seq<Moment>)
    requires Kept(t.queue) && Punctual(t) && PossibleRun(t, ms)
    ensures Kept(TimedRun(t, ms).queue) && Punctual(TimedRun(t, ms))
    decreases |ms|
  {
    if ms != [] {
      PunctualKept(t, ms[0]);
      if ms[0].Happens? { OneStepKept(t.queue, ms[0].event, 0); }
      hide Kept, Punctual, Possible, Step;
      PunctualInRuns(TimedStep(t, ms[0]), ms[1..]);
    }
  }

  lemma {:induction false} NothingJoinsAfterTheTurn(t: Timed, ms: seq<Moment>, b: BatchId)
    requires Kept(t.queue) && Punctual(t) && PossibleRun(t, ms) && b in t.queue.batches && HasTurn(t.queue, b)
    ensures Members(TimedRun(t, ms).queue.messages, b) == Members(t.queue.messages, b)
    decreases |ms|
  {
    if ms != [] {
      PunctualKept(t, ms[0]);
      NoneJoinsTooLate(t, ms[0], b);
      if ms[0].Happens? {
        OneStepKept(t.queue, ms[0].event, b);
        MembersChangeExactly(t.queue, ms[0].event, b);
      }
      hide Kept, Punctual, Possible, Step, Members, HasTurn, Joins;
      NothingJoinsAfterTheTurn(TimedStep(t, ms[0]), ms[1..], b);
    }
  }

  /** From the first start on, over any crashes and restarts: once a batch has its turn, its messages stay the ones the
      turn was written from. */
  lemma MembersStayAfterTheTurn(now: int, before: seq<Moment>, after: seq<Moment>, b: BatchId)
    requires PossibleRun(Timed(EMPTY, now, false), before)
    requires var t := TimedRun(Timed(EMPTY, now, false), before);
      PossibleRun(t, after) && b in t.queue.batches && HasTurn(t.queue, b)
    ensures var t := TimedRun(Timed(EMPTY, now, false), before);
      Members(TimedRun(t, after).queue.messages, b) == Members(t.queue.messages, b)
  {
    PunctualInRuns(Timed(EMPTY, now, false), before);
    hide TimedRun, PossibleRun, Kept, Punctual, Members;
    NothingJoinsAfterTheTurn(TimedRun(Timed(EMPTY, now, false), before), after, b);
  }
}
