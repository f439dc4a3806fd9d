/** The batcher as the class that holds it: claims, addToBatch and the loop of flushBatches over the two tables. */
module WhatsAppBatcherModel {
  import opened Records
  import opened IngressQueue
  import opened IngressProofs
  import opened QueueOrder

  function DueBatches(t: Batches, now: int): set<BatchId> {
    set b | b in t && t[b].status.Open? && t[b].dueAt <= now
  }

  ghost predicate IsFirstBatch(t: Batches, todo: set<BatchId>, b: BatchId)
    requires todo <= t.Keys
  {
    b in todo && forall c :: c in todo ==> t[b].sequence <= t[c].sequence
  }

  lemma FirstBatchExists(t: Batches, todo: set<BatchId>)
    requires todo <= t.Keys && todo != {}
    ensures exists b :: IsFirstBatch(t, todo, b)
  {
    var k :| k in todo;
    if todo != {k} {
      FirstBatchExists(t, todo - {k});
      var b :| IsFirstBatch(t, todo - {k}, b);
      assert IsFirstBatch(t, todo, if t[k].sequence <= t[b].sequence then k else b);
    } else {
      assert IsFirstBatch(t, todo, k);
    }
  }

  ghost function FirstBatch(t: Batches, todo: set<BatchId>): (b: BatchId)
    requires todo <= t.Keys && todo != {}
    ensures IsFirstBatch(t, todo, b)
  {
    FirstBatchExists(t, todo);
    var b :| IsFirstBatch(t, todo, b);
    b
  }

  /** The call of processNext inside create: it may start a turn that waits. */
  function Dispatch(s: State, next: Option<MissionId>): State {
    if next.Some? && IsQueued(s, next.value) then SetStatusStep(s, next.value, Starting) else s
  }

  /** One round of flushBatches; a refusal comes before the call. */
  ghost function Round(s: State, b: BatchId, newId: MissionId, configured: bool, next: Option<MissionId>): State {
    var t := FlushStep(s, b, newId, configured);
    if Refuses(s, configured) then t else Dispatch(t, next)
  }

  /** The ids that new turns would get, and the turns that are started during the pass, by the batch. */
  datatype Pass = Pass(ids: map<BatchId, MissionId>, started: map<BatchId, MissionId>, configured: bool)

  function StartedIn(p: Pass, b: BatchId): Option<MissionId> {
    if b in p.started then Some(p.started[b]) else None
  }

  /** The loop of flushBatches: the batches of todo, in the order of the queue. */
  ghost function FlushAll(s: State, todo: set<BatchId>, p: Pass): State
    requires todo <= s.batches.Keys && todo <= p.ids.Keys && s.handOver.None?
    decreases |todo|
  {
    if todo == {} then s
    else
      var b := FirstBatch(s.batches, todo);
      RoundEffect(s, b, p.ids[b], p.configured, StartedIn(p, b));
      FlushAll(Round(s, b, p.ids[b], p.configured, StartedIn(p, b)), todo - {b}, p)
  }

  lemma RoundEffect(s: State, b: BatchId, newId: MissionId, configured: bool, next: Option<MissionId>)
    requires s.handOver.None?
    ensures var s' := Round(s, b, newId, configured, next);
      && s'.handOver.None? && s'.batches.Keys == s.batches.Keys
      && (forall c :: c in s.batches && c != b ==> s'.batches[c] == s.batches[c])
      && s.missions.Keys <= s'.missions.Keys <= s.missions.Keys + {newId}
      && (forall id :: id in s.missions && IsQueued(s', id) ==> IsQueued(s, id))
      && (b in s.batches && !s.batches[b].status.Open? ==> !s'.batches[b].status.Open?)
      && (b in s.batches && newId !in s.missions ==> !s'.batches[b].status.Open?)
  {
    FlushEffect(s, b, newId, configured);
    FlushEmptiesHand(s, b, newId, configured);
    if b in s.batches && newId !in s.missions { FlushCloses(s, b, newId, configured); }
    hide FlushStep;
  }

  lemma RoundNeverRaisesPositions(s: State, b: BatchId, newId: MissionId, configured: bool, next: Option<MissionId>,
                                  id: MissionId)
    requires s.handOver.None? && IsQueued(s, id) && IsQueued(Round(s, b, newId, configured, next), id)
    ensures Position(Round(s, b, newId, configured, next), id) <= Position(s, id)
  {
    FlushEffect(s, b, newId, configured);
    hide FlushStep;
    var t, u := FlushStep(s, b, newId, configured), Round(s, b, newId, configured, next);
    FlushNeverRaisesPositions(s, b, newId, configured, id);
    NoLongerAhead(t, u, id);
  }

  /** The ids are new, and none is drawn twice. */
  ghost predicate NewIds(s: State, ids: map<BatchId, MissionId>) {
    && (forall b :: b in ids ==> ids[b] !in s.missions)
    && (forall b, c :: b in ids && c in ids && ids[b] == ids[c] ==> b == c)
  }

  /** A batch that is flushed is closed: it has become a turn, or it is refused. */
  lemma FlushCloses(s: State, b: BatchId, newId: MissionId, configured: bool)
    requires b in s.batches && s.handOver.None? && newId !in s.missions
    ensures !FlushStep(s, b, newId, configured).batches[b].status.Open?
  {
    hide PendingCount;
  }

  /** No batch that was due stays open, and no turn that still waits afterwards is told a later position. */
  lemma {:induction false} FlushAllCloses(s: State, todo: set<BatchId>, p: Pass, id: MissionId)
    requires todo <= s.batches.Keys && todo <= p.ids.Keys && s.handOver.None?
    requires forall b :: b in todo ==> p.ids[b] !in s.missions
    requires forall b, c :: b in todo && c in todo && p.ids[b] == p.ids[c] ==> b == c
    ensures var s' := FlushAll(s, todo, p);
      && s'.batches.Keys == s.batches.Keys
      && (forall b :: b in s.batches && !s.batches[b].status.Open? ==> !s'.batches[b].status.Open?)
      && (forall b :: b in todo ==> !s'.batches[b].status.Open?)
      && (id in s.missions && IsQueued(s', id) ==> IsQueued(s, id) && Position(s', id) <= Position(s, id))
    decreases |todo|
  {
    if todo != {} {
      var b := FirstBatch(s.batches, todo);
      var newId, next := p.ids[b], StartedIn(p, b);
      RoundEffect(s, b, newId, p.configured, next);
      var t := Round(s, b, newId, p.configured, next);
      if IsQueued(s, id) && IsQueued(t, id) {
        RoundNeverRaisesPositions(s, b, newId, p.configured, next, id);
      }
      hide Round, IsQueued, Position, StartedIn;
      FlushAllCloses(t, todo - {b}, p, id);
    }
  }

  lemma MaxIsUnique(ns: set<nat>, m: nat)
    requires (forall n :: n in ns ==> n <= m) && (m == 0 || m in ns)
    ensures m == Max(ns)
  {
  }

  /** MAX(sequence), 0 for an empty table. */
  method GreatestOf(taken: set<nat>) returns (greatest: nat)
    ensures greatest == Max(taken)
  {
    greatest := 0;
    var rest := taken;
    while rest != {}
      invariant rest <= taken
      invariant forall n :: n in taken && n !in rest ==> n <= greatest
      invariant greatest == 0 || greatest in taken
      decreases |rest|
    {
      var n: nat :| n in rest;
      if n > greatest { greatest := n; }
      rest := rest - {n};
    }
    MaxIsUnique(taken, greatest);
  }

  lemma RoundKeepsPositions(s: State, b: BatchId, newId: MissionId, configured: bool, next: Option<MissionId>)
    requires Positions(s.missions, s.batches)
    ensures var s' := Round(s, b, newId, configured, next); Positions(s'.missions, s'.batches)
  {
    hide HandOverStep, MarkStep, Positions, SetStatusStep;
    PositionsKept(s, Begin(b, newId, configured));
    PositionsKept(HandOverStep(s, b, newId, configured), Mark);
    if next.Some? { PositionsKept(FlushStep(s, b, newId, configured), SetStatus(next.value, Starting)); }
  }

  lemma FlushAllUnfolds(s: State, todo: set<BatchId>, b: BatchId, p: Pass)
    requires Positions(s.missions, s.batches) && s.handOver.None?
    requires todo <= s.batches.Keys && todo <= p.ids.Keys && IsFirstBatch(s.batches, todo, b)
    ensures var s' := Round(s, b, p.ids[b], p.configured, StartedIn(p, b));
      && s'.batches.Keys == s.batches.Keys && s'.handOver.None?
      && Positions(s'.missions, s'.batches)
      && (forall c :: c in todo && c != b ==> s'.batches[c] == s.batches[c])
      && s'.missions.Keys <= s.missions.Keys + {p.ids[b]}
      && FlushAll(s, todo, p) == FlushAll(s', todo - {b}, p)
  {
    RoundEffect(s, b, p.ids[b], p.configured, StartedIn(p, b));
    RoundKeepsPositions(s, b, p.ids[b], p.configured, StartedIn(p, b));
    assert b == FirstBatch(s.batches, todo);
    hide Round;
  }

  lemma FlushAllOfNone(s: State, p: Pass)
    requires s.handOver.None?
    ensures FlushAll(s, {}, p) == s
  {
  }

  lemma FlushEmptiesHand(s: State, b: BatchId, newId: MissionId, configured: bool)
    requires s.handOver.None?
    ensures FlushStep(s, b, newId, configured).handOver.None?
  {
    hide PendingCount;
  }

  class WhatsAppBatcher {
    var missions: Missions
    var batches: Batches
    var messages: seq<Message>
    var claims: set<MessageId>
    var clearingContext: bool
    var startedAfter: Option<nat>       // conversation_started_after_sequence

    ghost function View(): State
      reads this
    {
      State(missions, batches, messages, claims, None, clearingContext, startedAfter)
    }

    ghost predicate Valid()
      reads this
    {
      Positions(missions, batches)
    }

    /** claimInboundMessage: INSERT OR IGNORE, and whether a row was inserted. */
    method ClaimInboundMessage(id: MessageId) returns (claimed: bool)
      modifies this`messages, this`claims
      ensures View() == ClaimStep(old(View()), id)
      ensures claimed <==> !Known(old(messages), id)
    {
      claimed := true;
      var i := 0;
      while i < |messages|
        invariant 0 <= i <= |messages|
        invariant forall j :: 0 <= j < i ==> messages[j].id != id
      {
        if messages[i].id == id { return false; }
        i := i + 1;
      }
      messages := messages + [Message(id, None, None)];
      claims := claims + {id};
    }

    /** One more than the greatest position in either table. */
    method ReserveEnqueueSequence() returns (next: nat)
      ensures next == NextSequence(View())
    {
      var greatest := GreatestOf(MissionSequences(missions) + BatchSequences(batches));
      next := greatest + 1;
    }

    method QueuePosition(id: MissionId) returns (position: Option<nat>)
      ensures position.Some? <==> IsQueued(View(), id)
      ensures position.Some? ==> position.value == Position(View(), id)
    {
      if id !in missions || !missions[id].status.Queued? { return None; }
      var n := missions[id].sequence;
      var ahead := |set j | j in missions && missions[j].status.Queued? && missions[j].sequence < n|
        + |set b | b in batches && batches[b].status.Open? && batches[b].sequence < n|;
      assert (set j | j in missions && missions[j].status.Queued?
          && missions[j].sequence < n) == QueuedAhead(View(), n);
      assert (set b | b in batches && batches[b].status.Open? && batches[b].sequence < n) == BatchesAhead(View(), n);
      return Some(ahead + 1);
    }

    method LastOpenBatch() returns (last: Option<BatchId>)
      requires Valid()
      ensures last == LastOpen(batches)
    {
      last := None;
      var rest := set b | b in batches && batches[b].status.Open?;
      ghost var open := rest;
      while rest != {}
        invariant rest <= open
        invariant last.None? ==> rest == open
        invariant last.Some? ==> last.value in open - rest
        invariant last.Some? ==> forall c :: c in open - rest ==> batches[c].sequence <= batches[last.value].sequence
        decreases |rest|
      {
        var b :| b in rest;
        if last.None? || batches[b].sequence > batches[last.value].sequence { last := Some(b); }
        rest := rest - {b};
      }
      assert open == OpenBatches(batches);
      if last.Some? {
        assert forall c :: c in batches && batches[c].status.Open? ==> c in open;
      }
    }

    /** addToBatch for the row i; false is the refusal of a full queue. */
    method AddToBatch(i: nat, now: int, newId: BatchId) returns (added: bool)
      requires Valid() && i < |messages| && messages[i].id in claims && newId !in batches
      modifies this`batches, this`messages, this`claims
      ensures View() == AddStep(old(View()), i, now, newId)
      ensures added <==> old(PendingCount(View())) < MAX_PENDING_TURNS
    {
      hide NextSequence, LinkStep, RowLoad, CanAppend, OpenBatches, PendingMissions;
      if |PendingMissions(missions)| + |OpenBatches(batches)| >= MAX_PENDING_TURNS {
        claims := claims - {messages[i].id};
        return false;
      }
      var last := LastOpenBatch();
      if last.Some? && CanAppend(batches[last.value].load, RowLoad(messages[i])) {
        LinkMessage(i, last.value, batches[last.value], now);
      } else {
        var sequence := ReserveEnqueueSequence();
        LinkMessage(i, newId, NewBatch(sequence), now);
      }
      return true;
    }

    /** The transaction of addToBatch. */
    method LinkMessage(i: nat, b: BatchId, batch: Batch, now: int)
      requires i < |messages|
      modifies this`batches, this`messages, this`claims
      ensures View() == LinkStep(old(View()), i, b, batch, now)
    {
      var load := Plus(batch.load, RowLoad(messages[i]));
      batches := batches[b := batch.(dueAt := DueAt(now, load), load := load)];
      messages := messages[i := messages[i].(batch := Some(b))];
      claims := claims - {messages[i].id};
    }

    /** One round of the loop: create the turn, or find the one an interrupted hand-over left, let it or another one
        start, and mark the batch. */
    method FlushBatch(b: BatchId, newId: MissionId, configured: bool, next: Option<MissionId>)
      requires Valid() && b in batches && batches[b].status.Open? && newId !in missions
      modifies this`missions, this`batches
      ensures View() == Round(old(View()), b, newId, configured, next)
    {
      hide UniqueSequences, OpenBatches, PendingMissions;
      if clearingContext || !configured || |PendingMissions(missions)| + |OpenBatches(batches)| >= MAX_PENDING_TURNS {
        batches := batches[b := batches[b].(status := Rejected)];
        return;
      }
      var found := FindByIngress(b);
      assert found.Some? ==> IsTurnOf(missions, found.value, b);
      if found.None? {
        missions := missions[newId := NewMission(batches[b].sequence, Some(b))];
      }
      var turn := if found.Some? then found.value else newId;
      if next.Some? && next.value in missions && missions[next.value].status.Queued? {
        missions := missions[next.value := missions[next.value].(status := Starting)];
      }
      batches := batches[b := batches[b].(status := HandedOver, turn := Some(turn))];
    }

    method FindByIngress(b: BatchId) returns (found: Option<MissionId>)
      requires Valid() && b in batches
      ensures found.None? ==> forall id :: !IsTurnOf(missions, id, b)
      ensures found.Some? ==> forall id :: IsTurnOf(missions, id, b) <==> id == found.value
    {
      var turns := set id | id in missions && missions[id].ingress == Some(b);
      if turns == {} {
        assert forall id :: IsTurnOf(missions, id, b) ==> id in turns;
        return None;
      }
      var turn :| turn in turns;
      assert IsTurnOf(missions, turn, b);
      return Some(turn);
    }

    /** flushBatches: every batch that is due, in the order of the queue. */
    method FlushBatches(now: int, p: Pass)
      requires Valid() && batches.Keys <= p.ids.Keys && NewIds(View(), p.ids)
      modifies this`missions, this`batches
      ensures View() == FlushAll(old(View()), DueBatches(old(batches), now), p)
      ensures Valid()
    {
      hide FlushAll, Round, Positions;
      var todo := DueBatches(batches, now);
      ghost var due := todo;
      while todo != {}
        invariant Valid() && todo <= batches.Keys && batches.Keys == old(batches.Keys)
        invariant forall b :: b in todo ==> batches[b].status.Open? && p.ids[b] !in missions
        invariant FlushAll(View(), todo, p) == FlushAll(old(View()), due, p)
        decreases |todo|
      {
        FirstBatchExists(batches, todo);
        var b :| b in todo && forall c :: c in todo ==> batches[b].sequence <= batches[c].sequence;
        FlushAllUnfolds(View(), todo, b, p);
        todo := todo - {b};
        FlushBatch(b, p.ids[b], p.configured, StartedIn(p, b));
      }
      FlushAllOfNone(View(), p);
    }
  }
}
