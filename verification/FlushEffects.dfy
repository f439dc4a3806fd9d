/** What a pass of flushBatches does to the batches that are due, and to the turns. */
module FlushEffects {
  import opened Records
  import opened IngressQueue
  import opened IngressProofs
  import opened BatchTotals
  import opened IngressEffects
  import opened WhatsAppBatcherModel

  /** b is handed over to m, which has its place in the queue. */
  predicate BecameTurn(t: State, b: BatchId) {
    && b in t.batches && t.batches[b].status == HandedOver && t.batches[b].turn != None
    && t.batches[b].turn.value in t.missions
    && t.missions[t.batches[b].turn.value].ingress == Some(b)
    && t.missions[t.batches[b].turn.value].sequence == t.batches[b].sequence
  }

  predicate WasRefused(t: State, b: BatchId) {
    b in t.batches && t.batches[b].status == Rejected && t.batches[b].turn == None
  }

  /** A turn is left alone, or starts because a round lets it. */
  predicate RowOrStarted(s: State, t: State, m: MissionId, started: set<MissionId>)
    requires m in s.missions
  {
    && m in t.missions
    && (t.missions[m] == s.missions[m]
        || (m in started && s.missions[m].status == Queued && t.missions[m] == s.missions[m].(status := Starting)))
  }

  function TurnSet(next: Option<MissionId>): set<MissionId> {
    match next
    case Some(m) => {m}
    case None => {}
  }

  ghost predicate RoundIsAsTold(s: State, t: State, b: BatchId, newId: MissionId, configured: bool,
                                next: Option<MissionId>)
  {
    && t.clearing == s.clearing && t.handOver == None && t.messages == s.messages && t.batches.Keys == s.batches.Keys
    && (forall c :: c in s.batches && c != b ==> t.batches[c] == s.batches[c])
    && (if TakesTurns(s, configured) then BecameTurn(t, b) else WasRefused(t, b) && t.missions == s.missions)
    && s.missions.Keys <= t.missions.Keys <= s.missions.Keys + {newId}
    && (forall m :: m in s.missions ==> RowOrStarted(s, t, m, TurnSet(next)))
    && |Waiting(t)| + |StillOpen(t)| <= |Waiting(s)| + |StillOpen(s)|
  }

  lemma FlushRefused(s: State, b: BatchId, newId: MissionId, configured: bool)
    requires s.handOver.None? && b in StillOpen(s) && s.batches[b].turn.None? && !TakesTurns(s, configured)
    ensures RoundIsAsTold(s, FlushStep(s, b, newId, configured), b, newId, configured, None)
  {
    var t := FlushStep(s, b, newId, configured);
    PendingInWords(s);
    hide PendingCount;
    assert t == s.(batches := s.batches[b := s.batches[b].(status := Rejected)]);
    assert StillOpen(t) == StillOpen(s) - {b};
    assert Waiting(t) == Waiting(s);
  }

  /** b is handed over to m. */
  lemma HandedTo(s: State, b: BatchId, m: MissionId, newId: MissionId, t: State, configured: bool)
    requires b in StillOpen(s) && TakesTurns(s, configured) && newId !in s.missions
    requires m == newId || IsTurnOf(s.missions, m, b)
    requires IsTurnOf(s.missions, m, b) ==> s.missions[m].sequence == s.batches[b].sequence
    requires t == s.(batches := s.batches[b := s.batches[b].(status := HandedOver, turn := Some(m))], handOver := None,
                     missions := if m == newId then s.missions[newId := NewMission(s.batches[b].sequence, Some(b))]
                                 else s.missions)
    ensures RoundIsAsTold(s, t, b, newId, configured, None)
  {
    OneLess(s, b, newId, t);
    hide Waiting, StillOpen, TakesTurns;
  }

  /** A batch less, and at most one turn more. */
  lemma OneLess(s: State, b: BatchId, newId: MissionId, t: State)
    requires b in StillOpen(s) && newId !in s.missions
    requires t.batches.Keys == s.batches.Keys && t.batches[b].status != Open
    requires forall c :: c in s.batches && c != b ==> t.batches[c] == s.batches[c]
    requires t.missions == s.missions
      || (newId in t.missions && t.missions == s.missions[newId := t.missions[newId]])
    ensures |Waiting(t)| + |StillOpen(t)| <= |Waiting(s)| + |StillOpen(s)|
  {
    assert StillOpen(t) == StillOpen(s) - {b};
    assert Waiting(t) <= Waiting(s) + {newId} && newId !in Waiting(s);
    SubsetSize(Waiting(t), Waiting(s) + {newId});
  }

  /** The hand-over and the marking, before a turn is started. */
  lemma Flushed(s: State, b: BatchId, newId: MissionId, configured: bool)
    requires Positions(s.missions, s.batches) && s.handOver.None?
    requires b in StillOpen(s) && s.batches[b].turn.None? && newId !in s.missions
    ensures RoundIsAsTold(s, FlushStep(s, b, newId, configured), b, newId, configured, None)
  {
    PendingInWords(s);
    if TakesTurns(s, configured) {
      var begun, t := HandOverStep(s, b, newId, configured), FlushStep(s, b, newId, configured);
      hide PendingCount, UniqueSequences, RoundIsAsTold, Waiting, TakesTurns;
      assert begun.handOver.Some? && begun.handOver.value.batch == b;
      HandedTo(s, b, begun.handOver.value.mission, newId, t, configured);
    } else {
      FlushRefused(s, b, newId, configured);
    }
  }

  lemma Dispatched(s: State, t: State, b: BatchId, newId: MissionId, configured: bool, next: Option<MissionId>)
    requires newId !in s.missions && TakesTurns(s, configured)
    requires RoundIsAsTold(s, t, b, newId, configured, None)
    ensures RoundIsAsTold(s, Dispatch(t, next), b, newId, configured, next)
  {
    var u := Dispatch(t, next);
    assert Waiting(u) == Waiting(t) && StillOpen(u) == StillOpen(t);
    hide TakesTurns, Waiting, StillOpen;
  }

  lemma OneRound(s: State, b: BatchId, newId: MissionId, configured: bool, next: Option<MissionId>)
    requires Positions(s.missions, s.batches) && s.handOver.None?
    requires b in StillOpen(s) && s.batches[b].turn.None? && newId !in s.missions
    ensures RoundIsAsTold(s, Round(s, b, newId, configured, next), b, newId, configured, next)
  {
    Flushed(s, b, newId, configured);
    PendingInWords(s);
    if TakesTurns(s, configured) {
      Dispatched(s, FlushStep(s, b, newId, configured), b, newId, configured, next);
    } else {
      assert forall m :: m in s.missions ==> RowOrStarted(s, s, m, TurnSet(next));
    }
    hide FlushStep, RoundIsAsTold, Waiting, StillOpen, PendingCount;
  }

  ghost predicate OpenHasNoTurn(s: State) {
    forall b :: b in s.batches && s.batches[b].status == Open ==> s.batches[b].turn == None
  }

  /** As long as a batch is open it has no turn, in every run. */
  lemma {:induction false} OpenHasNoTurnInRuns(s: State, es: seq<Event>)
    requires OpenHasNoTurn(s)
    ensures OpenHasNoTurn(Run(s, es))
    decreases |es|
  {
    if es != [] {
      OpenHasNoTurnKept(s, es[0]);
      hide Step, OpenHasNoTurn;
      OpenHasNoTurnInRuns(Step(s, es[0]), es[1..]);
    }
  }

  lemma OpenHasNoTurnKept(s: State, e: Event)
    requires OpenHasNoTurn(s)
    ensures OpenHasNoTurn(Step(s, e))
  {
    if e.Add? {
      OpenHasNoTurnByAdd(s, e.row, e.now, e.freshBatch);
    } else {
      OpenHasNoTurnByOthers(s, e);
    }
    hide Step;
  }

  lemma OpenHasNoTurnByOthers(s: State, e: Event)
    requires OpenHasNoTurn(s) && !e.Add?
    ensures OpenHasNoTurn(Step(s, e))
  {
    forall b | b in Step(s, e).batches && Step(s, e).batches[b].status == Open
      ensures Step(s, e).batches[b].turn == None
    {
      BatchesInWords(s, e, b);
    }
    hide Step;
  }

  lemma OpenHasNoTurnByAdd(s: State, i: nat, now: int, newId: BatchId)
    requires OpenHasNoTurn(s)
    ensures OpenHasNoTurn(AddStep(s, i, now, newId))
  {
    hide NextSequence, PendingCount, Max, RowLoad, CanAppend, DueAt;
  }

  /** The batches would get new ids, each its own. */
  predicate FreshFor(s: State, todo: set<BatchId>, ids: map<BatchId, MissionId>) {
    && (forall b :: b in todo ==> b in ids && ids[b] !in s.missions)
    && forall b, c :: b in todo && c in todo && b != c ==> ids[b] != ids[c]
  }

  ghost predicate PassIsAsTold(s: State, t: State, todo: set<BatchId>, p: Pass) {
    && (forall c :: c in s.batches && c !in todo ==> c in t.batches && t.batches[c] == s.batches[c])
    && (forall m :: m in s.missions ==> RowOrStarted(s, t, m, p.started.Values))
    && (TakesTurns(s, p.configured) ==> forall b :: b in todo ==> BecameTurn(t, b))
    && (!p.configured || s.clearing ==> forall b :: b in todo ==> WasRefused(t, b))
  }

  lemma StillATurn(s: State, t: State, u: State, b: BatchId, p: Pass, todo: set<BatchId>)
    requires BecameTurn(s, b) && b in s.batches && b !in todo
    requires PassIsAsTold(s, u, todo, p)
    ensures BecameTurn(u, b)
  {
    assert RowOrStarted(s, u, s.batches[b].turn.value, p.started.Values);
  }

  lemma {:induction false} APass(s: State, todo: set<BatchId>, p: Pass)
    requires Positions(s.missions, s.batches) && OpenHasNoTurn(s) && s.handOver.None?
    requires todo <= StillOpen(s) && todo <= p.ids.Keys && FreshFor(s, todo, p.ids)
    ensures PassIsAsTold(s, FlushAll(s, todo, p), todo, p)
    decreases |todo|
  {
    if todo == {} {
      FlushAllOfNone(s, p);
    } else {
      var b := FirstBatch(s.batches, todo);
      var next := StartedIn(p, b);
      var t, rest := Round(s, b, p.ids[b], p.configured, next), todo - {b};
      OneRound(s, b, p.ids[b], p.configured, next);
      FlushAllUnfolds(s, todo, b, p);
      AfterTheFirst(s, t, todo, b, p);
      hide Round, Positions, Waiting, RowOrStarted, BecameTurn, WasRefused;
      APass(t, rest, p);
      hide FlushAll;
      Joined(s, t, FlushAll(t, rest, p), todo, b, p);
    }
  }

  lemma AfterTheFirst(s: State, t: State, todo: set<BatchId>, b: BatchId, p: Pass)
    requires OpenHasNoTurn(s) && todo <= StillOpen(s) && FreshFor(s, todo, p.ids) && b in todo
    requires RoundIsAsTold(s, t, b, p.ids[b], p.configured, StartedIn(p, b))
    ensures OpenHasNoTurn(t) && todo - {b} <= StillOpen(t) && FreshFor(t, todo - {b}, p.ids)
  {
    hide Waiting, RowOrStarted, TakesTurns;
  }

  lemma Joined(s: State, t: State, u: State, todo: set<BatchId>, b: BatchId, p: Pass)
    requires b in todo && b in p.ids && todo <= s.batches.Keys
    requires RoundIsAsTold(s, t, b, p.ids[b], p.configured, StartedIn(p, b))
    requires PassIsAsTold(t, u, todo - {b}, p)
    ensures PassIsAsTold(s, u, todo, p)
  {
    hide Waiting, StillOpen;
    forall m | m in s.missions ensures RowOrStarted(s, u, m, p.started.Values) {
      assert RowOrStarted(s, t, m, TurnSet(StartedIn(p, b))) && RowOrStarted(t, u, m, p.started.Values);
    }
    if BecameTurn(t, b) { StillATurn(t, t, u, b, p, todo - {b}); }
    assert b in t.batches && u.batches[b] == t.batches[b];
  }

  /** In a pass at an instant the open batches that are due by then, and no others, are closed. While Codex is set up,
      the context is not being cleared and fewer than 250 turns and batches are pending, every one of them becomes a
      turn in its own place, even if they are hundreds, for a batch that becomes a turn frees a place; without Codex
      or during a clearing every one is refused. No turn is touched, except that a waiting one may start. */
  lemma APassInWords(s: State, now: int, p: Pass)
    requires Positions(s.missions, s.batches) && OpenHasNoTurn(s) && s.handOver.None?
    requires s.batches.Keys <= p.ids.Keys && NewIds(s, p.ids)
    ensures var t := FlushAll(s, DueBatches(s.batches, now), p);
      && (forall b :: b in s.batches && s.batches[b].status == Open && s.batches[b].dueAt <= now ==>
        && (TakesTurns(s, p.configured) ==> BecameTurn(t, b))
        && (!p.configured || s.clearing ==> WasRefused(t, b)))
      && (forall b :: b in s.batches && !(s.batches[b].status == Open && s.batches[b].dueAt <= now) ==>
        b in t.batches && t.batches[b] == s.batches[b])
      && (forall m :: m in s.missions ==> RowOrStarted(s, t, m, p.started.Values))
  {
    var due := DueBatches(s.batches, now);
    APass(s, due, p);
    hide FlushAll, BecameTurn, WasRefused, RowOrStarted, TakesTurns;
    assert forall b :: b in due <==> b in s.batches && s.batches[b].status == Open && s.batches[b].dueAt <= now;
  }
}
