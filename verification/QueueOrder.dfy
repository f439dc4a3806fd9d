/** The position a waiting turn is told. */
module QueueOrder {
  import opened Records
  import opened IngressQueue
  import opened IngressProofs

  predicate IsQueued(s: State, id: MissionId) {
    id in s.missions && s.missions[id].status.Queued?
  }

  function Image(f: map<nat, nat>, a: set<nat>): set<nat>
    requires a <= f.Keys
  {
    set i | i in a :: f[i]
  }

  lemma {:induction false} ImageSize(f: map<nat, nat>, a: set<nat>)
    requires a <= f.Keys
    requires forall i, j :: i in a && j in a && f[i] == f[j] ==> i == j
    ensures |Image(f, a)| == |a|
  {
    if a != {} {
      var k :| k in a;
      ImageSize(f, a - {k});
      assert Image(f, a) == Image(f, a - {k}) + {f[k]};
    }
  }

  /** The positions taken ahead of n, by waiting turns and by open batches. */
  function TakenByTurns(s: State, n: nat): set<nat> {
    set id | id in s.missions && s.missions[id].status == Queued
        && s.missions[id].sequence < n :: s.missions[id].sequence
  }

  function TakenBy(s: State, bs: set<BatchId>): set<nat>
    requires bs <= s.batches.Keys
  {
    set b | b in bs :: s.batches[b].sequence
  }

  function TakenByBatches(s: State, n: nat): set<nat> {
    set b | b in s.batches && s.batches[b].status == Open && s.batches[b].sequence < n :: s.batches[b].sequence
  }

  /** Open batches ahead of n whose turn already waits: the hand-over was cut off by a crash. */
  function CutOff(s: State, n: nat): set<BatchId> {
    set b, id | b in s.batches && s.batches[b].status == Open && s.batches[b].sequence < n
      && id in s.missions && s.missions[id].status == Queued && s.missions[id].ingress == Some(b) :: b
  }

  lemma SharedPositions(s: State, n: nat)
    requires Positions(s.missions, s.batches)
    ensures TakenByTurns(s, n) * TakenByBatches(s, n) == TakenBy(s, CutOff(s, n))
  {
    forall k | k in TakenByTurns(s, n) * TakenByBatches(s, n)
      ensures k in TakenBy(s, CutOff(s, n))
    {
      var id :| id in s.missions && s.missions[id].status == Queued && s.missions[id].sequence == k && k < n;
      var b :| b in s.batches && s.batches[b].status == Open && s.batches[b].sequence == k;
      assert IsTurnOf(s.missions, id, b);
      assert b in CutOff(s, n);
    }
  }

  lemma TurnsTakeOneEach(s: State, n: nat)
    requires Positions(s.missions, s.batches)
    ensures |TakenByTurns(s, n)| == |QueuedAhead(s, n)|
  {
    var position := map id | id in s.missions :: s.missions[id].sequence;
    ImageSize(position, QueuedAhead(s, n));
    assert forall id :: id in QueuedAhead(s, n) <==>
      id in s.missions && s.missions[id].status == Queued && s.missions[id].sequence < n;
    assert TakenByTurns(s, n) == Image(position, QueuedAhead(s, n));
  }

  lemma BatchesTakeOneEach(s: State, bs: set<BatchId>)
    requires Positions(s.missions, s.batches) && bs <= s.batches.Keys
    ensures |TakenBy(s, bs)| == |bs|
  {
    var position := map b | b in s.batches :: s.batches[b].sequence;
    ImageSize(position, bs);
    assert TakenBy(s, bs) == Image(position, bs);
  }

  /** queuePosition is the rank among the positions taken, plus what a cut-off hand-over counts twice. */
  lemma PositionIsRank(s: State, id: MissionId)
    requires Positions(s.missions, s.batches) && IsQueued(s, id)
    ensures var n := s.missions[id].sequence;
      Position(s, id) == 1 + |TakenByTurns(s, n) + TakenByBatches(s, n)| + |CutOff(s, n)|
  {
    var n := s.missions[id].sequence;
    TurnsTakeOneEach(s, n);
    BatchesTakeOneEach(s, BatchesAhead(s, n));
    BatchesTakeOneEach(s, CutOff(s, n));
    SharedPositions(s, n);
    assert TakenByBatches(s, n) == TakenBy(s, BatchesAhead(s, n));
    hide TakenByTurns, CutOff, Positions;
    assert |TakenByTurns(s, n) + TakenByBatches(s, n)| + |TakenByTurns(s, n) * TakenByBatches(s, n)|
        == |TakenByTurns(s, n)| + |TakenByBatches(s, n)|;
  }

  /** Turns are told their positions in the order of the queue, so no two are told the same. */
  lemma PositionsFollowTheQueue(s: State, i: MissionId, j: MissionId)
    requires Positions(s.missions, s.batches) && IsQueued(s, i) && IsQueued(s, j)
    ensures Position(s, i) < Position(s, j) <==> s.missions[i].sequence < s.missions[j].sequence
    ensures Position(s, i) == Position(s, j) <==> i == j
  {
    if s.missions[i].sequence < s.missions[j].sequence {
      AheadIsStrict(s, i, j);
    } else if s.missions[j].sequence < s.missions[i].sequence {
      AheadIsStrict(s, j, i);
    }
  }

  lemma AheadIsStrict(s: State, i: MissionId, j: MissionId)
    requires IsQueued(s, i) && IsQueued(s, j) && s.missions[i].sequence < s.missions[j].sequence
    ensures Position(s, i) < Position(s, j)
  {
    var m, n := s.missions[i].sequence, s.missions[j].sequence;
    assert i in QueuedAhead(s, n) && i !in QueuedAhead(s, m);
    SubsetSize(QueuedAhead(s, m), QueuedAhead(s, n));
    SubsetSize(BatchesAhead(s, m), BatchesAhead(s, n));
  }

  /** The turn dispatched next is behind open batches only. */
  lemma NextIsBehindBatchesOnly(s: State)
    requires HasQueued(s.missions)
    ensures var next := NextQueued(s.missions);
      Position(s, next) == 1 + |BatchesAhead(s, s.missions[next].sequence)|
  {
    assert QueuedAhead(s, s.missions[NextQueued(s.missions)].sequence) == {};
  }

  /** The steps that put no turn back into the queue and create none ahead of another. */
  predicate Forward(e: Event) {
    match e
    case SetStatus(_, status) => !status.Queued?
    case Begin(_, _, _) => false
    case _ => true
  }

  lemma NoLongerAhead(s: State, s': State, id: MissionId)
    requires IsQueued(s, id) && IsQueued(s', id) && s'.missions[id].sequence == s.missions[id].sequence
    requires QueuedAhead(s', s.missions[id].sequence) <= QueuedAhead(s, s.missions[id].sequence)
    requires BatchesAhead(s', s.missions[id].sequence) <= BatchesAhead(s, s.missions[id].sequence)
    ensures Position(s', id) <= Position(s, id)
  {
    SubsetSize(QueuedAhead(s', s.missions[id].sequence), QueuedAhead(s, s.missions[id].sequence));
    SubsetSize(BatchesAhead(s', s.missions[id].sequence), BatchesAhead(s, s.missions[id].sequence));
  }

  lemma ForwardQueue(s: State, e: Event)
    requires Forward(e)
    ensures forall j :: IsQueued(Step(s, e), j) && j in s.missions ==> IsQueued(s, j)
    ensures forall j :: j in Step(s, e).missions && j !in s.missions ==>
      Step(s, e).missions[j].sequence == NextSequence(s)
  {
    hide NextSequence, PendingCount;
    match e
    case Add(i, now, newId) => AddExtends(s, i, now, newId);
    case _ =>
  }

  /** While a turn waits its position never rises. */
  lemma PositionNeverRises(s: State, e: Event, id: MissionId)
    requires Positions(s.missions, s.batches) && Forward(e)
    requires IsQueued(s, id) && IsQueued(Step(s, e), id)
    ensures Position(Step(s, e), id) <= Position(s, id)
  {
    hide NextSequence, PendingCount;
    StepExtends(s, e);
    ForwardQueue(s, e);
    hide Step;
    assert forall j :: j in QueuedAhead(Step(s, e), s.missions[id].sequence) ==> IsQueued(Step(s, e), j);
    NoLongerAhead(s, Step(s, e), id);
  }

  /** What an undisturbed flush does to the tables: the batch is closed, and at most one turn takes its place. */
  lemma FlushEffect(s: State, b: BatchId, newId: MissionId, configured: bool)
    requires s.handOver.None?
    ensures var s' := FlushStep(s, b, newId, configured);
      && s.batches.Keys == s'.batches.Keys
      && (forall c :: c in s.batches ==> s'.batches[c].sequence == s.batches[c].sequence)
      && (forall c :: c in s.batches && c != b ==> s'.batches[c] == s.batches[c])
      && (b in s.batches && s'.batches[b].status.Open? ==> s.batches[b].status.Open?)
      && (s'.missions != s.missions ==>
            && b in s.batches && s.batches[b].status.Open? && !s'.batches[b].status.Open? && newId !in s.missions
            && s'.missions == s.missions[newId := NewMission(s.batches[b].sequence, Some(b))])
  {
    hide PendingCount;
  }

  /** Nor does it when a batch is flushed: the batch's place is taken by its turn. */
  lemma FlushNeverRaisesPositions(s: State, b: BatchId, newId: MissionId, configured: bool, id: MissionId)
    requires s.handOver.None?
    requires IsQueued(s, id) && IsQueued(FlushStep(s, b, newId, configured), id)
    ensures Position(FlushStep(s, b, newId, configured), id) <= Position(s, id)
  {
    FlushEffect(s, b, newId, configured);
    hide FlushStep;
    var s' := FlushStep(s, b, newId, configured);
    var n := s.missions[id].sequence;
    if s'.missions == s.missions || s.batches[b].sequence >= n {
      NoLongerAhead(s, s', id);
    } else {
      assert QueuedAhead(s', n) == QueuedAhead(s, n) + {newId};
      assert b in BatchesAhead(s, n) && BatchesAhead(s', n) == BatchesAhead(s, n) - {b};
    }
  }
}
