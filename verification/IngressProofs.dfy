/** What every run of the ingress queue keeps: positions, the conservation of batches and their hand-over. */
module IngressProofs {
  import opened Records
  import opened IngressQueue

  // ---- one counter for two tables

  /** No position is used twice, except by a batch and the turn that came from it. */
  ghost predicate Positions(t: Missions, bs: Batches) {
    && UniqueSequences(t)
    && (forall b, c :: b in bs && c in bs && bs[b].sequence == bs[c].sequence ==> b == c)
    && (forall id, b :: id in t && b in bs ==> (t[id].sequence == bs[b].sequence <==> IsTurnOf(t, id, b)))
    && (forall id :: id in t && t[id].ingress.Some? ==> t[id].ingress.value in bs)
    && (forall id :: id in t ==> t[id].sequence > 0)
    && (forall b :: b in bs ==> bs[b].sequence > 0)
  }

  lemma PositionsWithMission(t: Missions, bs: Batches, id: MissionId, m: Mission)
    requires Positions(t, bs) && id !in t && m.sequence > 0
    requires forall j :: j in t ==> t[j].sequence != m.sequence
    requires forall b :: b in bs ==> (bs[b].sequence == m.sequence <==> m.ingress == Some(b))
    requires m.ingress.Some? ==> m.ingress.value in bs
    ensures Positions(t[id := m], bs)
  {
  }

  lemma PositionsWithBatch(t: Missions, bs: Batches, b: BatchId, batch: Batch)
    requires Positions(t, bs) && b !in bs && batch.sequence > 0
    requires forall id :: id in t ==> t[id].sequence != batch.sequence
    requires forall c :: c in bs ==> bs[c].sequence != batch.sequence
    ensures Positions(t, bs[b := batch])
  {
  }

  lemma PositionsWithStatus(t: Missions, bs: Batches, id: MissionId, m: Mission)
    requires Positions(t, bs) && id in t && m.sequence == t[id].sequence && m.ingress == t[id].ingress
    ensures Positions(t[id := m], bs)
  {
  }

  lemma PositionsWithBatchState(t: Missions, bs: Batches, b: BatchId, batch: Batch)
    requires Positions(t, bs) && b in bs && batch.sequence == bs[b].sequence
    ensures Positions(t, bs[b := batch])
  {
  }

  lemma PositionsKeptByAdd(s: State, i: nat, now: int, newId: BatchId)
    requires Positions(s.missions, s.batches)
    ensures Positions(AddStep(s, i, now, newId).missions, AddStep(s, i, now, newId).batches)
  {
    var s' := AddStep(s, i, now, newId);
    if s'.batches != s.batches {
      var target := Target(s.batches, RowLoad(s.messages[i]));
      if target.Some? {
        PositionsWithBatchState(s.missions, s.batches, target.value, s'.batches[target.value]);
      } else {
        PositionsWithBatch(s.missions, s.batches, newId, s'.batches[newId]);
      }
    }
  }

  lemma PositionsKeptByHandOver(s: State, b: BatchId, newId: MissionId, configured: bool)
    requires Positions(s.missions, s.batches)
    ensures Positions(HandOverStep(s, b, newId, configured).missions, HandOverStep(s, b, newId, configured).batches)
  {
    if b in s.batches && s.batches[b].status.Open? {
      if Refuses(s, configured) {
        PositionsWithBatchState(s.missions, s.batches, b, s.batches[b].(status := Rejected));
      } else if newId !in s.missions && !(exists id :: IsTurnOf(s.missions, id, b)) {
        PositionsWithMission(s.missions, s.batches, newId, NewMission(s.batches[b].sequence, Some(b)));
      }
    }
  }

  /** Max-plus-one is always free, and every step keeps the positions. */
  lemma PositionsKept(s: State, e: Event)
    requires Positions(s.missions, s.batches)
    ensures Positions(Step(s, e).missions, Step(s, e).batches)
  {
    match e
    case Add(i, now, newId) => PositionsKeptByAdd(s, i, now, newId);
    case Create(id, configured) =>
      if id !in s.missions { PositionsWithMission(s.missions, s.batches, id, NewMission(NextSequence(s), None)); }
    case SetStatus(id, status) =>
      if id in s.missions { PositionsWithStatus(s.missions, s.batches, id, s.missions[id].(status := status)); }
    case Begin(b, newId, configured) => PositionsKeptByHandOver(s, b, newId, configured);
    case Mark =>
      if s.handOver.Some? && s.handOver.value.batch in s.batches {
        var b := s.handOver.value.batch;
        PositionsWithBatchState(s.missions, s.batches, b, MarkStep(s).batches[b]);
      }
    case Reject(b) =>
      if b in s.batches { PositionsWithBatchState(s.missions, s.batches, b, s.batches[b].(status := Rejected)); }
    case _ =>
  }

  /** What a step can do to the tables: rows keep their position and origin, closed batches stay closed, and what is
      new is behind everything or takes the place of an open batch. */
  ghost predicate Extends(s: State, s': State) {
    && s.missions.Keys <= s'.missions.Keys && s.batches.Keys <= s'.batches.Keys
    && (forall id :: id in s.missions ==>
          s'.missions[id].sequence == s.missions[id].sequence && s'.missions[id].ingress == s.missions[id].ingress)
    && (forall b :: b in s.batches ==>
          s'.batches[b].sequence == s.batches[b].sequence && (s'.batches[b].status.Open? ==> s.batches[b].status.Open?))
    && (forall b :: b in s'.batches && b !in s.batches ==> s'.batches[b].sequence == NextSequence(s))
    && (forall id :: id in s'.missions && id !in s.missions ==>
          && !s.clearing
          && (s'.missions[id].sequence == NextSequence(s) || TakesPlaceOfBatch(s, s'.missions[id])))
  }

  predicate TakesPlaceOfBatch(s: State, m: Mission) {
    && m.ingress.Some? && m.ingress.value in s.batches
    && s.batches[m.ingress.value].status.Open? && m.sequence == s.batches[m.ingress.value].sequence
  }

  lemma StepExtends(s: State, e: Event)
    ensures Extends(s, Step(s, e))
  {
    hide NextSequence, PendingCount;
    match e
    case Claim(id) =>
    case Save(i, size) =>
    case Drop(id) =>
    case Add(i, now, newId) => AddExtends(s, i, now, newId);
    case Create(id, configured) =>
    case SetStatus(id, status) =>
    case Begin(b, newId, configured) =>
    case Mark =>
    case Reject(b) =>
    case ClearCall =>
    case ClearReply(history) =>
    case Crash =>
  }

  lemma LinkExtends(s: State, i: nat, b: BatchId, batch: Batch, now: int)
    requires i < |s.messages|
    requires if b in s.batches then batch == s.batches[b] else batch == NewBatch(NextSequence(s))
    ensures Extends(s, LinkStep(s, i, b, batch, now))
  {
    hide NextSequence, DueAt, RowLoad;
  }

  lemma AddExtends(s: State, i: nat, now: int, newId: BatchId)
    ensures Extends(s, AddStep(s, i, now, newId)) && AddStep(s, i, now, newId).missions == s.missions
  {
    hide NextSequence, PendingCount, CanAppend;
    if i < |s.messages| && s.messages[i].id in s.claims && PendingCount(s) < MAX_PENDING_TURNS {
      var target := Target(s.batches, RowLoad(s.messages[i]));
      if target.Some? {
        LinkExtends(s, i, target.value, s.batches[target.value], now);
      } else if newId !in s.batches {
        LinkExtends(s, i, newId, NewBatch(NextSequence(s)), now);
      }
    }
  }

  // ---- conservation

  /** What the messages linked to b add up to. */
  function Linked(messages: seq<Message>, b: BatchId): Load {
    if messages == [] then Load(0, 0, 0)
    else Plus(if messages[0].batch == Some(b) then RowLoad(messages[0]) else Load(0, 0, 0), Linked(messages[1..], b))
  }

  predicate WithinCaps(load: Load) {
    load.messages <= MAX_BATCH_MESSAGES && load.attachments <= MAX_BATCH_ATTACHMENTS && load.bytes <= MAX_BATCH_BYTES
  }

  /** The counters of every batch are what its messages add up to, within the caps, and a claimed message is in
      no batch yet. */
  ghost predicate Conserved(s: State) {
    && (forall i, j :: 0 <= i < j < |s.messages| ==> s.messages[i].id != s.messages[j].id)
    && (forall i :: 0 <= i < |s.messages| && s.messages[i].id in s.claims ==> s.messages[i].batch.None?)
    && (forall i :: 0 <= i < |s.messages| && s.messages[i].batch.Some? ==> s.messages[i].batch.value in s.batches)
    && (forall i :: 0 <= i < |s.messages| && s.messages[i].size.Some? ==> s.messages[i].size.value <= MAX_FILE_BYTES)
    && LoadsAddUp(s.batches, s.messages)
  }

  ghost predicate LoadsAddUp(bs: Batches, messages: seq<Message>) {
    forall b :: b in bs ==> bs[b].load == Linked(messages, b) && WithinCaps(bs[b].load)
  }

  lemma {:induction false} LinkedAppend(messages: seq<Message>, m: Message, b: BatchId)
    requires m.batch.None?
    ensures Linked(messages + [m], b) == Linked(messages, b)
  {
    if messages == [] {
      assert messages + [m] == [m] && [m][1..] == [];
    } else {
      assert (messages + [m])[1..] == messages[1..] + [m];
      LinkedAppend(messages[1..], m, b);
    }
  }

  /** A row that was in no batch adds its load where it is linked now, and nowhere else. */
  lemma {:induction false} LinkedUpdate(messages: seq<Message>, i: nat, m: Message, b: BatchId)
    requires i < |messages| && messages[i].batch.None?
    ensures Linked(messages[i := m], b)
         == Plus(Linked(messages, b), if m.batch == Some(b) then RowLoad(m) else Load(0, 0, 0))
  {
    var updated := messages[i := m];
    if i == 0 {
      assert updated[1..] == messages[1..];
    } else {
      assert updated[0] == messages[0];
      assert updated[1..] == messages[1..][i - 1 := m];
      LinkedUpdate(messages[1..], i - 1, m, b);
    }
  }

  lemma {:induction false} NothingLinked(messages: seq<Message>, b: BatchId)
    requires forall i :: 0 <= i < |messages| ==> messages[i].batch != Some(b)
    ensures Linked(messages, b) == Load(0, 0, 0)
  {
    if messages != [] {
      NothingLinked(messages[1..], b);
    }
  }

  lemma LoadsByLink(bs: Batches, messages: seq<Message>, i: nat, b: BatchId, batch: Batch)
    requires LoadsAddUp(bs, messages) && i < |messages| && messages[i].batch.None?
    requires batch.load == Plus(Linked(messages, b), RowLoad(messages[i])) && WithinCaps(batch.load)
    ensures LoadsAddUp(bs[b := batch], messages[i := messages[i].(batch := Some(b))])
  {
    hide Linked;
    var row := messages[i].(batch := Some(b));
    var bs' := bs[b := batch];
    forall c | c in bs'
      ensures bs'[c].load == Linked(messages[i := row], c) && WithinCaps(bs'[c].load)
    {
      LinkedUpdate(messages, i, row, c);
    }
  }

  lemma ConservedByLink(s: State, i: nat, b: BatchId, batch: Batch, now: int)
    requires Conserved(s) && i < |s.messages| && s.messages[i].id in s.claims
    requires batch.load == Linked(s.messages, b) && WithinCaps(Plus(batch.load, RowLoad(s.messages[i])))
    ensures Conserved(LinkStep(s, i, b, batch, now))
  {
    hide Linked;
    LoadsByLink(s.batches, s.messages, i, b, LinkStep(s, i, b, batch, now).batches[b]);
  }

  lemma ConservedByAdd(s: State, i: nat, now: int, newId: BatchId)
    requires Conserved(s)
    ensures Conserved(AddStep(s, i, now, newId))
  {
    hide NextSequence, PendingCount, Linked, LinkStep, IsLastOpen;
    if i < |s.messages| && s.messages[i].id in s.claims && PendingCount(s) < MAX_PENDING_TURNS {
      var target := Target(s.batches, RowLoad(s.messages[i]));
      if target.Some? {
        assert s.batches[target.value].load == Linked(s.messages, target.value);
        hide Conserved;
        ConservedByLink(s, i, target.value, s.batches[target.value], now);
      } else if newId !in s.batches {
        NothingLinked(s.messages, newId);
        hide Conserved;
        ConservedByLink(s, i, newId, NewBatch(NextSequence(s)), now);
      }
    }
  }

  lemma ConservedBySave(s: State, i: nat, size: nat)
    requires Conserved(s)
    ensures Conserved(SaveStep(s, i, size))
  {
    if i < |s.messages| && s.messages[i].id in s.claims {
      var row := s.messages[i].(size := Some(size));
      forall b ensures Linked(s.messages[i := row], b) == Linked(s.messages, b) {
        LinkedUpdate(s.messages, i, row, b);
      }
    }
  }

  lemma ConservedByClaim(s: State, id: MessageId)
    requires Conserved(s)
    ensures Conserved(ClaimStep(s, id))
  {
    var row := Message(id, None, None);
    forall b ensures Linked(s.messages + [row], b) == Linked(s.messages, b) {
      LinkedAppend(s.messages, row, b);
    }
  }

  lemma ConservedStep(s: State, e: Event)
    requires Conserved(s)
    ensures Conserved(Step(s, e))
  {
    hide Conserved, ClaimStep, SaveStep, AddStep, CreateStep, HandOverStep;
    match e
    case Claim(id) => ConservedByClaim(s, id);
    case Save(i, size) => ConservedBySave(s, i, size);
    case Add(i, now, newId) => ConservedByAdd(s, i, now, newId);
    case _ => ConservedByOthers(s, e);
  }

  lemma ConservedByOthers(s: State, e: Event)
    requires Conserved(s) && !e.Claim? && !e.Save? && !e.Add?
    ensures Conserved(Step(s, e))
  {
    hide NextSequence, PendingCount, Linked, WithinCaps;
    var s' := Step(s, e);
    assert s'.messages == s.messages && s'.claims <= s.claims && s'.batches.Keys == s.batches.Keys;
    assert forall b :: b in s.batches ==> s'.batches[b].load == s.batches[b].load;
  }

  /** A message stays in the batch it was linked to. */
  lemma LinksStay(s: State, e: Event, i: nat)
    requires Conserved(s) && i < |s.messages| && s.messages[i].batch.Some?
    ensures i < |Step(s, e).messages| && Step(s, e).messages[i] == s.messages[i]
  {
  }

  // ---- the hand-over

  ghost predicate HandedOnce(s: State) {
    && (forall b :: b in s.batches && s.batches[b].status.HandedOver? ==>
          s.batches[b].turn.Some? && IsTurnOf(s.missions, s.batches[b].turn.value, b))
    && (s.handOver.Some? ==> IsTurnOf(s.missions, s.handOver.value.mission, s.handOver.value.batch))
  }

  lemma HandedOnceKept(s: State, e: Event)
    requires HandedOnce(s)
    ensures HandedOnce(Step(s, e))
  {
    hide NextSequence, PendingCount;
    StepExtends(s, e);
    match e
    case Add(i, now, newId) => AddExtends(s, i, now, newId); HandedOnceByAdd(s, i, now, newId);
    case _ =>
  }

  lemma HandedOnceByAdd(s: State, i: nat, now: int, newId: BatchId)
    requires HandedOnce(s)
    ensures HandedOnce(AddStep(s, i, now, newId))
  {
    hide NextSequence, PendingCount, CanAppend, RowLoad, DueAt, IsLastOpen;
  }

  /** A batch that has been handed over or refused never opens again. */
  lemma NeverReopens(s: State, e: Event, b: BatchId)
    requires b in s.batches && !s.batches[b].status.Open?
    ensures b in Step(s, e).batches && !Step(s, e).batches[b].status.Open?
  {
    StepExtends(s, e);
  }

  // ---- over whole runs

  ghost predicate Kept(s: State) {
    Positions(s.missions, s.batches) && Conserved(s) && HandedOnce(s)
  }

  /** From the empty tables on, under any interleaving of callbacks, hand-overs and crashes. */
  lemma {:induction false} KeptByRuns(s: State, es: seq<Event>)
    requires Kept(s)
    ensures Kept(Run(s, es))
    decreases |es|
  {
    if es != [] {
      PositionsKept(s, es[0]);
      ConservedStep(s, es[0]);
      HandedOnceKept(s, es[0]);
      KeptByRuns(Step(s, es[0]), es[1..]);
    }
  }

  /** A batch has at most one turn, however often its hand-over was interrupted; once it is handed over that is the
      turn it names, in the place the batch had reserved. */
  lemma OneTurnPerBatch(es: seq<Event>, b: BatchId, i: MissionId, j: MissionId)
    requires b in Run(EMPTY, es).batches
    ensures IsTurnOf(Run(EMPTY, es).missions, i, b) && IsTurnOf(Run(EMPTY, es).missions, j, b) ==> i == j
    ensures Run(EMPTY, es).batches[b].status.HandedOver? && IsTurnOf(Run(EMPTY, es).missions, i, b) ==>
      && Run(EMPTY, es).batches[b].turn == Some(i)
      && Run(EMPTY, es).missions[i].sequence == Run(EMPTY, es).batches[b].sequence
  {
    KeptByRuns(EMPTY, es);
  }

  /** In a run a message that is linked stays in its batch, and a batch that is closed stays closed. */
  lemma {:induction false} SettledForGood(s: State, es: seq<Event>, i: nat, b: BatchId)
    requires Kept(s)
    ensures i < |s.messages| && s.messages[i].batch.Some? ==>
      i < |Run(s, es).messages| && Run(s, es).messages[i] == s.messages[i]
    ensures b in s.batches && !s.batches[b].status.Open? ==>
      b in Run(s, es).batches && !Run(s, es).batches[b].status.Open?
    decreases |es|
  {
    if es != [] {
      KeptByRuns(s, [es[0]]);
      assert Run(s, [es[0]]) == Step(s, es[0]) by {
        assert [es[0]][1..] == [];
      }
      if i < |s.messages| && s.messages[i].batch.Some? { LinksStay(s, es[0], i); }
      if b in s.batches && !s.batches[b].status.Open? { NeverReopens(s, es[0], b); }
      SettledForGood(Step(s, es[0]), es[1..], i, b);
    }
  }
}
