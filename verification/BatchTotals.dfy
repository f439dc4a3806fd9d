/** What the counters of a batch are the totals of, by its messages themselves. */
module BatchTotals {
  import opened Records
  import opened IngressQueue
  import opened IngressProofs
  import opened HandOverTiming

  /** The messages of a batch that have a file. */
  function Files(messages: seq<Message>, b: BatchId): set<int> {
    set i | 0 <= i < |messages| && messages[i].batch == Some(b) && messages[i].size.Some?
  }

  /** The sizes of the files of a batch, added up. */
  function Bytes(messages: seq<Message>, b: BatchId): nat {
    if messages == [] then 0
    else
      var m := messages[|messages| - 1];
      Bytes(messages[..|messages| - 1], b) + (if m.batch == Some(b) && m.size.Some? then m.size.value else 0)
  }

  lemma {:induction false} LinkedLast(messages: seq<Message>, m: Message, b: BatchId)
    ensures Linked(messages + [m], b)
      == Plus(Linked(messages, b), if m.batch == Some(b) then RowLoad(m) else Load(0, 0, 0))
  {
    if messages == [] {
      assert messages + [m] == [m] && [m][1..] == [];
    } else {
      assert (messages + [m])[1..] == messages[1..] + [m];
      LinkedLast(messages[1..], m, b);
    }
  }

  lemma OneMoreMessage(messages: seq<Message>, m: Message, b: BatchId)
    ensures var n, all := |messages|, messages + [m];
      && |Members(all, b)| == |Members(messages, b)| + (if m.batch == Some(b) then 1 else 0)
      && |Files(all, b)| == |Files(messages, b)| + (if m.batch == Some(b) && m.size.Some? then 1 else 0)
  {
    var n, all := |messages|, messages + [m];
    assert forall i :: 0 <= i < n ==> all[i] == messages[i];
    assert Members(all, b) == Members(messages, b) + (if m.batch == Some(b) then {n as int} else {});
    assert Files(all, b) == Files(messages, b) + (if m.batch == Some(b) && m.size.Some? then {n as int} else {});
  }

  lemma OneMoreSize(messages: seq<Message>, m: Message, b: BatchId)
    ensures Bytes(messages + [m], b)
      == Bytes(messages, b) + (if m.batch == Some(b) && m.size.Some? then m.size.value else 0)
  {
    assert (messages + [m])[..|messages|] == messages;
  }

  lemma {:induction false} LinkedInWords(messages: seq<Message>, b: BatchId)
    ensures Linked(messages, b) == Load(|Members(messages, b)|, |Files(messages, b)|, Bytes(messages, b))
    decreases |messages|
  {
    if messages == [] {
      assert Members(messages, b) == {} && Files(messages, b) == {};
    } else {
      var before, m := messages[..|messages| - 1], messages[|messages| - 1];
      assert messages == before + [m];
      LinkedInWords(before, b);
      hide Linked, Members, Files, Bytes;
      LinkedLast(before, m, b);
      OneMoreMessage(before, m, b);
      OneMoreSize(before, m, b);
    }
  }

  /** In every run, crashes included: a batch counts its messages, their files and the bytes of those, never more than
      20, 5 and 50 MB, and no file is larger than 25 MB. */
  lemma CountersAreTotals(es: seq<Event>, b: BatchId)
    requires b in Run(EMPTY, es).batches
    ensures var s := Run(EMPTY, es);
      var load := s.batches[b].load;
      && load.messages == |Members(s.messages, b)| <= 20
      && load.attachments == |Files(s.messages, b)| <= 5
      && load.bytes == Bytes(s.messages, b) <= 50 * 1024 * 1024
      && forall i :: 0 <= i < |s.messages| && s.messages[i].size.Some? ==> s.messages[i].size.value <= 25 * 1024 * 1024
  {
    KeptByRuns(EMPTY, es);
    var s := Run(EMPTY, es);
    LinkedInWords(s.messages, b);
    assert s.batches[b].load == Linked(s.messages, b) && WithinCaps(s.batches[b].load);
  }

  /** Turns that wait or run, and open batches, by their statuses. */
  function Waiting(s: State): set<MissionId> {
    set m | m in s.missions && s.missions[m].status in {Queued, Starting, Running, AwaitingApproval}
  }

  function StillOpen(s: State): set<BatchId> {
    set b | b in s.batches && s.batches[b].status == Open
  }

  lemma PendingInWords(s: State)
    ensures PendingCount(s) == |Waiting(s)| + |StillOpen(s)|
  {
    assert Waiting(s) == PendingMissions(s.missions) && StillOpen(s) == OpenBatches(s.batches);
  }

  /** b was opened last, and its messages, files and bytes leave room for the message. */
  ghost predicate HasRoom(s: State, b: BatchId, m: Message) {
    var file, size := if m.size.Some? then 1 else 0, if m.size.Some? then m.size.value else 0;
    && b in StillOpen(s) && (forall c :: c in StillOpen(s) ==> s.batches[c].sequence <= s.batches[b].sequence)
    && |Members(s.messages, b)| < 20
    && |Files(s.messages, b)| + file <= 5
    && Bytes(s.messages, b) + size <= 50 * 1024 * 1024
  }

  /** Where a claimed message goes. */
  ghost predicate GoesTo(s: State, t: State, i: nat, b: BatchId, now: int)
    requires i < |s.messages|
  {
    && t.messages == s.messages[i := s.messages[i].(batch := Some(b))]
    && b in t.batches && (forall c :: c in s.batches && c != b ==> c in t.batches && t.batches[c] == s.batches[c])
    && t.claims == s.claims - {s.messages[i].id}
    && t.batches[b].status == Open
    && t.batches[b].dueAt == (if |Members(t.messages, b)| >= 20 || |Files(t.messages, b)| >= 5
                                 || Bytes(t.messages, b) >= 50 * 1024 * 1024 then now else now + 5_000)
  }

  lemma NoneIsFull(s: State, i: nat, newId: BatchId)
    requires Kept(s) && i < |s.messages| && newId !in s.batches
    ensures Members(s.messages, newId) == {} && Files(s.messages, newId) == {} && Bytes(s.messages, newId) == 0
  {
    NothingLinked(s.messages, newId);
    LinkedInWords(s.messages, newId);
  }

  lemma LinkGoes(s: State, i: nat, b: BatchId, batch: Batch, now: int)
    requires i < |s.messages| && s.messages[i].batch.None?
    requires batch.load == Linked(s.messages, b) && batch.status == Open
    ensures GoesTo(s, LinkStep(s, i, b, batch, now), i, b, now)
  {
    hide Linked, Members, Files, Bytes, LinkStep, DueAt, RowLoad, Plus;
    var t := LinkStep(s, i, b, batch, now);
    LinkedUpdate(s.messages, i, s.messages[i].(batch := Some(b)), b);
    LinkWrites(s, i, b, batch, now);
    LinkedInWords(t.messages, b);
    DueInWords(now, t.batches[b].load);
  }

  lemma LinkWrites(s: State, i: nat, b: BatchId, batch: Batch, now: int)
    requires i < |s.messages| && s.messages[i].batch.None? && batch.load == Linked(s.messages, b)
    requires Linked(s.messages[i := s.messages[i].(batch := Some(b))], b)
      == Plus(Linked(s.messages, b), RowLoad(s.messages[i].(batch := Some(b))))
    ensures var t := LinkStep(s, i, b, batch, now);
      && t.messages == s.messages[i := s.messages[i].(batch := Some(b))]
      && t.claims == s.claims - {s.messages[i].id}
      && b in t.batches && t.batches[b].status == batch.status
      && t.batches[b].load == Linked(t.messages, b) && t.batches[b].dueAt == DueAt(now, t.batches[b].load)
      && forall c :: c in s.batches && c != b ==> c in t.batches && t.batches[c] == s.batches[c]
  {
    hide Linked, DueAt, Plus;
  }

  lemma DueInWords(now: int, load: Load)
    ensures DueAt(now, load) == (if load.messages >= 20 || load.attachments >= 5
                                    || load.bytes >= 50 * 1024 * 1024 then now else now + 5_000)
  {
  }

  lemma RoomExactly(s: State, b: BatchId, m: Message)
    requires Kept(s)
    ensures HasRoom(s, b, m) <==> Target(s.batches, RowLoad(m)) == Some(b)
  {
    LinkedInWords(s.messages, b);
    hide Linked, Members, Files, Bytes, HandedOnce, Max;
    assert StillOpen(s) == OpenBatches(s.batches);
    assert forall c :: IsLastOpen(s.batches, c) && IsLastOpen(s.batches, b) ==> c == b;
  }

  /** While fewer than 250 turns and batches are pending a claimed message joins the batch opened last if that has
      room, and opens a new one behind everything if not; else it is given up. Its batch is due at once when it is
      full, and five seconds later when it is not. */
  lemma AddedInWords(s: State, i: nat, now: int, newId: BatchId)
    requires Kept(s) && i < |s.messages| && s.messages[i].id in s.claims && newId !in s.batches
    ensures var t := AddStep(s, i, now, newId);
      && t.missions == s.missions && t.handOver == s.handOver && t.clearing == s.clearing && t.cut == s.cut
      && (|Waiting(s)| + |StillOpen(s)| >= 250 ==>
        t.messages == s.messages && t.batches == s.batches && t.claims == s.claims - {s.messages[i].id})
      && (|Waiting(s)| + |StillOpen(s)| < 250 ==>
        && (forall b: BatchId :: HasRoom(s, b, s.messages[i]) ==>
          && GoesTo(s, t, i, b, now) && t.batches.Keys == s.batches.Keys
          && t.batches[b].sequence == s.batches[b].sequence)
        && ((forall b: BatchId :: !HasRoom(s, b, s.messages[i])) ==>
          && GoesTo(s, t, i, newId, now) && t.batches.Keys == s.batches.Keys + {newId}
          && (forall m :: m in s.missions ==> s.missions[m].sequence < t.batches[newId].sequence)
          && (forall c :: c in s.batches ==> s.batches[c].sequence < t.batches[newId].sequence)))
  {
    PendingInWords(s);
    forall b: BatchId ensures HasRoom(s, b, s.messages[i]) <==> Target(s.batches, RowLoad(s.messages[i])) == Some(b) {
      RoomExactly(s, b, s.messages[i]);
    }
    hide Waiting, StillOpen, PendingCount, NextSequence, HasRoom, GoesTo, Target, Kept;
    if |Waiting(s)| + |StillOpen(s)| < 250 {
      var target := Target(s.batches, RowLoad(s.messages[i]));
      if target.Some? {
        TakenByTheLast(s, i, now, target.value);
      } else {
        TakenByANewOne(s, i, now, newId);
      }
    }
  }

  lemma TakenByTheLast(s: State, i: nat, now: int, b: BatchId)
    requires Kept(s) && i < |s.messages| && s.messages[i].id in s.claims
    requires Target(s.batches, RowLoad(s.messages[i])) == Some(b)
    ensures b in s.batches
    ensures var t := LinkStep(s, i, b, s.batches[b], now);
      && GoesTo(s, t, i, b, now) && t.batches.Keys == s.batches.Keys
      && t.batches[b].sequence == s.batches[b].sequence
  {
    hide Linked, GoesTo, Positions, HandedOnce;
    LinkGoes(s, i, b, s.batches[b], now);
  }

  lemma TakenByANewOne(s: State, i: nat, now: int, newId: BatchId)
    requires Kept(s) && i < |s.messages| && s.messages[i].id in s.claims && newId !in s.batches
    ensures var t := LinkStep(s, i, newId, NewBatch(NextSequence(s)), now);
      && GoesTo(s, t, i, newId, now) && t.batches.Keys == s.batches.Keys + {newId}
      && (forall m :: m in s.missions ==> s.missions[m].sequence < t.batches[newId].sequence)
      && (forall c :: c in s.batches ==> s.batches[c].sequence < t.batches[newId].sequence)
  {
    hide NextSequence, LinkStep, GoesTo, Linked, Positions, HandedOnce, LoadsAddUp;
    assert s.messages[i].batch.None?;
    NothingLinked(s.messages, newId);
    hide Conserved;
    NewLinkKeepsOthers(s, i, newId, NewBatch(NextSequence(s)), now);
    LinkGoes(s, i, newId, NewBatch(NextSequence(s)), now);
  }

  lemma NewLinkKeepsOthers(s: State, i: nat, newId: BatchId, batch: Batch, now: int)
    requires i < |s.messages| && newId !in s.batches
    ensures var t := LinkStep(s, i, newId, batch, now);
      t.batches.Keys == s.batches.Keys + {newId} && t.batches[newId].sequence == batch.sequence
  {
    hide DueAt, RowLoad;
  }
}
