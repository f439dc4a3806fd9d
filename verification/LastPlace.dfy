/** The batch that takes the last place of the queue is counted against itself when it is handed over. */
module LastPlace {
  import opened Records
  import opened IngressQueue

  lemma OneMoreOpen(s: State, t: State, b: BatchId)
    requires t.missions == s.missions && b !in s.batches && b in t.batches && t.batches[b].status.Open?
    requires forall c :: c != b ==> (c in t.batches <==> c in s.batches)
    requires forall c :: c in s.batches ==> t.batches[c] == s.batches[c]
    ensures PendingCount(t) == PendingCount(s) + 1
  {
    assert OpenBatches(t.batches) == OpenBatches(s.batches) + {b};
  }

  /** A message that needs a batch of its own is accepted exactly while fewer than 250 turns and batches are pending. */
  lemma AcceptedWhileThereIsRoom(s: State, i: nat, now: int, newId: BatchId)
    requires i < |s.messages| && s.messages[i].id in s.claims && newId !in s.batches
    requires Target(s.batches, RowLoad(s.messages[i])).None?
    ensures newId in AddStep(s, i, now, newId).batches <==> PendingCount(s) < MAX_PENDING_TURNS
    ensures newId in AddStep(s, i, now, newId).batches ==>
      PendingCount(AddStep(s, i, now, newId)) == PendingCount(s) + 1
  {
    hide NextSequence, PendingCount, RowLoad, DueAt, Target;
    if PendingCount(s) < MAX_PENDING_TURNS {
      OneMoreOpen(s, AddStep(s, i, now, newId), newId);
    }
  }

  /** Handed over before anything else leaves the queue, such a batch is refused exactly if the context is being
      cleared, nothing is configured, or it took the last place: then it is counted against itself. Otherwise it
      becomes the new turn, in its place. */
  lemma TheLastPlaceIsRefused(s: State, i: nat, now: int, newId: BatchId, newTurn: MissionId, configured: bool)
    requires i < |s.messages| && s.messages[i].id in s.claims && newId !in s.batches
    requires Target(s.batches, RowLoad(s.messages[i])).None? && PendingCount(s) < MAX_PENDING_TURNS
    requires s.handOver.None? && newTurn !in s.missions && forall id :: !IsTurnOf(s.missions, id, newId)
    ensures var t := AddStep(s, i, now, newId);
      var f := FlushStep(t, newId, newTurn, configured);
      && t.messages[i].batch == Some(newId)
      && (f.batches[newId].status.Rejected? <==>
        s.clearing || !configured || PendingCount(s) == MAX_PENDING_TURNS - 1)
      && (if f.batches[newId].status.Rejected? then f.missions == s.missions
          else && f.batches[newId].status.HandedOver? && f.batches[newId].turn == Some(newTurn)
               && f.missions == s.missions[newTurn := NewMission(NextSequence(s), Some(newId))])
  {
    AcceptedWhileThereIsRoom(s, i, now, newId);
    hide NextSequence, PendingCount, RowLoad, DueAt, Target;
    var t := AddStep(s, i, now, newId);
    assert t.missions == s.missions && t.batches[newId].sequence == NextSequence(s);
    hide AddStep;
    assert Refuses(t, configured) <==> s.clearing || !configured || PendingCount(s) == MAX_PENDING_TURNS - 1;
  }
}
