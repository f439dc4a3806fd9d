/** The ingress queue by its columns: which events write each of them, and what. What addToBatch writes is told in
    BatchTotals. */
module IngressEffects {
  import opened Records
  import opened IngressQueue
  import opened IngressProofs
  import opened HandOverTiming
  import opened BatchTotals

  /** A turn may be created: Codex is set up, the context is not being cleared, and fewer than 250 turns and batches
      are pending. */
  predicate TakesTurns(s: State, configured: bool) {
    configured && !s.clearing && |Waiting(s)| + |StillOpen(s)| < 250
  }

  predicate HasTurn(s: State, b: BatchId) {
    exists m :: m in s.missions && s.missions[m].ingress == Some(b)
  }

  predicate Adds(s: State, e: Event, m: MissionId) {
    match e
    case Create(id, configured) => id == m && TakesTurns(s, configured)
    case Begin(b, id, configured) => id == m && TakesTurns(s, configured) && b in StillOpen(s) && !HasTurn(s, b)
    case _ => false
  }

  /** The place behind everything: one more than the greatest position in use, and 1 when none is. */
  predicate IsNext(s: State, n: nat) {
    && (forall m :: m in s.missions ==> s.missions[m].sequence < n)
    && (forall b :: b in s.batches ==> s.batches[b].sequence < n)
    && (n == 1 || (exists m :: m in s.missions && s.missions[m].sequence == n - 1)
        || (exists b :: b in s.batches && s.batches[b].sequence == n - 1))
  }

  lemma NextInWords(s: State)
    ensures IsNext(s, NextSequence(s))
  {
    var taken := MissionSequences(s.missions) + BatchSequences(s.batches);
    assert NextSequence(s) == Max(taken) + 1;
    if Max(taken) != 0 {
      assert Max(taken) in taken;
    }
  }

  ghost predicate TurnIsAsTold(s: State, e: Event, t: State, m: MissionId) {
    if m in s.missions then
      && m in t.missions
      && t.missions[m] == (if e.SetStatus? && e.mission == m then s.missions[m].(status := e.status) else s.missions[m])
    else
      && (m in t.missions <==> Adds(s, e, m))
      && (m in t.missions && e.Create? ==>
        && IsNext(s, t.missions[m].sequence)
        && t.missions[m] == Mission(Queued, t.missions[m].sequence, None, None, false, false, 0, false))
      && (m in t.missions && e.Begin? ==>
        t.missions[m] == Mission(Queued, s.batches[e.batch].sequence, Some(e.batch), None, false, false, 0, false))
  }

  lemma BegunTurn(s: State, b: BatchId, newId: MissionId, configured: bool, m: MissionId)
    ensures TurnIsAsTold(s, Begin(b, newId, configured), HandOverStep(s, b, newId, configured), m)
  {
    hide NextSequence, PendingCount, Waiting, IsNext;
    PendingInWords(s);
    assert forall id :: IsTurnOf(s.missions, id, b) <==> id in s.missions && s.missions[id].ingress == Some(b);
  }

  /** A turn is created behind everything or in the place of its batch, and nothing but its status is written later. */
  lemma TurnsInWords(s: State, e: Event, m: MissionId)
    ensures TurnIsAsTold(s, e, Step(s, e), m)
  {
    hide PendingCount, Waiting, StillOpen, IsNext, Max;
    PendingInWords(s);
    NextInWords(s);
    hide NextSequence;
    match e
    case Begin(b, newId, configured) => BegunTurn(s, b, newId, configured, m);
    case Add(i, now, newId) => AddExtends(s, i, now, newId);
    case _ =>
  }

  predicate HandsOver(s: State, e: Event, b: BatchId) {
    e == Mark && s.handOver != None && s.handOver.value.batch == b
  }

  predicate Refused(s: State, e: Event, b: BatchId) {
    || e == Reject(b)
    || (e.Begin? && e.batch == b && b in StillOpen(s) && !TakesTurns(s, e.configured))
  }

  /** Where the batch b goes: to its turn, to the refused ones, or nowhere. */
  lemma BatchesInWords(s: State, e: Event, b: BatchId)
    requires !e.Add?
    ensures Step(s, e).batches.Keys == s.batches.Keys
    ensures b in s.batches ==>
      var r := s.batches[b];
      Step(s, e).batches[b]
          == (if HandsOver(s, e, b) then r.(status := HandedOver, turn := Some(s.handOver.value.mission))
                                else if Refused(s, e, b) then r.(status := Rejected) else r)
  {
    hide NextSequence, PendingCount, Waiting, Max;
    PendingInWords(s);
  }

  predicate IsClaimed(s: State, id: MessageId) {
    exists i :: 0 <= i < |s.messages| && s.messages[i].id == id
  }

  /** A message is stored when it is claimed for the first time, and its file when it is not larger than 25 MB. */
  lemma MessagesInWords(s: State, e: Event)
    requires !e.Add?
    ensures var t := Step(s, e);
      && |t.messages| == |s.messages| + (if e.Claim? && !IsClaimed(s, e.message) then 1 else 0)
      && (|t.messages| > |s.messages| ==> t.messages[|s.messages|] == Message(e.message, None, None))
      && forall i :: 0 <= i < |s.messages| ==>
        t.messages[i] == (if e.Save? && e.row == i && s.messages[i].id in s.claims && e.size <= 25 * 1024 * 1024
                          then s.messages[i].(size := Some(e.size)) else s.messages[i])
  {
    hide NextSequence, PendingCount, Max;
  }

  /** Which messages are on their way to a batch. */
  lemma ClaimsInWords(s: State, e: Event, id: MessageId)
    requires !e.Add?
    ensures id in Step(s, e).claims <==>
      (id in s.claims && e != Drop(id) && e != Crash) || (e == Claim(id) && !IsClaimed(s, id))
  {
    hide NextSequence, PendingCount, Max;
  }

  /** The hand-over under way: begun for an open batch with the turn it finds or creates, ended by the marking, by a
      refusal and by a crash. */
  lemma HandOverInWords(s: State, e: Event)
    requires e.Begin? ==> e.freshMission !in s.missions
    ensures var t := Step(s, e);
      if e.Begin? && e.batch in StillOpen(s) && TakesTurns(s, e.configured) then
        && t.handOver != None && t.handOver.value.batch == e.batch
        && t.handOver.value.mission in t.missions && t.missions[t.handOver.value.mission].ingress == Some(e.batch)
      else
        t.handOver == (if e == Crash || (exists b :: b in s.batches && Refused(s, e, b))
                          || (exists b :: b in s.batches && HandsOver(s, e, b)) then None else s.handOver)
  {
    hide NextSequence, PendingCount, Waiting, Max;
    PendingInWords(s);
    if e.Add? { AddKeepsHandOver(s, e.row, e.now, e.freshBatch); }
    if e.Reject? && e.batch in s.batches { assert Refused(s, e, e.batch); }
    if e.Mark? && s.handOver.Some? && s.handOver.value.batch in s.batches {
      assert HandsOver(s, e, s.handOver.value.batch);
    }
  }

  lemma AddKeepsHandOver(s: State, i: nat, now: int, newId: BatchId)
    ensures var t := AddStep(s, i, now, newId);
      t.handOver == s.handOver && t.clearing == s.clearing && t.cut == s.cut
  {
    hide NextSequence, PendingCount, Max, Target;
  }

  /** The context is cleared only while nothing is pending, and the history is cut at the greatest position of a
      turn. */
  lemma ClearingInWords(s: State, e: Event)
    ensures var t := Step(s, e);
      && (t.clearing <==> if s.clearing then !e.ClearReply? && e != Crash
                          else e == ClearCall && |Waiting(s)| + |StillOpen(s)| == 0)
      && (s.clearing && e == ClearReply(true) ==>
        && t.cut != None && (forall m :: m in s.missions ==> s.missions[m].sequence <= t.cut.value)
        && (t.cut.value == 0 || exists m :: m in s.missions && s.missions[m].sequence == t.cut.value))
      && (!(s.clearing && e == ClearReply(true)) ==> t.cut == s.cut)
  {
    hide NextSequence, PendingCount, Waiting, StillOpen;
    PendingInWords(s);
    if e.Add? { AddKeepsHandOver(s, e.row, e.now, e.freshBatch); }
    if s.clearing && e == ClearReply(true) {
      var ns := MissionSequences(s.missions);
      assert forall m :: m in s.missions ==> s.missions[m].sequence in ns;
    }
  }
}
