/** A message that is claimed but not in a batch yet is carried by its callback alone. When the callback is gone, the
    row of the message keeps any other callback from claiming it again: it never reaches a turn. */
module StrandedMessages {
  import opened Records
  import opened IngressQueue
  import opened IngressProofs
  import opened HandOverTiming

  /** The row is there, in no batch, and no callback is on its way with it. */
  predicate Stranded(s: State, i: nat) {
    i < |s.messages| && s.messages[i].batch.None? && s.messages[i].id !in s.claims
  }

  /** A callback carries the message. */
  predicate OnItsWay(s: State, i: nat) {
    i < |s.messages| && s.messages[i].batch.None? && s.messages[i].id in s.claims
  }

  /** The callback ends without a batch: the message is given up, the queue is full, or the process crashes. */
  predicate Strands(s: State, e: Event, i: nat)
    requires i < |s.messages|
  {
    match e
    case Drop(id) => id == s.messages[i].id
    case Add(row, _, _) => row == i && PendingCount(s) >= MAX_PENDING_TURNS
    case Crash => true
    case _ => false
  }

  lemma StrandsByAdd(s: State, row: nat, now: int, newId: BatchId, i: nat)
    requires Conserved(s) && OnItsWay(s, i)
    ensures Stranded(AddStep(s, row, now, newId), i) <==> Strands(s, Add(row, now, newId), i)
  {
    hide NextSequence, PendingCount, CanAppend, DueAt, RowLoad, LoadsAddUp;
  }

  /** A message on its way is stranded by exactly those steps. */
  lemma StrandedExactly(s: State, e: Event, i: nat)
    requires Conserved(s) && OnItsWay(s, i)
    ensures Stranded(Step(s, e), i) <==> Strands(s, e, i)
  {
    match e
    case Add(row, now, newId) =>
      hide AddStep, Conserved, Strands, PendingCount;
      StrandsByAdd(s, row, now, newId, i);
    case _ => hide PendingCount, NextSequence;
  }

  lemma StaysStranded(s: State, e: Event, i: nat)
    requires Conserved(s) && Stranded(s, i)
    ensures Stranded(Step(s, e), i)
  {
    hide NextSequence, PendingCount, CanAppend, DueAt, RowLoad, LoadsAddUp;
    match e
    case Claim(id) => assert id == s.messages[i].id ==> Known(s.messages, id);
    case _ =>
  }

  /** It is stranded after every run: no callback claims it again, and no batch takes it. */
  lemma {:induction false} StrandedForGood(s: State, es: seq<Event>, i: nat)
    requires Kept(s) && Stranded(s, i)
    ensures Stranded(Run(s, es), i)
    decreases |es|
  {
    if es != [] {
      OneStepKept(s, es[0], 0);
      StaysStranded(s, es[0], i);
      hide Kept, Step, Stranded;
      StrandedForGood(Step(s, es[0]), es[1..], i);
    }
  }

  /** A crash loses every message that is in no batch yet, for good; and it loses no other. */
  lemma ACrashLosesWhatIsOnItsWay(s: State, es: seq<Event>, i: nat)
    requires Kept(s) && i < |s.messages|
    ensures Stranded(Run(Step(s, Crash), es), i) <==> s.messages[i].batch.None?
  {
    OneStepKept(s, Crash, 0);
    var t := Step(s, Crash);
    assert t.messages == s.messages;
    if s.messages[i].batch.None? {
      StrandedForGood(t, es, i);
    } else {
      SettledForGood(t, es, i, 0);
    }
  }
}
