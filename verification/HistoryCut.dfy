/** Clearing the visible history draws a line in the queue that later turns stay above. */
module HistoryCut {
  import opened Records
  import opened IngressQueue
  import opened IngressProofs

  /** The turns of visibleTurns and turnPage. */
  function Visible(s: State): set<MissionId> {
    set id | id in s.missions && (s.cut.Some? ==> s.missions[id].sequence > s.cut.value)
  }

  /** While the context is being cleared, every batch that is opened is behind every turn. */
  ghost predicate OpenedBehind(s: State) {
    s.clearing ==>
      forall b, id :: b in s.batches && s.batches[b].status.Open? && id in s.missions ==>
        s.missions[id].sequence < s.batches[b].sequence
  }

  ghost predicate PositiveBatches(s: State) {
    forall b :: b in s.batches ==> s.batches[b].sequence > 0
  }

  lemma OpenedBehindKept(s: State, e: Event)
    requires OpenedBehind(s) && PositiveBatches(s)
    ensures OpenedBehind(Step(s, e)) && PositiveBatches(Step(s, e))
  {
    if e.ClearCall? {
      assert PendingCount(s) == 0 ==> OpenBatches(s.batches) == {};
      assert forall b :: b in s.batches && s.batches[b].status.Open? ==> b in OpenBatches(s.batches);
    } else {
      StepExtends(s, e);
      ClearingIsCalled(s, e);
      hide Step, NextSequence, TakesPlaceOfBatch;
    }
  }

  lemma ClearingIsCalled(s: State, e: Event)
    requires !e.ClearCall?
    ensures Step(s, e).clearing ==> s.clearing
  {
    hide NextSequence, PendingCount;
  }

  lemma {:induction false} OpenedBehindInRuns(s: State, es: seq<Event>)
    requires OpenedBehind(s) && PositiveBatches(s)
    ensures OpenedBehind(Run(s, es)) && PositiveBatches(Run(s, es))
    decreases |es|
  {
    if es != [] {
      OpenedBehindKept(s, es[0]);
      OpenedBehindInRuns(Step(s, es[0]), es[1..]);
    }
  }

  /** The line separates exactly the turns there were, `earlier`, from those to come. */
  ghost predicate Separates(s: State, earlier: set<MissionId>) {
    && s.cut.Some?
    && earlier <= s.missions.Keys
    && (forall id :: id in s.missions ==> (id in earlier <==> s.missions[id].sequence <= s.cut.value))
    && (forall b :: b in s.batches && s.batches[b].status.Open? ==> s.batches[b].sequence > s.cut.value)
    && (s.cut.value == 0 || exists id :: id in earlier && s.missions[id].sequence == s.cut.value)
  }

  lemma SeparatesAtClear(s: State)
    requires s.clearing && OpenedBehind(s) && PositiveBatches(s)
    ensures Separates(ClearReplyStep(s, true), s.missions.Keys)
  {
    var ns := MissionSequences(s.missions);
    assert forall id :: id in s.missions ==> s.missions[id].sequence in ns;
  }

  lemma CutStays(s: State, e: Event)
    requires e != ClearReply(true)
    ensures Step(s, e).cut == s.cut
  {
  }

  lemma SeparatesKept(s: State, e: Event, earlier: set<MissionId>)
    requires Separates(s, earlier) && e != ClearReply(true)
    ensures Separates(Step(s, e), earlier)
  {
    hide Step, NextSequence;
    StepExtends(s, e);
    assert Step(s, e).cut == s.cut by { CutStays(s, e); }
    assert NextSequence(s) > s.cut.value;
  }

  lemma {:induction false} SeparatesInRuns(s: State, es: seq<Event>, earlier: set<MissionId>)
    requires Separates(s, earlier) && ClearReply(true) !in es
    ensures Separates(Run(s, es), earlier)
    decreases |es|
  {
    if es != [] {
      SeparatesKept(s, es[0], earlier);
      SeparatesInRuns(Step(s, es[0]), es[1..], earlier);
    }
  }

  /** After the history was cleared at the end of any run, and until it is cleared again, the visible turns are
      exactly those created since, also those of batches opened while it was being cleared. */
  lemma VisibleAreTheNewTurns(before: seq<Event>, after: seq<Event>)
    requires Run(EMPTY, before).clearing && ClearReply(true) !in after
    ensures var s := Run(EMPTY, before);
      var s' := Run(ClearReplyStep(s, true), after);
      Visible(s') == s'.missions.Keys - s.missions.Keys
  {
    OpenedBehindInRuns(EMPTY, before);
    var s := Run(EMPTY, before);
    SeparatesAtClear(s);
    SeparatesInRuns(ClearReplyStep(s, true), after, s.missions.Keys);
  }
}
