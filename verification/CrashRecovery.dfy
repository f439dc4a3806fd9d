/** A run with a crash in the middle of a hand-over: what is assumed about the order of things can be met. */
module CrashRecovery {
  import opened Records
  import opened IngressQueue
  import opened HandOverTiming

  /** Batch 0 is still open, and turn 7 is its turn. */
  ghost predicate HalfHandedOver(s: State) {
    && s.batches.Keys == {0} && s.batches[0].status.Open? && s.batches[0].load == Load(1, 0, 0)
        && s.batches[0].dueAt == 5_000
    && s.missions.Keys == {7} && s.missions[7].status.Queued? && s.missions[7].ingress == Some(0)
    && s.messages == [Message(1, None, Some(0))]
    && s.claims == {} && s.handOver.None? && !s.clearing
  }

  predicate Blank(s: State) {
    && s.missions.Keys == {} && s.batches.Keys == {} && s.messages == [] && s.claims == {}
    && s.handOver.None? && !s.clearing
  }

  ghost predicate OneMessage(s: State) {
    && s.batches.Keys == {0} && s.batches[0].status.Open? && s.batches[0].load == Load(1, 0, 0)
        && s.batches[0].dueAt == 5_000
    && s.missions.Keys == {}
    && s.messages == [Message(1, None, Some(0))]
    && s.claims == {} && s.handOver.None? && !s.clearing
  }

  lemma FirstMessageIsLinked(s: State)
    requires Blank(s)
    ensures OneMessage(Step(Step(s, Claim(1)), Add(0, 0, 0)))
  {
    hide NextSequence, LastOpen, Max;
    var s1 := s.(messages := [Message(1, None, None)], claims := {1});
    assert ClaimStep(s, 1) == s1;
    assert OpenBatches(s1.batches) == {} && PendingMissions(s1.missions) == {};
    assert PendingCount(s1) == 0;
    hide PendingCount, IsLastOpen;
    var s2 := LinkStep(s1, 0, 0, NewBatch(NextSequence(s1)), 0);
    assert AddStep(s1, 0, 0, 0) == s2 by { assert Target(s1.batches, RowLoad(s1.messages[0])).None?; }
    assert s2.messages == [Message(1, None, Some(0))] && s2.batches.Keys == {0};
    hide ClaimStep, AddStep, LinkStep;
    assert Step(Step(s, Claim(1)), Add(0, 0, 0)) == s2;
  }

  lemma InterruptedHalfway(s: State)
    requires OneMessage(s)
    ensures HalfHandedOver(Step(Step(s, Begin(0, 7, true)), Crash))
  {
    assert OpenBatches(s.batches) == {0} && PendingMissions(s.missions) == {};
  }

  /** Batch 0 is handed over to the turn it had. */
  ghost predicate HandedToItsTurn(s: State) {
    && s.batches.Keys == {0} && s.batches[0].status.HandedOver? && s.batches[0].turn == Some(7)
        && s.missions.Keys == {7}
    && s.handOver.None?
  }

  lemma FoundAgain(s: State)
    requires HalfHandedOver(s)
    ensures HandedToItsTurn(Step(Step(s, Begin(0, 8, true)), Mark))
    ensures Step(s, Begin(0, 8, true)).handOver == Some(HandOver(0, 7))
  {
    assert OpenBatches(s.batches) == {0} && PendingMissions(s.missions) == {7};
    assert IsTurnOf(s.missions, 7, 0);
  }

  // ---- the same, with the times

  /** A message comes at once; after the five seconds of its batch its turn is created and the server crashes; the
      next start finds the batch due and completes its hand-over. */
  const FIRST_MESSAGE := [FirstFlushDone(0), Happens(Claim(1), 0), Happens(Add(0, 0, 0), 0)]
  const INTERRUPTED := [Happens(Begin(0, 7, true), 5_000), Happens(Crash, 5_000)]
  const COMPLETED := [Happens(Begin(0, 8, true), 5_001), Happens(Mark, 5_001), FirstFlushDone(5_001)]

  lemma {:induction false} TimedInTwoParts(t: Timed, ms: seq<Moment>, ns: seq<Moment>)
    ensures TimedRun(t, ms + ns) == TimedRun(TimedRun(t, ms), ns)
    ensures PossibleRun(t, ms) && PossibleRun(TimedRun(t, ms), ns) ==> PossibleRun(t, ms + ns)
    decreases |ms|
  {
    if ms == [] {
      assert ms + ns == ns;
    } else {
      assert (ms + ns)[0] == ms[0] && (ms + ns)[1..] == ms[1..] + ns;
      hide TimedStep, Possible;
      TimedInTwoParts(TimedStep(t, ms[0]), ms[1..], ns);
    }
  }

  lemma {:induction false} ThreeMoments(t: Timed, a: Moment, b: Moment, c: Moment)
    requires Possible(t, a) && Possible(TimedStep(t, a), b) && Possible(TimedStep(TimedStep(t, a), b), c)
    ensures PossibleRun(t, [a, b, c]) && TimedRun(t, [a, b, c]) == TimedStep(TimedStep(TimedStep(t, a), b), c)
  {
    hide Possible, TimedStep;
    var ms := [a, b, c];
    assert ms[1..] == [b, c] && [b, c][1..] == [c] && [c][1..] == [];
    var u := TimedStep(TimedStep(t, a), b);
    assert PossibleRun(TimedStep(u, c), []) && TimedRun(TimedStep(u, c), []) == TimedStep(u, c);
    assert TimedRun(u, [c]) == TimedStep(u, c) && PossibleRun(u, [c]);
    assert TimedRun(TimedStep(t, a), [b, c]) == TimedStep(u, c) && PossibleRun(TimedStep(t, a), [b, c]);
  }

  lemma MessageComes()
    ensures PossibleRun(Timed(EMPTY, 0, false), FIRST_MESSAGE)
    ensures var t := TimedRun(Timed(EMPTY, 0, false), FIRST_MESSAGE); OneMessage(t.queue) && t.clock == 0 && t.flushed
  {
    var t := Timed(EMPTY, 0, false);
    FirstMessageIsLinked(EMPTY);
    assert Step(EMPTY, Claim(1)).handOver.None?;
    hide OneMessage, Step;
    ThreeMoments(t, FIRST_MESSAGE[0], FIRST_MESSAGE[1], FIRST_MESSAGE[2]);
  }

  lemma TwoMoments(t: Timed, a: Moment, b: Moment)
    requires Possible(t, a) && Possible(TimedStep(t, a), b)
    ensures PossibleRun(t, [a, b]) && TimedRun(t, [a, b]) == TimedStep(TimedStep(t, a), b)
  {
    hide Possible, TimedStep;
    var u := TimedStep(t, a);
    assert [a, b][1..] == [b] && [b][1..] == [];
    assert PossibleRun(TimedStep(u, b), []) && TimedRun(TimedStep(u, b), []) == TimedStep(u, b);
    assert TimedRun(u, [b]) == TimedStep(u, b) && PossibleRun(u, [b]);
  }

  lemma ServerCrashes(t: Timed)
    requires OneMessage(t.queue) && t.clock == 0
    ensures PossibleRun(t, INTERRUPTED)
    ensures var u := TimedRun(t, INTERRUPTED); HalfHandedOver(u.queue) && u.clock == 5_000 && !u.flushed
  {
    InterruptedHalfway(t.queue);
    var u := TimedStep(t, INTERRUPTED[0]);
    assert Possible(t, INTERRUPTED[0]) && Possible(u, INTERRUPTED[1]);
    assert INTERRUPTED == [INTERRUPTED[0], INTERRUPTED[1]];
    hide OneMessage, Step, HalfHandedOver, Possible;
    TwoMoments(t, INTERRUPTED[0], INTERRUPTED[1]);
  }

  lemma StartCompletes(t: Timed)
    requires HalfHandedOver(t.queue) && t.clock == 5_000
    ensures PossibleRun(t, COMPLETED)
    ensures var u := TimedRun(t, COMPLETED); HandedToItsTurn(u.queue) && u.flushed
  {
    FoundAgain(t.queue);
    var u := TimedStep(t, COMPLETED[0]);
    assert Possible(t, COMPLETED[0]) && Possible(u, COMPLETED[1]);
    assert Possible(TimedStep(u, COMPLETED[1]), COMPLETED[2]);
    hide Step, HalfHandedOver, Possible;
    ThreeMoments(t, COMPLETED[0], COMPLETED[1], COMPLETED[2]);
  }

  lemma ACrashIsMadeGood()
    ensures var ms := FIRST_MESSAGE + (INTERRUPTED + COMPLETED);
      && PossibleRun(Timed(EMPTY, 0, false), ms)
      && HandedToItsTurn(TimedRun(Timed(EMPTY, 0, false), ms).queue)
  {
    hide PossibleRun, TimedRun, OneMessage, HalfHandedOver, HandedToItsTurn;
    var t := Timed(EMPTY, 0, false);
    MessageComes();
    ServerCrashes(TimedRun(t, FIRST_MESSAGE));
    StartCompletes(TimedRun(TimedRun(t, FIRST_MESSAGE), INTERRUPTED));
    TimedInTwoParts(TimedRun(t, FIRST_MESSAGE), INTERRUPTED, COMPLETED);
    TimedInTwoParts(t, FIRST_MESSAGE, INTERRUPTED + COMPLETED);
  }
}
