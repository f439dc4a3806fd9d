/** What holds of the outbox in every run: no message is lost, and none waits longer than five minutes. */
module OutboxProofs {
  import opened Records
  import opened Outbox

  /** Only the row a flush waits for is marked as being sent. */
  ghost predicate SendingIsTheFlushed(s: State) {
    && (forall id :: id in s.rows && s.rows[id].status.Sending? ==> s.flush.Some? && s.flush.value.row == id)
    && (s.flush.Some? && s.flush.value.row in s.rows ==> s.rows[s.flush.value.row].attempts >= 1)
  }

  /** A row that went out was attempted, and a row that waits does so for at most five minutes after its last change. */
  predicate SoundRow(r: Row, now: nat) {
    && r.updatedAt <= now
    && (!r.status.ToSend? || r.remote.Some? ==> r.attempts >= 1)
    && (r.status.Acknowledged? ==> r.remote.Some?)
    && (!r.status.Acknowledged? && !r.status.Sending? ==> r.nextAt <= r.updatedAt + FIVE_MINUTES)
  }

  ghost predicate Sound(s: State) {
    && SendingIsTheFlushed(s)
    && UniqueRows(s.rows)
    && forall id :: id in s.rows ==> SoundRow(s.rows[id], s.now)
  }

  /** One row is rewritten; its id of the send is new to it only if no other row has it. */
  lemma PutKeepsSound(s: State, id: RowId, r: Row, flush: Option<Flush>)
    requires Sound(s) && id in s.rows
    requires r.message == s.rows[id].message && SoundRow(r, s.now)
    requires r.remote == s.rows[id].remote || !RemoteTaken(s.rows, id, r.remote)
    requires r.status.Sending? ==> flush.Some? && flush.value.row == id
    requires s.flush.Some? && s.flush.value.row != id ==> flush == s.flush
    requires flush.Some? && flush.value.row == id ==> r.attempts >= 1
    requires flush.Some? && flush.value.row != id ==> flush == s.flush
    ensures Sound(s.(rows := s.rows[id := r], flush := flush))
  {
  }

  lemma RoundKeepsSound(s: State, sent: nat)
    requires Sound(s.(flush := None))
    ensures Sound(RoundStep(s, sent))
  {
    var first := First(s.rows, ByAge, DueRows(s.rows, s.now));
    if sent < FLUSH_LIMIT && first.Some? {
      var id := first.value;
      var r := s.rows[id].(status := Sending, attempts := s.rows[id].attempts + 1, updatedAt := s.now);
      PutKeepsSound(s.(flush := None), id, r, Some(Flush(id, r.attempts, sent)));
    }
  }

  lemma ReturnedKeepsSound(s: State, remote: Option<RemoteId>)
    requires Sound(s)
    ensures Sound(ReturnedStep(s, remote))
  {
    hide RoundStep, AckDelay, RemoteTaken, UniqueRows;
    if s.flush.Some? {
      var f := s.flush.value;
      if f.row !in s.rows || !s.rows[f.row].status.Sending? {
        RoundKeepsSound(s, f.sent + 1);
      } else if RemoteTaken(s.rows, f.row, Correlated(s.rows[f.row], remote)) {
        ThrewKeepsSound(s);
      } else {
        DelaysAreBounded(Text, f.attempt);
        var r := SentRow(s.rows[f.row], f.attempt, remote, s.now);
        PutKeepsSound(s, f.row, r, None);
        RoundKeepsSound(s.(rows := s.rows[f.row := r]), f.sent + 1);
      }
    }
  }

  lemma ThrewKeepsSound(s: State)
    requires Sound(s)
    ensures Sound(ThrewStep(s))
  {
    hide FailureDelay, RemoteTaken, UniqueRows;
    if s.flush.Some? && s.flush.value.row in s.rows {
      var f := s.flush.value;
      DelaysAreBounded(s.rows[f.row].message.kind, f.attempt);
      PutKeepsSound(s, f.row, ThrewStep(s).rows[f.row], None);
    }
  }

  lemma EchoKeepsSound(s: State, row: Option<RowId>, remote: RemoteId, media: bool)
    requires Sound(s) && (row.Some? ==> row.value in s.rows && s.rows[row.value].attempts >= 1)
    ensures Sound(EchoStep(s, row, remote, media))
  {
  }

  lemma EnqueueKeepsSound(s: State, id: RowId, kind: Kind, body: string, turn: Option<MissionId>, ordinal: Option<int>)
    requires Sound(s) && (s.flush.Some? ==> id != s.flush.value.row)
    ensures Sound(EnqueueStep(s, id, kind, body, turn, ordinal))
  {
    hide NextOrdinal;
  }

  /** Rows are rewritten or deleted, none is newly sending, and none gets another id of a send. */
  lemma RowByRowKeepsSound(s: State, s': State)
    requires Sound(s) && s'.rows.Keys <= s.rows.Keys && s'.now >= s.now
    requires forall id :: id in s'.rows ==>
      && SoundRow(s'.rows[id], s'.now)
      && s'.rows[id].message == s.rows[id].message
      && s'.rows[id].remote == s.rows[id].remote
      && s'.rows[id].attempts == s.rows[id].attempts
      && (s'.rows[id].status.Sending? ==> s'.flush.Some? && s.rows[id].status.Sending?)
    requires s'.flush == s.flush || s'.flush.None?
    ensures Sound(s')
  {
  }

  lemma OthersKeepSound(s: State, e: Event)
    requires Sound(s)
    requires e.Retried? || e.Discarded? || e.Acked? || e.NegativelyAcked? || e.Restarted? || e.Passed?
    ensures Sound(Step(s, e))
  {
    hide UniqueRows;
    RowByRowKeepsSound(s, Step(s, e));
  }

  lemma SoundKept(s: State, e: Event)
    requires Sound(s) && Possible(s, e)
    ensures Sound(Step(s, e))
  {
    match e
    case Enqueued(id, kind, body, turn, ordinal) =>
      hide EnqueueStep;
      EnqueueKeepsSound(s, id, kind, body, turn, ordinal);
    case FlushCalled(ready) =>
      hide RoundStep, UniqueRows;
      if s.flush.None? { RoundKeepsSound(s, 0); }
    case SendReturned(sentId) =>
      hide ReturnedStep, Sound;
      ReturnedKeepsSound(s, sentId);
    case SendThrew =>
      hide ThrewStep, Sound;
      ThrewKeepsSound(s);
    case TextEchoed(body, remote) =>
      hide EchoStep, UniqueRows;
      EchoKeepsSound(s, First(s.rows, ByAge, EchoedTexts(s.rows, body)), remote, false);
    case MediaEchoed(remote) =>
      hide EchoStep, UniqueRows;
      EchoKeepsSound(s, First(s.rows, ByEcho, EchoedMedia(s.rows, s.now)), remote, true);
    case _ =>
      hide Step, Sound;
      OthersKeepSound(s, e);
  }

  lemma {:induction false} SoundInEveryRun(s: State, es: seq<Event>)
    requires Sound(s) && PossibleRun(s, es)
    ensures Sound(Run(s, es))
    decreases |es|
  {
    if es != [] {
      hide Sound;
      SoundKept(s, es[0]);
      SoundInEveryRun(Step(s, es[0]), es[1..]);
    }
  }

  // ---- what one step does to one row

  /** What becomes of a row that a step does not delete. */
  predicate Follows(r: Row, r': Row) {
    r'.message == r.message && r'.attempts >= r.attempts
  }

  lemma RowsStay(s: State, e: Event, id: RowId)
    requires id in s.rows && e != Discarded(id)
    ensures id in Step(s, e).rows && Follows(s.rows[id], Step(s, e).rows[id])
  {
    hide NextOrdinal, First, AckDelay, FailureDelay, KeyTaken, RemoteTaken;
  }

  /** A row is there, with its message, until an operator discards it. */
  lemma {:induction false} NothingIsLost(s: State, es: seq<Event>, id: RowId)
    requires id in s.rows && Discarded(id) !in es
    ensures id in Run(s, es).rows && Follows(s.rows[id], Run(s, es).rows[id])
    decreases |es|
  {
    if es != [] {
      assert es[0] != Discarded(id);
      RowsStay(s, es[0], id);
      hide Step, Follows;
      NothingIsLost(Step(s, es[0]), es[1..], id);
      FollowsIsTransitive(s.rows[id], Step(s, es[0]).rows[id], Run(s, es).rows[id]);
    }
  }

  lemma FollowsIsTransitive(r: Row, q: Row, p: Row)
    requires Follows(r, q) && Follows(q, p)
    ensures Follows(r, p)
  {
  }

  /** The steps that take the mark of a delivered message away again: an operator, a negative acknowledgement, and a
      send that throws although its message has arrived. */
  predicate Reopens(s: State, e: Event, id: RowId)
    requires id in s.rows
  {
    || e == Retried(id)
    || (e.NegativelyAcked? && s.rows[id].remote == Some(e.remote))
    || (e.SendThrew? && s.flush.Some? && s.flush.value.row == id)
  }

  lemma AcknowledgedIsLeftExactly(s: State, e: Event, id: RowId)
    requires id in s.rows && s.rows[id].status.Acknowledged? && e != Discarded(id)
    ensures id in Step(s, e).rows
    ensures Step(s, e).rows[id].status.Acknowledged? <==> !Reopens(s, e, id)
  {
    hide NextOrdinal, AckDelay, FailureDelay, KeyTaken, RemoteTaken;
  }

  // ---- what holds in every reachable state

  /** Outside a flush nothing is marked as being sent, and every message that is not acknowledged is due at most five
      minutes after the last change of its row. */
  lemma NoneWaitsLonger(now: nat, es: seq<Event>, id: RowId)
    requires PossibleRun(Empty(now), es)
    ensures var s := Run(Empty(now), es);
      id in s.rows && !s.rows[id].status.Acknowledged? && (s.flush.None? || s.flush.value.row != id)
        && s.rows[id].updatedAt + FIVE_MINUTES <= s.now
      ==> id in DueRows(s.rows, s.now)
  {
    SoundInEveryRun(Empty(now), es);
    hide Run, UniqueRows;
  }

  /** A message counts as delivered only if it was handed to WhatsApp, and by an id that no other row has. */
  lemma DeliveredWasAttempted(now: nat, es: seq<Event>, id: RowId)
    requires PossibleRun(Empty(now), es)
    requires var s := Run(Empty(now), es); id in s.rows && s.rows[id].status.Acknowledged?
    ensures var s := Run(Empty(now), es);
      && s.rows[id].attempts >= 1 && s.rows[id].remote.Some?
      && forall j :: j in s.rows && s.rows[j].remote == s.rows[id].remote ==> j == id
  {
    SoundInEveryRun(Empty(now), es);
    hide Run;
  }
}
