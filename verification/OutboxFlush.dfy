/** What one flush sends, and what one result leaves in the outbox. */
module OutboxFlush {
  import opened Records
  import opened Outbox
  import opened OutboxProofs

  // ---- one flush

  /** What may come between the rounds of a flush: the send returns; messages are stored; acknowledgements and echoes of
      this flush or of earlier ones arrive; time passes. */
  predicate DuringFlush(e: Event) {
    e.SendReturned? || e.Enqueued? || e.Acked? || e.TextEchoed? || e.MediaEchoed? || e.Passed?
  }

  /** The id a send comes back with is one that another row already has. */
  ghost predicate Conflicts(s: State, remote: Option<RemoteId>) {
    && s.flush.Some? && s.flush.value.row in s.rows
    && RemoteTaken(s.rows, s.flush.value.row, Correlated(s.rows[s.flush.value.row], remote))
  }

  /** The events of one flush, at most to its end. */
  ghost predicate FlushRun(s: State, es: seq<Event>)
    decreases |es|
  {
    es != [] ==>
      && s.flush.Some? && DuringFlush(es[0])
      && (es[0].SendReturned? ==> !Conflicts(s, es[0].sentId))
      && FlushRun(Step(s, es[0]), es[1..])
  }

  /** The attempts of a row when the flush began; a row that is stored later had none. */
  function AttemptsBefore(before: Rows, id: RowId): nat {
    if id in before then before[id].attempts else 0
  }

  /** The rows the flush has taken. */
  function Taken(before: Rows, after: Rows): set<RowId> {
    set id | id in after && after[id].attempts > AttemptsBefore(before, id)
  }

  /** A row that was taken is being sent, or has arrived, or waits until after the end. */
  predicate Sent(r: Row, current: bool, end: nat) {
    (r.status.Sending? && current) || r.status.Acknowledged? || (r.status.SentUnconfirmed? && r.nextAt >= end)
  }

  /** A row that was not taken is what it was, or has been acknowledged. */
  predicate Untouched(r: Row, r': Row) {
    r' == r || (r'.message == r.message && r'.attempts == r.attempts && r'.status.Acknowledged?)
  }

  /** What has become of the rows since the flush began: each was taken once at most; the rows taken are older than
      every row that was due at the beginning and is left. */
  ghost predicate Swept(before: Rows, begin: nat, after: Rows, current: Option<RowId>) {
    var taken := Taken(before, after);
    && before.Keys <= after.Keys
    && (forall id :: id in before ==> after[id].message == before[id].message)
    && (forall id :: id in before && id !in taken ==> Untouched(before[id], after[id]))
    && (forall id :: id in taken ==> after[id].attempts == AttemptsBefore(before, id) + 1)
    && (forall id :: id in taken ==> Sent(after[id], current == Some(id), begin + ACK_TIMEOUT_MS))
    && (current.Some? ==> current.value in taken)
    && OldestFirst(before, begin, after, taken)
  }

  ghost predicate OldestFirst(before: Rows, begin: nat, after: Rows, taken: set<RowId>)
    requires taken <= after.Keys && before.Keys <= after.Keys
  {
    forall i, j :: i in DueRows(before, begin) - taken && after[i] == before[i] && j in taken ==>
        Before(after, ByAge, j, i)
  }

  lemma AgeStays(t: Rows, t': Rows, i: RowId, j: RowId)
    requires i in t && j in t && i in t' && j in t'
    requires t'[i].message == t[i].message && t'[j].message == t[j].message
    ensures Before(t, ByAge, i, j) == Before(t', ByAge, i, j)
  {
  }

  /** Rows are acknowledged or stored; none is taken. */
  lemma SweptBeside(before: Rows, begin: nat, r: Rows, r': Rows, current: Option<RowId>)
    requires Swept(before, begin, r, current) && r.Keys <= r'.Keys
    requires forall id :: id in r ==> Untouched(r[id], r'[id])
    requires forall id :: id in r' && id !in r ==> r'[id].attempts == 0
    ensures Swept(before, begin, r', current) && Taken(before, r') == Taken(before, r)
  {
    var taken := Taken(before, r);
    assert Taken(before, r') == taken;
    forall i, j | i in DueRows(before, begin) - taken && r'[i] == before[i] && j in taken
      ensures Before(r', ByAge, j, i)
    {
      assert r[i] == before[i];
      AgeStays(r, r', j, i);
    }
    hide Before;
  }

  /** The oldest due row is taken; it has not been taken before. */
  lemma SweptByTaking(before: Rows, begin: nat, r: Rows, c: RowId, now: nat)
    requires Swept(before, begin, r, None) && begin <= now < begin + ACK_TIMEOUT_MS
    requires c in DueRows(r, now) && forall j :: j in DueRows(r, now) ==> Before(r, ByAge, c, j)
    ensures var r' := r[c := r[c].(status := Sending, attempts := r[c].attempts + 1, updatedAt := now)];
      && c !in Taken(before, r) && Taken(before, r') == Taken(before, r) + {c}
      && Swept(before, begin, r', Some(c))
  {
    var taken := Taken(before, r);
    var r' := r[c := r[c].(status := Sending, attempts := r[c].attempts + 1, updatedAt := now)];
    assert c !in taken;
    assert r[c].attempts == AttemptsBefore(before, c);
    assert Taken(before, r') == taken + {c};
    hide Before;
    forall i, j | i in DueRows(before, begin) - Taken(before, r') && r'[i] == before[i] && j in Taken(before, r')
      ensures Before(r', ByAge, j, i)
    {
      assert i in DueRows(r, now);
      AgeStays(r, r', j, i);
    }
  }

  /** The send of the row that was taken last has returned. */
  lemma SweptByReply(before: Rows, begin: nat, r: Rows, c: RowId, row: Row)
    requires Swept(before, begin, r, Some(c)) && row.message == r[c].message && row.attempts == r[c].attempts
    requires row.status.SentUnconfirmed? && row.nextAt >= begin + ACK_TIMEOUT_MS
    ensures Swept(before, begin, r[c := row], None) && Taken(before, r[c := row]) == Taken(before, r)
  {
    var taken, r' := Taken(before, r), r[c := row];
    assert Taken(before, r') == taken;
    hide Before;
    forall i, j | i in DueRows(before, begin) - taken && r'[i] == before[i] && j in taken
      ensures Before(r', ByAge, j, i)
    {
      AgeStays(r, r', j, i);
    }
  }

  /** It has arrived already. */
  lemma SweptByArrival(before: Rows, begin: nat, r: Rows, c: RowId)
    requires Swept(before, begin, r, Some(c)) && !r[c].status.Sending?
    ensures Swept(before, begin, r, None)
  {
    hide OldestFirst;
  }

  /** A flush that began in the state begin is under way, or has come to its end: twenty rows are taken, or none was
      due. */
  ghost predicate InFlush(begin: State, s: State) {
    && begin.now <= s.now
    && Swept(begin.rows, begin.now, s.rows, if s.flush.Some? then Some(s.flush.value.row) else None)
    && (if s.flush.Some? then |Taken(begin.rows, s.rows)| == s.flush.value.sent + 1 <= FLUSH_LIMIT
        else |Taken(begin.rows, s.rows)| <= FLUSH_LIMIT
             && (|Taken(begin.rows, s.rows)| == FLUSH_LIMIT || DueRows(s.rows, s.now) == {}))
  }

  /** The head of the loop. */
  lemma RoundInFlush(begin: State, s: State, sent: nat)
    requires s.flush.None? && begin.now <= s.now < begin.now + ACK_TIMEOUT_MS
    requires Swept(begin.rows, begin.now, s.rows, None) && |Taken(begin.rows, s.rows)| == sent <= FLUSH_LIMIT
    ensures InFlush(begin, RoundStep(s, sent))
  {
    hide Swept, Taken, Before;
    if sent < FLUSH_LIMIT && DueRows(s.rows, s.now) != {} {
      var c := First(s.rows, ByAge, DueRows(s.rows, s.now)).value;
      SweptByTaking(begin.rows, begin.now, s.rows, c, s.now);
    } else {
      assert RoundStep(s, sent) == s;
    }
  }

  /** The row that was taken last is still being sent: it waits for its acknowledgement. */
  lemma AnswerInFlush(begin: State, s: State, remote: Option<RemoteId>)
    requires InFlush(begin, s) && s.flush.Some? && s.now < begin.now + ACK_TIMEOUT_MS
    requires s.flush.value.row in s.rows && s.rows[s.flush.value.row].status.Sending?
    ensures var f := s.flush.value;
      var rows := s.rows[f.row := SentRow(s.rows[f.row], f.attempt, remote, s.now)];
      InFlush(begin, RoundStep(s.(rows := rows), f.sent + 1))
  {
    var f := s.flush.value;
    var row := SentRow(s.rows[f.row], f.attempt, remote, s.now);
    var t := s.(rows := s.rows[f.row := row]);
    DelaysAreBounded(Text, f.attempt);
    hide AckDelay, Swept, Taken, RoundStep;
    SweptByReply(begin.rows, begin.now, s.rows, f.row, row);
    RoundInFlush(begin, t.(flush := None), f.sent + 1);
    RoundForgetsFlush(t, f.sent + 1);
  }

  lemma ArrivalInFlush(begin: State, s: State)
    requires InFlush(begin, s) && s.flush.Some? && s.now < begin.now + ACK_TIMEOUT_MS
    requires s.flush.value.row in s.rows && !s.rows[s.flush.value.row].status.Sending?
    ensures InFlush(begin, RoundStep(s, s.flush.value.sent + 1))
  {
    var f := s.flush.value;
    hide Swept, Taken, RoundStep;
    SweptByArrival(begin.rows, begin.now, s.rows, f.row);
    RoundInFlush(begin, s.(flush := None), f.sent + 1);
    RoundForgetsFlush(s, f.sent + 1);
  }

  lemma ReplyInFlush(begin: State, s: State, remote: Option<RemoteId>)
    requires InFlush(begin, s) && s.flush.Some? && !Conflicts(s, remote) && s.now < begin.now + ACK_TIMEOUT_MS
    ensures InFlush(begin, ReturnedStep(s, remote))
  {
    var f := s.flush.value;
    assert f.row in s.rows by { TakenIsThere(begin.rows, begin.now, s.rows, f.row); }
    hide InFlush, RoundStep, RemoteTaken, SentRow;
    if s.rows[f.row].status.Sending? {
      AnswerInFlush(begin, s, remote);
    } else {
      ArrivalInFlush(begin, s);
    }
  }

  lemma TakenIsThere(before: Rows, begin: nat, r: Rows, c: RowId)
    requires Swept(before, begin, r, Some(c))
    ensures c in r
  {
  }

  lemma RoundForgetsFlush(s: State, sent: nat)
    ensures RoundStep(s, sent) == RoundStep(s.(flush := None), sent)
  {
    hide First;
  }

  lemma BesideInFlush(begin: State, s: State, s': State)
    requires InFlush(begin, s) && s.flush.Some? && s'.flush == s.flush && s'.now >= s.now && s.rows.Keys <= s'.rows.Keys
    requires forall id :: id in s.rows ==> Untouched(s.rows[id], s'.rows[id])
    requires forall id :: id in s'.rows && id !in s.rows ==> s'.rows[id].attempts == 0
    ensures InFlush(begin, s')
  {
    hide Swept, Taken, Untouched;
    SweptBeside(begin.rows, begin.now, s.rows, s'.rows, Some(s.flush.value.row));
  }

  lemma EventInFlush(begin: State, s: State, e: Event)
    requires InFlush(begin, s) && s.flush.Some? && DuringFlush(e) && s.now < begin.now + ACK_TIMEOUT_MS
    requires e.SendReturned? ==> !Conflicts(s, e.sentId)
    ensures InFlush(begin, Step(s, e))
  {
    hide InFlush;
    if e.SendReturned? {
      hide ReturnedStep;
      ReplyInFlush(begin, s, e.sentId);
    } else {
      hide NextOrdinal, KeyTaken, RemoteTaken, First;
      BesideInFlush(begin, s, Step(s, e));
    }
  }

  lemma {:induction false} ClockOnlyMovesOn(s: State, es: seq<Event>)
    ensures Run(s, es).now >= s.now
    decreases |es|
  {
    if es != [] {
      hide NextOrdinal, KeyTaken, RemoteTaken, First, AckDelay, FailureDelay;
      assert Step(s, es[0]).now >= s.now;
      hide Step;
      ClockOnlyMovesOn(Step(s, es[0]), es[1..]);
    }
  }

  lemma {:induction false} EventsInFlush(begin: State, s: State, es: seq<Event>)
    requires InFlush(begin, s) && FlushRun(s, es) && Run(s, es).now < begin.now + ACK_TIMEOUT_MS
    ensures InFlush(begin, Run(s, es))
    decreases |es|
  {
    if es != [] {
      ClockOnlyMovesOn(s, es);
      EventInFlush(begin, s, es[0]);
      hide InFlush, Step, Conflicts;
      EventsInFlush(begin, Step(s, es[0]), es[1..]);
    }
  }

  /** A flush whose sends return, while messages are stored, acknowledged and echoed, within the two minutes before an
      unanswered message is sent again. At its end it has taken twenty rows or none is due. Each row it took was sent
      exactly once, and has arrived or waits; the others are what they were, or have been acknowledged; and what was due
      at the beginning and is left is younger than everything that was sent. */
  lemma AFlushSendsTheOldest(s: State, es: seq<Event>)
    requires s.flush.None? && FlushRun(FlushStep(s, true), es)
    requires var t := Run(FlushStep(s, true), es); t.flush.None? && t.now < s.now + ACK_TIMEOUT_MS
    ensures var t := Run(FlushStep(s, true), es);
      var taken := Taken(s.rows, t.rows);
      && (|taken| == FLUSH_LIMIT || (|taken| < FLUSH_LIMIT && DueRows(t.rows, t.now) == {}))
      && Swept(s.rows, s.now, t.rows, None)
  {
    ClockOnlyMovesOn(FlushStep(s, true), es);
    assert Taken(s.rows, s.rows) == {};
    assert Swept(s.rows, s.now, s.rows, None);
    assert FlushStep(s, true).now == s.now;
    hide Run, Swept, Taken, RoundStep;
    RoundInFlush(s, s, 0);
    EventsInFlush(s, FlushStep(s, true), es);
  }

  // ---- one result

  /** The loop over the parts of a long result: part k is inserted under the ordinal k. */
  ghost function EnqueueParts(s: State, ids: seq<RowId>, parts: seq<string>, turn: MissionId): State
    requires |ids| == |parts|
    decreases |parts|
  {
    if parts == [] then s
    else
      var k := |parts| - 1;
      EnqueueStep(EnqueueParts(s, ids[..k], parts[..k], turn), ids[k], Text, parts[k], Some(turn), Some(k))
  }

  function PartMessage(s: State, parts: seq<string>, turn: MissionId, k: nat): Message
    requires k < |parts|
  {
    Message(Text, parts[k], Some(turn), k, s.now)
  }

  ghost predicate NewRows(s: State, ids: seq<RowId>) {
    && (forall k :: 0 <= k < |ids| ==> ids[k] !in s.rows)
    && (forall k, m :: 0 <= k < m < |ids| ==> ids[k] != ids[m])
  }

  /** The parts before the last one do not take its key. */
  lemma KeyStaysFree(s: State, u: State, ids: seq<RowId>, parts: seq<string>, turn: MissionId)
    requires |parts| > 0 && |ids| == |parts| - 1
    requires forall id :: id in s.rows ==> id in u.rows && u.rows[id] == s.rows[id]
    requires forall id :: id in u.rows && id !in s.rows ==> id in ids
    requires forall k :: 0 <= k < |ids| && ids[k] in u.rows && ids[k] !in s.rows ==>
      u.rows[ids[k]].message.ordinal == k
    ensures KeyTaken(u.rows, PartMessage(s, parts, turn, |ids|))
      <==> KeyTaken(s.rows, PartMessage(s, parts, turn, |ids|))
  {
    var m := PartMessage(s, parts, turn, |ids|);
    if KeyTaken(s.rows, m) {
      var j :| j in s.rows && SameKey(m, s.rows[j].message);
      assert j in u.rows;
    }
    if KeyTaken(u.rows, m) {
      var j :| j in u.rows && SameKey(m, u.rows[j].message);
      assert j in s.rows;
    }
  }

  /** Part k is stored exactly if its key was free. */
  ghost predicate PartStored(s: State, t: Rows, id: RowId, parts: seq<string>, turn: MissionId, k: nat)
    requires k < |parts|
  {
    var m := PartMessage(s, parts, turn, k);
    if KeyTaken(s.rows, m) then id !in t else id in t && t[id] == NewRow(m)
  }

  ghost predicate Stored(s: State, t: Rows, ids: seq<RowId>, parts: seq<string>, turn: MissionId)
    requires |ids| <= |parts|
  {
    && (forall id :: id in s.rows ==> id in t && t[id] == s.rows[id])
    && (forall id :: id in t && id !in s.rows ==> id in ids)
    && (forall k :: 0 <= k < |ids| ==> PartStored(s, t, ids[k], parts, turn, k))
  }

  lemma NewRowsFacts(s: State, ids: seq<RowId>, id: RowId)
    requires NewRows(s, ids + [id])
    ensures NewRows(s, ids) && id !in ids && id !in s.rows
  {
    var all := ids + [id];
    assert all[|ids|] == id;
    assert forall k :: 0 <= k < |ids| ==> all[k] == ids[k];
  }

  lemma OneMorePart(s: State, u: State, ids: seq<RowId>, id: RowId, parts: seq<string>, turn: MissionId)
    requires |ids| == |parts| - 1 && NewRows(s, ids + [id])
    requires u == s.(rows := u.rows) && Stored(s, u.rows, ids, parts, turn)
    ensures var t := EnqueueStep(u, id, Text, parts[|ids|], Some(turn), Some(|ids|));
      t == s.(rows := t.rows) && Stored(s, t.rows, ids + [id], parts, turn)
  {
    var n := |ids|;
    var all := ids + [id];
    NewRowsFacts(s, ids, id);
    forall k | 0 <= k < n && ids[k] in u.rows && ids[k] !in s.rows ensures u.rows[ids[k]].message.ordinal == k {
      assert PartStored(s, u.rows, ids[k], parts, turn, k);
    }
    KeyStaysFree(s, u, ids, parts, turn);
    hide KeyTaken, NextOrdinal, NewRows;
    var t := EnqueueStep(u, id, Text, parts[n], Some(turn), Some(n));
    assert id !in u.rows;
    assert PartStored(s, t.rows, id, parts, turn, n);
    forall k | 0 <= k < n ensures PartStored(s, t.rows, ids[k], parts, turn, k) {
      assert PartStored(s, u.rows, ids[k], parts, turn, k);
    }
    assert forall k :: 0 <= k < |all| ==> all[k] == if k < n then ids[k] else id;
    assert forall k :: 0 <= k < |all| ==> PartStored(s, t.rows, all[k], parts, turn, k);
  }

  /** The keys of the first parts are those of all of them. */
  lemma StoredOfMore(s: State, t: Rows, ids: seq<RowId>, parts: seq<string>, turn: MissionId)
    requires |ids| == |parts| - 1 && Stored(s, t, ids, parts[..|ids|], turn)
    ensures Stored(s, t, ids, parts, turn)
  {
    hide KeyTaken;
    forall k | 0 <= k < |ids| ensures PartStored(s, t, ids[k], parts, turn, k) {
      assert PartStored(s, t, ids[k], parts[..|ids|], turn, k);
    }
  }

  lemma AllButTheLast(ids: seq<RowId>)
    requires ids != []
    ensures ids[..|ids| - 1] + [ids[|ids| - 1]] == ids
  {
  }

  /** Part k of a result is stored exactly if no text of the turn already has the ordinal k: a part is lost for good
      when an earlier text to the user took its ordinal. */
  lemma {:induction false} PartsStored(s: State, ids: seq<RowId>, parts: seq<string>, turn: MissionId)
    requires |ids| == |parts| && NewRows(s, ids)
    ensures var t := EnqueueParts(s, ids, parts, turn);
      t == s.(rows := t.rows) && Stored(s, t.rows, ids, parts, turn)
    decreases |parts|
  {
    if parts != [] {
      var n := |parts| - 1;
      var u := EnqueueParts(s, ids[..n], parts[..n], turn);
      AllButTheLast(ids);
      hide Stored, EnqueueStep;
      assert NewRows(s, ids[..n]) by { NewRowsFacts(s, ids[..n], ids[n]); }
      PartsStored(s, ids[..n], parts[..n], turn);
      StoredOfMore(s, u.rows, ids[..n], parts, turn);
      OneMorePart(s, u, ids[..n], ids[n], parts, turn);
    }
  }

  /** A result announced twice, before and after a crash say, is stored once: the second time adds nothing. */
  lemma {:induction false} ASecondResultAddsNothing(s: State, ids: seq<RowId>, parts: seq<string>, turn: MissionId)
    requires |ids| == |parts|
    requires forall k :: 0 <= k < |parts| ==> KeyTaken(s.rows, PartMessage(s, parts, turn, k))
    ensures EnqueueParts(s, ids, parts, turn) == s
    decreases |parts|
  {
    if parts != [] {
      var n := |parts| - 1;
      forall k | 0 <= k < n ensures KeyTaken(s.rows, PartMessage(s, parts[..n], turn, k)) {
        assert KeyTaken(s.rows, PartMessage(s, parts, turn, k));
        var j :| j in s.rows && SameKey(PartMessage(s, parts, turn, k), s.rows[j].message);
        assert SameKey(PartMessage(s, parts[..n], turn, k), s.rows[j].message);
      }
      ASecondResultAddsNothing(s, ids[..n], parts[..n], turn);
      assert KeyTaken(s.rows, PartMessage(s, parts, turn, n));
      hide KeyTaken;
    }
  }

  /** Announcing a result again adds nothing, whatever happened in between, unless an operator discarded a message. */
  lemma ResultsAreStoredOnce(s: State, ids: seq<RowId>, es: seq<Event>, ids2: seq<RowId>, parts: seq<string>,
                             turn: MissionId)
    requires |ids| == |parts| == |ids2| && NewRows(s, ids)
    requires forall e :: e in es ==> !e.Discarded?
    ensures var t := Run(EnqueueParts(s, ids, parts, turn), es);
      EnqueueParts(t, ids2, parts, turn) == t
  {
    var u := EnqueueParts(s, ids, parts, turn);
    var t := Run(u, es);
    forall k | 0 <= k < |parts| ensures KeyTaken(t.rows, PartMessage(t, parts, turn, k)) {
      var j := PartIsThere(s, ids, parts, turn, k);
      hide Run, EnqueueParts;
      NothingIsLost(u, es, j);
      assert SameKey(PartMessage(t, parts, turn, k), t.rows[j].message);
    }
    hide Run, EnqueueParts;
    ASecondResultAddsNothing(t, ids2, parts, turn);
  }

  /** After the announcement every key of the result is taken. */
  lemma PartIsThere(s: State, ids: seq<RowId>, parts: seq<string>, turn: MissionId, k: nat) returns (j: RowId)
    requires |ids| == |parts| && NewRows(s, ids) && k < |parts|
    ensures var u := EnqueueParts(s, ids, parts, turn);
      j in u.rows && SameKey(PartMessage(s, parts, turn, k), u.rows[j].message)
  {
    PartsStored(s, ids, parts, turn);
    hide EnqueueParts;
    var u, m := EnqueueParts(s, ids, parts, turn), PartMessage(s, parts, turn, k);
    assert PartStored(s, u.rows, ids[k], parts, turn, k);
    if KeyTaken(s.rows, m) {
      j :| j in s.rows && SameKey(m, s.rows[j].message);
    } else {
      j := ids[k];
    }
  }

  /** A text without an ordinal of its own is never ignored. */
  lemma AppendedTextIsStored(s: State, id: RowId, body: string, turn: Option<MissionId>)
    requires id !in s.rows
    ensures id in EnqueueStep(s, id, Text, body, turn, None).rows
  {
    if turn.Some? {
      assert forall j :: j in s.rows && s.rows[j].message.turn == turn ==> j in RowsOfTurn(s.rows, turn.value);
    }
  }
}
