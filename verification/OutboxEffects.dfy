/** What the events of the outbox do to each row, in numbers and columns: how a message comes to count as delivered,
    what a round takes, and how long a row waits. */
module OutboxEffects {
  import opened Records
  import opened Outbox

  // ---- the order of the queries

  /** created_at, ordinal, and the id where these leave it open. */
  predicate IsOlder(t: Rows, i: RowId, j: RowId)
    requires i in t && j in t
  {
    var a, b := t[i].message, t[j].message;
    || a.createdAt < b.createdAt
    || (a.createdAt == b.createdAt && (a.ordinal < b.ordinal || (a.ordinal == b.ordinal && i <= j)))
  }

  /** A row that is being sent comes before one that waits; then the one changed last; then the older one. */
  predicate IsLikelier(t: Rows, i: RowId, j: RowId)
    requires i in t && j in t
  {
    || (t[i].status == Sending && t[j].status != Sending)
    || ((t[i].status == Sending <==> t[j].status == Sending)
        && (t[i].updatedAt > t[j].updatedAt || (t[i].updatedAt == t[j].updatedAt && IsOlder(t, i, j))))
  }

  lemma OrdersInWords(t: Rows, i: RowId, j: RowId)
    requires i in t && j in t
    ensures Before(t, ByAge, i, j) <==> IsOlder(t, i, j)
    ensures Before(t, ByEcho, i, j) <==> IsLikelier(t, i, j)
  {
  }

  // ---- how a message comes to count as delivered

  /** A text with this body that was handed over and has not arrived. */
  predicate AwaitsText(t: Rows, body: string, id: RowId) {
    id in t && t[id].message.kind == Text && t[id].message.body == body && t[id].status in {Sending, SentUnconfirmed}
  }

  /** A file that was handed over within the last minute and has not arrived. */
  predicate AwaitsFile(t: Rows, now: nat, id: RowId) {
    id in t && t[id].message.kind == Media && now - t[id].updatedAt <= 60_000
        && t[id].status in {Sending, SentUnconfirmed}
  }

  ghost predicate IsFree(t: Rows, id: RowId, remote: RemoteId) {
    forall j :: j in t && j != id ==> t[j].remote != Some(remote)
  }

  /** WhatsApp acknowledges the id of the row; or the echo is matched with it, and no other row has the id of the
      echo. */
  ghost predicate Arrives(s: State, e: Event, id: RowId)
    requires id in s.rows
  {
    match e
    case Acked(remote) => s.rows[id].remote == Some(remote)
    case TextEchoed(body, remote) =>
      && AwaitsText(s.rows, body, id) && IsFree(s.rows, id, remote)
      && forall j :: AwaitsText(s.rows, body, j) ==> IsOlder(s.rows, id, j)
    case MediaEchoed(remote) =>
      && AwaitsFile(s.rows, s.now, id) && IsFree(s.rows, id, remote)
      && forall j :: AwaitsFile(s.rows, s.now, j) ==> IsLikelier(s.rows, id, j)
    case _ => false
  }

  lemma FreeInWords(t: Rows, id: RowId, remote: RemoteId)
    ensures IsFree(t, id, remote) <==> !RemoteTaken(t, id, Some(remote))
  {
  }

  lemma FirstInWords(t: Rows, order: Order, ids: set<RowId>, id: RowId)
    requires ids <= t.Keys
    ensures First(t, order, ids) == Some(id) <==> id in ids && forall j :: j in ids ==> Before(t, order, id, j)
  {
    if id in ids && forall j :: j in ids ==> Before(t, order, id, j) { OnlyOneIsFirst(t, order, ids, id); }
  }

  lemma ArrivesByText(s: State, body: string, remote: RemoteId, id: RowId)
    requires id in s.rows
    ensures First(s.rows, ByAge, EchoedTexts(s.rows, body)) == Some(id) && !RemoteTaken(s.rows, id, Some(remote))
      <==> Arrives(s, TextEchoed(body, remote), id)
  {
    var ids := EchoedTexts(s.rows, body);
    FirstInWords(s.rows, ByAge, ids, id);
    FreeInWords(s.rows, id, remote);
    assert forall j :: j in ids <==> AwaitsText(s.rows, body, j);
    forall j | j in ids ensures Before(s.rows, ByAge, id, j)
        <==> IsOlder(s.rows, id, j) { OrdersInWords(s.rows, id, j); }
    hide First, RemoteTaken, IsFree, Before, IsOlder, AwaitsText, EchoedTexts;
  }

  lemma ArrivesByFile(s: State, remote: RemoteId, id: RowId)
    requires id in s.rows
    ensures First(s.rows, ByEcho, EchoedMedia(s.rows, s.now)) == Some(id) && !RemoteTaken(s.rows, id, Some(remote))
      <==> Arrives(s, MediaEchoed(remote), id)
  {
    var ids := EchoedMedia(s.rows, s.now);
    FirstInWords(s.rows, ByEcho, ids, id);
    FreeInWords(s.rows, id, remote);
    assert forall j :: j in ids <==> AwaitsFile(s.rows, s.now, j);
    forall j | j in ids ensures Before(s.rows, ByEcho, id, j)
        <==> IsLikelier(s.rows, id, j) { OrdersInWords(s.rows, id, j); }
    hide First, RemoteTaken, IsFree, Before, IsLikelier, AwaitsFile, EchoedMedia;
  }

  /** A row comes to count as delivered exactly by an acknowledgement of its own id or by the echo that is matched
      with it. */
  lemma DeliveredExactly(s: State, e: Event, id: RowId)
    requires id in s.rows && s.rows[id].status != Acknowledged && e != Discarded(id)
    ensures id in Step(s, e).rows
    ensures Step(s, e).rows[id].status == Acknowledged <==> Arrives(s, e, id)
  {
    if e.TextEchoed? { ArrivesByText(s, e.body, e.remote, id); }
    if e.MediaEchoed? { ArrivesByFile(s, e.remote, id); }
    hide First, NextOrdinal, KeyTaken, RemoteTaken, AckDelay, FailureDelay, IsFree, IsOlder, IsLikelier;
  }

  ghost predicate ArrivesIn(s: State, es: seq<Event>, id: RowId)
    decreases |es|
  {
    es != [] && ((id in s.rows && Arrives(s, es[0], id)) || ArrivesIn(Step(s, es[0]), es[1..], id))
  }

  /** Over any run: a row is found delivered only if it was at the beginning, or it arrived in the run. */
  lemma {:induction false} FoundDeliveredOnlyAfter(s: State, es: seq<Event>, id: RowId)
    requires id in s.rows && Discarded(id) !in es
    requires id in Run(s, es).rows && Run(s, es).rows[id].status == Acknowledged
    ensures s.rows[id].status == Acknowledged || ArrivesIn(s, es, id)
    decreases |es|
  {
    if es != [] && s.rows[id].status != Acknowledged {
      assert es[0] != Discarded(id);
      DeliveredExactly(s, es[0], id);
      hide Step, Arrives;
      FoundDeliveredOnlyAfter(Step(s, es[0]), es[1..], id);
    }
  }

  // ---- the other columns

  /** What the events besides the flush write, row by row; a row that an event is not about is as it was. */
  ghost predicate WrittenBeside(s: State, e: Event, r: Row, r': Row) {
    match e
    case Retried(_) => r' == r.(status := ToSend, nextAt := s.now, updatedAt := s.now)
    case Acked(_) => r' == r.(status := Acknowledged, updatedAt := s.now)
    case NegativelyAcked(_) => r' == r.(status := SendFailed, nextAt := s.now + 5_000, updatedAt := s.now)
    case TextEchoed(_, remote) => r' == r.(status := Acknowledged, remote := Some(remote), updatedAt := s.now)
    case MediaEchoed(remote) =>
      r' == r.(status := Acknowledged, remote := Some(remote), updatedAt := s.now, nextAt := s.now)
    case Restarted => r' == r.(status := ToSend, nextAt := s.now, updatedAt := s.now)
    case _ => r' == r
  }

  ghost predicate IsAbout(s: State, e: Event, id: RowId)
    requires id in s.rows
  {
    match e
    case Retried(i) => i == id
    case NegativelyAcked(remote) => s.rows[id].remote == Some(remote)
    case Restarted => s.rows[id].status == Sending
    case _ => Arrives(s, e, id)
  }

  lemma BesideTheFlush(s: State, e: Event, id: RowId)
    requires !e.SendReturned? && !e.SendThrew? && !e.FlushCalled?
    requires id in s.rows && e != Discarded(id)
    ensures var t := Step(s, e);
      && id in t.rows
      && (if IsAbout(s, e, id) then WrittenBeside(s, e, s.rows[id], t.rows[id]) else t.rows[id] == s.rows[id])
      && t.now == s.now + (if e.Passed? then e.ms else 0)
      && t.flush == (if e.Restarted? then None else s.flush)
  {
    if e.TextEchoed? { ArrivesByText(s, e.body, e.remote, id); }
    if e.MediaEchoed? { ArrivesByFile(s, e.remote, id); }
    hide First, NextOrdinal, KeyTaken, RemoteTaken, IsFree, IsOlder, IsLikelier;
  }

  /** Nothing but an insert adds a row, and nothing but a discard takes one away. */
  lemma RowsComeAndGo(s: State, e: Event, id: RowId)
    ensures id in Step(s, e).rows && id !in s.rows ==> e.Enqueued? && e.id == id
    ensures id in s.rows && id !in Step(s, e).rows <==> id in s.rows && e == Discarded(id)
  {
    hide First, NextOrdinal, KeyTaken, RemoteTaken, AckDelay, FailureDelay;
  }

  /** The ordinal that was given; without one 0 for the first row of a turn, or of none, and else one more than the
      greatest. */
  ghost predicate IsOrdinal(t: Rows, turn: Option<MissionId>, given: Option<int>, n: int) {
    if given.Some? then n == given.value
    else if turn == None || forall j :: j in t ==> t[j].message.turn != turn then n == 0
    else
      && (forall j :: j in t && t[j].message.turn == turn ==> t[j].message.ordinal < n)
      && exists j :: j in t && t[j].message.turn == turn && t[j].message.ordinal == n - 1
  }

  lemma OrdinalInWords(t: Rows, turn: Option<MissionId>)
    ensures IsOrdinal(t, turn, None, NextOrdinal(t, turn))
  {
    if turn.Some? {
      assert forall j :: j in t && t[j].message.turn == turn ==> j in RowsOfTurn(t, turn.value);
    }
  }

  ghost predicate IsThere(t: Rows, turn: Option<MissionId>, ordinal: int, kind: Kind) {
    exists j :: j in t && t[j].message.turn == turn && t[j].message.ordinal == ordinal && t[j].message.kind == kind
  }

  ghost predicate IsStored(s: State, t: State, id: RowId, kind: Kind, body: string, turn: Option<MissionId>, n: int) {
    if turn != None && IsThere(s.rows, turn, n, kind) then t == s
    else t == s.(rows := s.rows[id := Row(Message(kind, body, turn, n, s.now), ToSend, 0, s.now, s.now, None)])
  }

  /** A message is stored, to be sent at once, exactly if its id is new and no row of the same turn, ordinal and kind is
      there; a message without a turn always is. */
  lemma StoredInWords(s: State, id: RowId, kind: Kind, body: string, turn: Option<MissionId>, given: Option<int>)
    requires id !in s.rows
    ensures exists n :: IsOrdinal(s.rows, turn, given, n) &&
                        IsStored(s, EnqueueStep(s, id, kind, body, turn, given), id, kind, body, turn, n)
  {
    OrdinalInWords(s.rows, turn);
    var n := if given.Some? then given.value else NextOrdinal(s.rows, turn);
    assert IsOrdinal(s.rows, turn, given, n);
    hide NextOrdinal, IsOrdinal;
    assert KeyTaken(s.rows, Message(kind, body, turn, n, s.now)) <==> turn != None && IsThere(s.rows, turn, n, kind);
    assert IsStored(s, EnqueueStep(s, id, kind, body, turn, given), id, kind, body, turn, n);
  }

  // ---- the flush

  /** Two, four, and from the third attempt on five minutes. */
  function Patience(attempt: nat): nat {
    if attempt <= 1 then 120_000 else if attempt == 2 then 240_000 else 300_000
  }

  /** Ten, twenty, forty, eighty and a hundred and sixty seconds, then five minutes; a file waits as after a send. */
  function Pause(kind: Kind, attempt: nat): nat {
    if kind == Media then Patience(attempt)
    else if attempt == 0 then 5_000
    else if attempt == 1 then 10_000
    else if attempt == 2 then 20_000
    else if attempt == 3 then 40_000
    else if attempt == 4 then 80_000
    else if attempt == 5 then 160_000
    else 300_000
  }

  lemma DelaysInWords(kind: Kind, attempt: nat)
    ensures AckDelay(attempt) == Patience(attempt) && FailureDelay(kind, attempt) == Pause(kind, attempt)
  {
    assert Pow2(1) == 2 && Pow2(2) == 4 && Pow2(3) == 8 && Pow2(4) == 16 && Pow2(5) == 32 && Pow2(6) == 64;
    if attempt >= 3 { Pow2Grows(2, attempt - 1); }
  }

  /** A row that may be sent. */
  predicate MayBeSent(s: State, id: RowId) {
    id in s.rows && s.rows[id].status in {ToSend, SendFailed, SentUnconfirmed} && s.rows[id].nextAt <= s.now
  }

  /** A round takes the oldest row that may be sent, for one more attempt; the flush ends when there is none, or after
      twenty. */
  ghost predicate IsRound(s: State, sent: nat, t: State) {
    if sent >= 20 || forall id :: !MayBeSent(s, id) then t == s.(flush := None)
    else
      && t.flush.Some?
      && var c := t.flush.value.row;
        && MayBeSent(s, c) && (forall j :: MayBeSent(s, j) ==> IsOlder(s.rows, c, j))
        && t == s.(flush := Some(Flush(c, s.rows[c].attempts + 1, sent)),
                   rows := s.rows[c := s.rows[c].(status := Sending, attempts := s.rows[c].attempts + 1,
                       updatedAt := s.now)])
  }

  lemma RoundInWords(s: State, sent: nat)
    ensures IsRound(s, sent, RoundStep(s, sent))
  {
    var due := DueRows(s.rows, s.now);
    assert forall id :: id in due <==> MayBeSent(s, id);
    if due != {} {
      var c := First(s.rows, ByAge, due).value;
      forall j | j in due ensures IsOlder(s.rows, c, j) { OrdersInWords(s.rows, c, j); }
    }
    hide IsOlder, Before, MayBeSent, First;
  }

  ghost predicate Threw(s: State, f: Flush, t: State) {
    if f.row !in s.rows then t == s.(flush := None)
    else
      var r := s.rows[f.row];
      t == s.(flush := None,
              rows := s.rows[f.row := r.(status := SendFailed, updatedAt := s.now,
                                         nextAt := s.now + Pause(r.message.kind, f.attempt))])
  }

  /** What the reply to a send does: the row waits for its acknowledgement, if it still is the one being sent; a row
      that has arrived or been discarded is left alone; an id that another row has makes the send fail. Then comes the
      next round. */
  lemma RepliesInWords(s: State, f: Flush, sentId: Option<RemoteId>)
    requires s.flush == Some(f)
    ensures Threw(s, f, Step(s, SendThrew))
    ensures var t := Step(s, SendReturned(sentId));
      if f.row !in s.rows || s.rows[f.row].status != Sending then IsRound(s, f.sent + 1, t)
      else
        var r := s.rows[f.row];
        var remote := if sentId == None && r.message.kind == Media then r.remote else sentId;
        if remote != None && !IsFree(s.rows, f.row, remote.value) then Threw(s, f, t)
        else
          var r' := r.(status := SentUnconfirmed, remote := remote, updatedAt := s.now,
                       nextAt := s.now + Patience(f.attempt));
          IsRound(s.(rows := s.rows[f.row := r']), f.sent + 1, t)
  {
    hide RoundStep, IsRound, AckDelay, FailureDelay, Patience, Pause;
    RoundInWords(s, f.sent + 1);
    if f.row in s.rows {
      var r := s.rows[f.row];
      DelaysInWords(r.message.kind, f.attempt);
      var remote := if sentId == None && r.message.kind == Media then r.remote else sentId;
      if remote != None { FreeInWords(s.rows, f.row, remote.value); }
      hide RemoteTaken, IsFree;
      RoundInWords(s.(rows := s.rows[f.row := SentRow(r, f.attempt, sentId, s.now)]), f.sent + 1);
    }
  }

  /** A flush begins only when none is under way and WhatsApp is ready; without a flush no send returns. */
  lemma FlushesInWords(s: State, ready: bool, sentId: Option<RemoteId>)
    ensures s.flush != None || !ready ==> Step(s, FlushCalled(ready)) == s
    ensures s.flush == None && ready ==> IsRound(s, 0, Step(s, FlushCalled(ready)))
    ensures s.flush == None ==> Step(s, SendReturned(sentId)) == s && Step(s, SendThrew) == s
  {
    RoundInWords(s, 0);
    hide RoundStep, IsRound;
  }
}
