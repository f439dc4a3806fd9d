/** The outbox: the rows of messages to send, the flush that sends them, and everything else that writes a row
    between the calls of a flush. */
module Outbox {
  import opened Records

  type RowId = nat
  type RemoteId = string

  const FIVE_MINUTES: nat := 300_000
  const ACK_TIMEOUT_MS: nat := 120_000
  const FLUSH_LIMIT: nat := 20

  datatype Kind = Text | Media

  /** pending, sending, sent_unconfirmed, acknowledged, failed. */
  datatype Progress = ToSend | Sending | SentUnconfirmed | Acknowledged | SendFailed

  /** The columns an insert writes and nothing updates. */
  datatype Message = Message(kind: Kind, body: string, turn: Option<MissionId>, ordinal: int, createdAt: nat)

  datatype Row = Row(
    message: Message,
    status: Progress,
    attempts: nat,
    nextAt: nat,
    updatedAt: nat,
    remote: Option<RemoteId>
  )

  type Rows = map<RowId, Row>

  /** A flush that waits for a send: the row, its attempt, and how many rounds came before. */
  datatype Flush = Flush(row: RowId, attempt: nat, sent: nat)

  datatype State = State(rows: Rows, flush: Option<Flush>, now: nat)

  datatype Event =
    | Enqueued(id: RowId, kind: Kind, body: string, turn: Option<MissionId>, ordinal: Option<int>)
    | FlushCalled(ready: bool)
    | SendReturned(sentId: Option<RemoteId>)
    | SendThrew
    | Retried(id: RowId)
    | Discarded(id: RowId)
    | Acked(remote: RemoteId)
    | NegativelyAcked(remote: RemoteId)
    | TextEchoed(body: string, remote: RemoteId)
    | MediaEchoed(remote: RemoteId)
    | Restarted
    | Passed(ms: nat)

  // ---- delays

  function Pow2(n: nat): (p: nat)
    ensures p > 0
  {
    if n == 0 then 1 else 2 * Pow2(n - 1)
  }

  function Min(a: nat, b: nat): nat { if a <= b then a else b }

  function AckDelay(attempt: nat): nat {
    Min(FIVE_MINUTES, ACK_TIMEOUT_MS * Pow2(if attempt == 0 then 0 else attempt - 1))
  }

  function FailureDelay(kind: Kind, attempt: nat): nat {
    if kind.Media? then AckDelay(attempt) else Min(FIVE_MINUTES, 5_000 * Pow2(Min(attempt, 6)))
  }

  lemma {:induction false} Pow2Grows(m: nat, n: nat)
    requires m <= n
    ensures Pow2(m) <= Pow2(n)
  {
    if m < n { Pow2Grows(m, n - 1); }
  }

  /** An unanswered send waits between two and five minutes, and from the third attempt on always five; a failed one
      waits at most five. */
  lemma DelaysAreBounded(kind: Kind, attempt: nat)
    ensures ACK_TIMEOUT_MS <= AckDelay(attempt) <= FIVE_MINUTES
    ensures attempt >= 3 ==> AckDelay(attempt) == FIVE_MINUTES
    ensures 5_000 <= FailureDelay(kind, attempt) <= FIVE_MINUTES
    ensures attempt >= 6 ==> FailureDelay(kind, attempt) == FIVE_MINUTES
  {
    if attempt >= 3 { Pow2Grows(2, attempt - 1); }
    assert Pow2(2) == 4;
    assert Pow2(6) == 64;
  }

  // ---- queries

  /** What a query sorts by; the last component breaks the ties that the query leaves open. */
  datatype Key = Key(first: int, second: int, createdAt: nat, ordinal: int, id: RowId)

  datatype Order = ByAge | ByEcho

  function KeyOf(order: Order, r: Row, id: RowId): Key {
    match order
    case ByAge => Key(0, 0, r.message.createdAt, r.message.ordinal, id)
    case ByEcho => Key(if r.status.Sending? then 0 else 1, -(r.updatedAt as int), r.message.createdAt,
        r.message.ordinal, id)
  }

  predicate Leq(a: Key, b: Key) {
    if a.first != b.first then a.first < b.first
    else if a.second != b.second then a.second < b.second
    else if a.createdAt != b.createdAt then a.createdAt < b.createdAt
    else if a.ordinal != b.ordinal then a.ordinal < b.ordinal
    else a.id <= b.id
  }

  predicate Before(t: Rows, order: Order, i: RowId, j: RowId)
    requires i in t && j in t
  {
    Leq(KeyOf(order, t[i], i), KeyOf(order, t[j], j))
  }

  predicate IsFirst(t: Rows, order: Order, ids: set<RowId>, id: RowId)
    requires ids <= t.Keys
  {
    id in ids && forall j :: j in ids ==> Before(t, order, id, j)
  }

  lemma FirstExists(t: Rows, order: Order, ids: set<RowId>)
    requires ids <= t.Keys && ids != {}
    ensures exists id :: IsFirst(t, order, ids, id)
  {
    var k :| k in ids;
    if ids == {k} {
      assert IsFirst(t, order, ids, k);
    } else {
      FirstExists(t, order, ids - {k});
      var m :| IsFirst(t, order, ids - {k}, m);
      var first := if Before(t, order, k, m) then k else m;
      forall j | j in ids ensures Before(t, order, first, j) {
        if j != k { assert Before(t, order, m, j); }
      }
      assert IsFirst(t, order, ids, first);
    }
  }

  /** ORDER BY ... LIMIT 1. */
  function First(t: Rows, order: Order, ids: set<RowId>): (first: Option<RowId>)
    requires ids <= t.Keys
    ensures first.None? <==> ids == {}
    ensures first.Some? ==> IsFirst(t, order, ids, first.value)
  {
    if ids == {} then None
    else
      FirstExists(t, order, ids);
      var id :| id in ids && forall j :: j in ids ==> Before(t, order, id, j);
      Some(id)
  }

  lemma OnlyOneIsFirst(t: Rows, order: Order, ids: set<RowId>, id: RowId)
    requires ids <= t.Keys && IsFirst(t, order, ids, id)
    ensures First(t, order, ids) == Some(id)
  {
    var first := First(t, order, ids).value;
    assert Before(t, order, id, first) && Before(t, order, first, id);
  }

  predicate Due(r: Row, now: nat) {
    (r.status.ToSend? || r.status.SendFailed? || r.status.SentUnconfirmed?) && r.nextAt <= now
  }

  function DueRows(t: Rows, now: nat): set<RowId> {
    set id | id in t && Due(t[id], now)
  }

  function EchoedTexts(t: Rows, body: string): set<RowId> {
    set id | id in t && t[id].message.kind.Text? && t[id].message.body == body
             && (t[id].status.Sending? || t[id].status.SentUnconfirmed?)
  }

  function EchoedMedia(t: Rows, now: nat): set<RowId> {
    set id | id in t && t[id].message.kind.Media? && t[id].updatedAt + 60_000 >= now
             && (t[id].status.Sending? || t[id].status.SentUnconfirmed?)
  }

  // ---- the unique keys

  /** UNIQUE(turn_id, ordinal, kind); a row without a turn conflicts with nothing. */
  predicate SameKey(a: Message, b: Message) {
    a.turn.Some? && a.turn == b.turn && a.ordinal == b.ordinal && a.kind == b.kind
  }

  ghost predicate KeyTaken(t: Rows, m: Message) {
    exists j :: j in t && SameKey(m, t[j].message)
  }

  /** Writing this remote id to the row would violate the unique index. */
  ghost predicate RemoteTaken(t: Rows, id: RowId, remote: Option<RemoteId>) {
    remote.Some? && exists j :: j in t && j != id && t[j].remote == remote
  }

  ghost predicate UniqueRows(t: Rows) {
    && (forall i, j :: i in t && j in t && SameKey(t[i].message, t[j].message) ==> i == j)
    && (forall i, j :: i in t && j in t && t[i].remote.Some? && t[i].remote == t[j].remote ==> i == j)
  }

  function RowsOfTurn(t: Rows, turn: MissionId): set<RowId> {
    set id | id in t && t[id].message.turn == Some(turn)
  }

  predicate IsGreatest(t: Rows, ids: set<RowId>, id: RowId)
    requires ids <= t.Keys
  {
    id in ids && forall j :: j in ids ==> t[j].message.ordinal <= t[id].message.ordinal
  }

  lemma GreatestExists(t: Rows, ids: set<RowId>)
    requires ids <= t.Keys && ids != {}
    ensures exists id :: IsGreatest(t, ids, id)
  {
    var k :| k in ids;
    if ids == {k} {
      assert IsGreatest(t, ids, k);
    } else {
      GreatestExists(t, ids - {k});
      var m :| IsGreatest(t, ids - {k}, m);
      assert IsGreatest(t, ids, if t[k].message.ordinal <= t[m].message.ordinal then m else k);
    }
  }

  /** nextOutboxOrdinal: 0 without a turn, or for the first row of a turn, else one more than the greatest. */
  ghost function NextOrdinal(t: Rows, turn: Option<MissionId>): (n: int)
    ensures turn.Some? ==> forall id :: id in RowsOfTurn(t, turn.value) ==> t[id].message.ordinal < n
    ensures turn.None? || RowsOfTurn(t, turn.value) == {} ==> n == 0
  {
    if turn.None? || RowsOfTurn(t, turn.value) == {} then 0
    else
      GreatestExists(t, RowsOfTurn(t, turn.value));
      var id :| IsGreatest(t, RowsOfTurn(t, turn.value), id);
      t[id].message.ordinal + 1
  }

  // ---- steps

  ghost function NewMessage(s: State, kind: Kind, body: string, turn: Option<MissionId>,
      ordinal: Option<int>): Message {
    Message(kind, body, turn, if ordinal.Some? then ordinal.value else NextOrdinal(s.rows, turn), s.now)
  }

  function NewRow(m: Message): Row {
    Row(m, ToSend, 0, m.createdAt, m.createdAt, None)
  }

  /** INSERT OR IGNORE. */
  ghost function EnqueueStep(s: State, id: RowId, kind: Kind, body: string, turn: Option<MissionId>,
                             ordinal: Option<int>): State {
    var m := NewMessage(s, kind, body, turn, ordinal);
    if id in s.rows || KeyTaken(s.rows, m) then s else s.(rows := s.rows[id := NewRow(m)])
  }

  /** The head of the loop of flushOutbox: take the oldest due row, or end the flush. */
  function RoundStep(s: State, sent: nat): State {
    var first := First(s.rows, ByAge, DueRows(s.rows, s.now));
    if sent >= FLUSH_LIMIT || first.None? then s.(flush := None)
    else
      var id := first.value;
      var r := s.rows[id].(status := Sending, attempts := s.rows[id].attempts + 1, updatedAt := s.now);
      s.(rows := s.rows[id := r], flush := Some(Flush(id, r.attempts, sent)))
  }

  function FlushStep(s: State, ready: bool): State {
    if s.flush.Some? || !ready then s else RoundStep(s, 0)
  }

  /** The catch block: no look at the status, and the flush ends. */
  function ThrewStep(s: State): State {
    if s.flush.None? then s
    else
      var f := s.flush.value;
      if f.row !in s.rows then s.(flush := None)
      else
        var r := s.rows[f.row];
        var next := s.now + FailureDelay(r.message.kind, f.attempt);
        s.(rows := s.rows[f.row := r.(status := SendFailed, nextAt := next, updatedAt := s.now)], flush := None)
  }

  /** The id a send is recorded with: a file whose send returned none may have got one from its echo. */
  function Correlated(r: Row, remote: Option<RemoteId>): Option<RemoteId> {
    if remote.None? && r.message.kind.Media? then r.remote else remote
  }

  function SentRow(r: Row, attempt: nat, remote: Option<RemoteId>, now: nat): Row {
    r.(status := SentUnconfirmed, remote := Correlated(r, remote), nextAt := now + AckDelay(attempt), updatedAt := now)
  }

  ghost function ReturnedStep(s: State, remote: Option<RemoteId>): State {
    if s.flush.None? then s
    else
      var f := s.flush.value;
      if f.row !in s.rows || !s.rows[f.row].status.Sending? then RoundStep(s, f.sent + 1)
      else if RemoteTaken(s.rows, f.row, Correlated(s.rows[f.row], remote)) then ThrewStep(s)
      else RoundStep(s.(rows := s.rows[f.row := SentRow(s.rows[f.row], f.attempt, remote, s.now)]), f.sent + 1)
  }

  function RetryStep(s: State, id: RowId): State {
    if id !in s.rows then s
    else s.(rows := s.rows[id := s.rows[id].(status := ToSend, nextAt := s.now, updatedAt := s.now)])
  }

  function DiscardStep(s: State, id: RowId): State {
    s.(rows := map j | j in s.rows && j != id :: s.rows[j])
  }

  function AckRow(r: Row, remote: RemoteId, now: nat): Row {
    if r.remote == Some(remote) then r.(status := Acknowledged, updatedAt := now) else r
  }

  function NegativeAckRow(r: Row, remote: RemoteId, now: nat): Row {
    if r.remote == Some(remote) then r.(status := SendFailed, nextAt := now + 5_000, updatedAt := now) else r
  }

  function RestartRow(r: Row, now: nat): Row {
    if r.status.Sending? then r.(status := ToSend, nextAt := now, updatedAt := now) else r
  }

  /** The update of an echo throws when another row holds the id, and then changes nothing. */
  ghost function EchoStep(s: State, row: Option<RowId>, remote: RemoteId, media: bool): State
    requires row.Some? ==> row.value in s.rows
  {
    if row.None? || RemoteTaken(s.rows, row.value, Some(remote)) then s
    else
      var r := s.rows[row.value];
      s.(rows := s.rows[row.value := r.(status := Acknowledged, remote := Some(remote), updatedAt := s.now,
                                        nextAt := if media then s.now else r.nextAt)])
  }

  ghost function Step(s: State, e: Event): State {
    match e
    case Enqueued(id, kind, body, turn, ordinal) => EnqueueStep(s, id, kind, body, turn, ordinal)
    case FlushCalled(ready) => FlushStep(s, ready)
    case SendReturned(sentId) => ReturnedStep(s, sentId)
    case SendThrew => ThrewStep(s)
    case Retried(id) => RetryStep(s, id)
    case Discarded(id) => DiscardStep(s, id)
    case Acked(remote) => s.(rows := map id | id in s.rows :: AckRow(s.rows[id], remote, s.now))
    case NegativelyAcked(remote) => s.(rows := map id | id in s.rows :: NegativeAckRow(s.rows[id], remote, s.now))
    case TextEchoed(body, remote) => EchoStep(s, First(s.rows, ByAge, EchoedTexts(s.rows, body)), remote, false)
    case MediaEchoed(remote) => EchoStep(s, First(s.rows, ByEcho, EchoedMedia(s.rows, s.now)), remote, true)
    case Restarted => s.(rows := map id | id in s.rows :: RestartRow(s.rows[id], s.now), flush := None)
    case Passed(ms) => s.(now := s.now + ms)
  }

  /** Row ids are random and never drawn twice, so a new row is not the one a flush still waits for. */
  predicate Possible(s: State, e: Event) {
    e.Enqueued? && s.flush.Some? ==> e.id != s.flush.value.row
  }

  ghost function Run(s: State, es: seq<Event>): State
    decreases |es|
  {
    if es == [] then s else Run(Step(s, es[0]), es[1..])
  }

  ghost predicate PossibleRun(s: State, es: seq<Event>)
    decreases |es|
  {
    es == [] || (Possible(s, es[0]) && PossibleRun(Step(s, es[0]), es[1..]))
  }

  function Empty(now: nat): State {
    State(map[], None, now)
  }
}
