/**
 The two tables the queue is made of: turns and the WhatsApp batches that are still to become turns. Messages are
 claimed, linked to an open batch, and handed over as one turn; both tables draw their positions from one counter.
 Tables are durable; the claims, the hand-over under way and the context clearing are lost in a crash.
 */
module IngressQueue {
  import opened Records

  const MAX_FILE_BYTES := 25 * 1024 * 1024
  const MAX_BATCH_BYTES := 50 * 1024 * 1024
  const MAX_BATCH_MESSAGES := 20
  const MAX_BATCH_ATTACHMENTS := 5
  const MAX_PENDING_TURNS := 250
  const BATCH_WINDOW_MS := 5_000

  type MessageId = nat

  datatype BatchStatus = Open | HandedOver | Rejected

  /** message_count, attachment_count and total_bytes. */
  datatype Load = Load(messages: nat, attachments: nat, bytes: nat)

  function Plus(a: Load, b: Load): Load {
    Load(a.messages + b.messages, a.attachments + b.attachments, a.bytes + b.bytes)
  }

  datatype Batch = Batch(sequence: nat, status: BatchStatus, dueAt: int, load: Load, turn: Option<MissionId>)

  /** An inbound row of whatsapp_messages; the size stands for its attachment. */
  datatype Message = Message(id: MessageId, size: Option<nat>, batch: Option<BatchId>)

  type Batches = map<BatchId, Batch>

  /** The hand-over of a batch, between creating its turn and the end of the try block. */
  datatype HandOver = HandOver(batch: BatchId, mission: MissionId)

  datatype State = State(
    missions: Missions,
    batches: Batches,
    messages: seq<Message>,
    claims: set<MessageId>,           // claimed and on their way to addToBatch
    handOver: Option<HandOver>,
    clearing: bool,                   // clearingContext
    cut: Option<nat>                  // conversation_started_after_sequence
  )

  // ---- queries

  /** COALESCE(MAX(..), 0) */
  ghost function Max(ns: set<nat>): (m: nat)
    ensures forall n :: n in ns ==> n <= m
    ensures m == 0 || m in ns
  {
    if ns == {} then 0
    else
      var n :| n in ns;
      var m := Max(ns - {n});
      assert ns == (ns - {n}) + {n};
      if n > m then n else m
  }

  function MissionSequences(t: Missions): set<nat> {
    set id | id in t :: t[id].sequence
  }

  function BatchSequences(t: Batches): set<nat> {
    set b | b in t :: t[b].sequence
  }

  /** reserveEnqueueSequence and nextEnqueueSequence: one more than any position in either table. */
  ghost function NextSequence(s: State): (n: nat)
    ensures n > 0
    ensures forall id :: id in s.missions ==> s.missions[id].sequence < n
    ensures forall b :: b in s.batches ==> s.batches[b].sequence < n
  {
    var taken := MissionSequences(s.missions) + BatchSequences(s.batches);
    assert forall id :: id in s.missions ==> s.missions[id].sequence in taken;
    assert forall b :: b in s.batches ==> s.batches[b].sequence in taken;
    Max(taken) + 1
  }

  function OpenBatches(t: Batches): set<BatchId> {
    set b | b in t && t[b].status.Open?
  }

  function PendingMissions(t: Missions): set<MissionId> {
    set id | id in t && Pending(t[id].status)
  }

  function PendingCount(s: State): nat {
    |PendingMissions(s.missions)| + |OpenBatches(s.batches)|
  }

  function QueuedAhead(s: State, n: nat): set<MissionId> {
    set id | id in s.missions && s.missions[id].status.Queued? && s.missions[id].sequence < n
  }

  function BatchesAhead(s: State, n: nat): set<BatchId> {
    set b | b in s.batches && s.batches[b].status.Open? && s.batches[b].sequence < n
  }

  /** queuePosition of a queued turn. */
  function Position(s: State, id: MissionId): nat
    requires id in s.missions
  {
    |QueuedAhead(s, s.missions[id].sequence)| + |BatchesAhead(s, s.missions[id].sequence)| + 1
  }

  // ---- messages

  predicate Known(messages: seq<Message>, id: MessageId) {
    exists i :: 0 <= i < |messages| && messages[i].id == id
  }

  /** claimInboundMessage: insert or ignore. */
  function ClaimStep(s: State, id: MessageId): State {
    if Known(s.messages, id) then s
    else s.(messages := s.messages + [Message(id, None, None)], claims := s.claims + {id})
  }

  /** saveIncomingMedia on the row i of a claimed message; a larger file is refused. */
  function SaveStep(s: State, i: nat, size: nat): State {
    if i < |s.messages| && s.messages[i].id in s.claims && size <= MAX_FILE_BYTES then
      s.(messages := s.messages[i := s.messages[i].(size := Some(size))])
    else s
  }

  /** The message is given up: its media cannot be saved, it was a command, or its batch was refused. */
  function DropStep(s: State, id: MessageId): State {
    s.(claims := s.claims - {id})
  }

  function RowLoad(m: Message): Load {
    Load(1, if m.size.Some? then 1 else 0, if m.size.Some? then m.size.value else 0)
  }

  ghost predicate IsLastOpen(t: Batches, b: BatchId) {
    b in t && t[b].status.Open? && forall c :: c in t && t[c].status.Open? ==> t[c].sequence <= t[b].sequence
  }

  /** "status = 'open' ORDER BY enqueue_sequence DESC LIMIT 1" */
  ghost function LastOpen(t: Batches): (last: Option<BatchId>)
    ensures last.Some? ==> IsLastOpen(t, last.value)
    ensures last.None? ==> OpenBatches(t) == {}
  {
    if OpenBatches(t) == {} then None
    else
      var ns := set b | b in OpenBatches(t) :: t[b].sequence;
      var k :| k in OpenBatches(t);
      assert t[k].sequence in ns;
      var b :| b in OpenBatches(t) && t[b].sequence == Max(ns);
      assert forall c :: c in t && t[c].status.Open? ==> c in OpenBatches(t) && t[c].sequence in ns;
      Some(b)
  }

  predicate CanAppend(batch: Load, row: Load) {
    && batch.messages < MAX_BATCH_MESSAGES
    && batch.attachments + row.attachments <= MAX_BATCH_ATTACHMENTS
    && batch.bytes + row.bytes <= MAX_BATCH_BYTES
  }

  predicate Full(load: Load) {
    load.messages >= MAX_BATCH_MESSAGES || load.attachments >= MAX_BATCH_ATTACHMENTS || load.bytes >= MAX_BATCH_BYTES
  }

  function DueAt(now: int, load: Load): int {
    if Full(load) then now else now + BATCH_WINDOW_MS
  }

  /** The open batch addToBatch appends to, if the message fits into it. */
  ghost function Target(t: Batches, row: Load): Option<BatchId> {
    var last := LastOpen(t);
    if last.Some? && CanAppend(t[last.value].load, row) then last else None
  }

  function NewBatch(sequence: nat): Batch {
    Batch(sequence, Open, 0, Load(0, 0, 0), None)
  }

  /** The transaction of addToBatch: the batch takes the load of the row i, and the row its batch. */
  function LinkStep(s: State, i: nat, b: BatchId, batch: Batch, now: int): State
    requires i < |s.messages|
  {
    var load := Plus(batch.load, RowLoad(s.messages[i]));
    s.(batches := s.batches[b := batch.(dueAt := DueAt(now, load), load := load)],
       messages := s.messages[i := s.messages[i].(batch := Some(b))],
       claims := s.claims - {s.messages[i].id})
  }

  /** addToBatch for the row i of a claimed message; newId is the id a new batch would get. */
  ghost function AddStep(s: State, i: nat, now: int, newId: BatchId): State {
    if !(i < |s.messages| && s.messages[i].id in s.claims) then s
    else if PendingCount(s) >= MAX_PENDING_TURNS then DropStep(s, s.messages[i].id)
    else
      var target := Target(s.batches, RowLoad(s.messages[i]));
      if target.Some? then LinkStep(s, i, target.value, s.batches[target.value], now)
      else if newId in s.batches then s
      else LinkStep(s, i, newId, NewBatch(NextSequence(s)), now)
  }

  // ---- turns

  function NewMission(sequence: nat, ingress: Option<BatchId>): Mission {
    Mission(Queued, sequence, ingress, None, false, false, 0, false)
  }

  predicate Refuses(s: State, configured: bool) {
    s.clearing || !configured || PendingCount(s) >= MAX_PENDING_TURNS
  }

  /** A turn from the browser or a timer. */
  ghost function CreateStep(s: State, id: MissionId, configured: bool): State {
    if Refuses(s, configured) || id in s.missions then s
    else s.(missions := s.missions[id := NewMission(NextSequence(s), None)])
  }

  /** Whatever the dispatcher does to a row; the position and the origin stay. */
  function SetStatusStep(s: State, id: MissionId, status: Status): State {
    if id in s.missions then s.(missions := s.missions[id := s.missions[id].(status := status)]) else s
  }

  predicate IsTurnOf(t: Missions, id: MissionId, b: BatchId) {
    id in t && t[id].ingress == Some(b)
  }

  /** flushBatches, up to the turn: found under its ingress key, or created in the place of the batch. */
  ghost function HandOverStep(s: State, b: BatchId, newId: MissionId, configured: bool): State {
    if b !in s.batches || !s.batches[b].status.Open? then s
    else if Refuses(s, configured) then RejectStep(s, b)
    else if exists id :: IsTurnOf(s.missions, id, b) then
      var id :| IsTurnOf(s.missions, id, b);
      s.(handOver := Some(HandOver(b, id)))
    else if newId in s.missions then s
    else s.(missions := s.missions[newId := NewMission(s.batches[b].sequence, Some(b))],
            handOver := Some(HandOver(b, newId)))
  }

  /** The transaction that marks the batch. */
  function MarkStep(s: State): State {
    if s.handOver.Some? && s.handOver.value.batch in s.batches then
      var h := s.handOver.value;
      s.(batches := s.batches[h.batch := s.batches[h.batch].(status := HandedOver, turn := Some(h.mission))],
         handOver := None)
    else s
  }

  /** The catch block: also for what goes wrong after the transaction. */
  function RejectStep(s: State, b: BatchId): State {
    if b in s.batches then s.(batches := s.batches[b := s.batches[b].(status := Rejected)], handOver := None) else s
  }

  /** One batch of flushBatches, undisturbed. */
  ghost function FlushStep(s: State, b: BatchId, newId: MissionId, configured: bool): State {
    MarkStep(HandOverStep(s, b, newId, configured))
  }

  // ---- clearing the context, and a crash

  function ClearCallStep(s: State): State {
    if PendingCount(s) > 0 || s.clearing then s else s.(clearing := true)
  }

  ghost function ClearReplyStep(s: State, history: bool): State {
    if !s.clearing then s
    else s.(clearing := false, cut := if history then Some(Max(MissionSequences(s.missions))) else s.cut)
  }

  function CrashStep(s: State): State {
    s.(claims := {}, handOver := None, clearing := false)
  }

  datatype Event =
    | Claim(message: MessageId)
    | Save(row: nat, size: nat)
    | Drop(message: MessageId)
    | Add(row: nat, now: int, freshBatch: BatchId)
    | Create(mission: MissionId, configured: bool)
    | SetStatus(mission: MissionId, status: Status)
    | Begin(batch: BatchId, freshMission: MissionId, configured: bool)
    | Mark
    | Reject(batch: BatchId)
    | ClearCall
    | ClearReply(history: bool)
    | Crash

  ghost function Step(s: State, e: Event): State {
    match e
    case Claim(id) => ClaimStep(s, id)
    case Save(i, size) => SaveStep(s, i, size)
    case Drop(id) => DropStep(s, id)
    case Add(i, now, newId) => AddStep(s, i, now, newId)
    case Create(id, configured) => CreateStep(s, id, configured)
    case SetStatus(id, status) => SetStatusStep(s, id, status)
    case Begin(b, newId, configured) => HandOverStep(s, b, newId, configured)
    case Mark => MarkStep(s)
    case Reject(b) => RejectStep(s, b)
    case ClearCall => ClearCallStep(s)
    case ClearReply(history) => ClearReplyStep(s, history)
    case Crash => CrashStep(s)
  }

  ghost function Run(s: State, es: seq<Event>): State
    decreases |es|
  {
    if es == [] then s else Run(Step(s, es[0]), es[1..])
  }

  const EMPTY := State(map[], map[], [], {}, None, false, None)
}
