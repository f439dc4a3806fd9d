/** The rows every part of the server reads and writes, and the vocabulary of their statuses. */
module Records {

  datatype Option<+T> = None | Some(value: T)

  type MissionId = nat
  type BatchId = nat
  type TimerId = nat

  datatype Status =
    | Queued | Starting | Running | AwaitingApproval
    | Completed | Failed | Interrupted | Cancelled

  /** The statuses of a turn that Codex is working on. */
  predicate Active(status: Status) {
    status.Starting? || status.Running? || status.AwaitingApproval?
  }

  /** The statuses that count against the queue limit and block a timer. */
  predicate Pending(status: Status) {
    status.Queued? || Active(status)
  }

  /** A row of the missions table: the columns that decide how it is dispatched and recovered. */
  datatype Mission = Mission(
    status: Status,
    sequence: nat,
    ingress: Option<BatchId>,
    timer: Option<TimerId>,
    hasThread: bool,
    hasTurn: bool,
    // the number in the recovery metadata, 0 when there is none
    attempts: nat,
    // whether the error column holds a message about the connection to Codex
    infraError: bool
  )

  type Missions = map<MissionId, Mission>

  /** enqueue_sequence carries a unique index. */
  ghost predicate UniqueSequences(t: Missions) {
    forall i, j :: i in t && j in t && t[i].sequence == t[j].sequence ==> i == j
  }

  ghost predicate HasQueued(t: Missions) {
    exists id :: id in t && t[id].status.Queued?
  }

  /** The row that "status = 'queued' ORDER BY enqueue_sequence ASC LIMIT 1" returns. */
  ghost predicate IsNextQueued(t: Missions, id: MissionId) {
    && id in t
    && t[id].status.Queued?
    && forall j :: j in t && t[j].status.Queued? ==> t[id].sequence <= t[j].sequence
  }

  /** A nonempty set of rows has one with the least sequence. */
  lemma LeastExists(t: Missions, ids: set<MissionId>)
    requires ids != {} && ids <= t.Keys
    ensures exists id :: id in ids && forall j :: j in ids ==> t[id].sequence <= t[j].sequence
  {
    var k :| k in ids;
    if ids != {k} {
      LeastExists(t, ids - {k});
      var m :| m in ids - {k} && forall j :: j in ids - {k} ==> t[m].sequence <= t[j].sequence;
      var least := if t[k].sequence <= t[m].sequence then k else m;
      assert least in ids && forall j :: j in ids ==> t[least].sequence <= t[j].sequence;
    }
  }

  ghost function NextQueued(t: Missions): (id: MissionId)
    requires HasQueued(t)
    ensures IsNextQueued(t, id)
  {
    var ids := set i | i in t && t[i].status.Queued?;
    var k :| k in t && t[k].status.Queued?;
    assert k in ids;
    LeastExists(t, ids);
    var id :| id in ids && forall j :: j in ids ==> t[id].sequence <= t[j].sequence;
    id
  }

  /** The first row of "status IN active ORDER BY enqueue_sequence", if there is one. */
  ghost predicate IsFirstActive(t: Missions, id: MissionId) {
    && id in t
    && Active(t[id].status)
    && forall j :: j in t && Active(t[j].status) ==> t[id].sequence <= t[j].sequence
  }

  ghost function FirstActive(t: Missions): (first: Option<MissionId>)
    ensures first.Some? ==> IsFirstActive(t, first.value)
    ensures first.None? ==> forall i :: i in t ==> !Active(t[i].status)
  {
    var ids := set i | i in t && Active(t[i].status);
    if ids == {} then
      assert forall i :: i in t && Active(t[i].status) ==> i in ids;
      None
    else
      LeastExists(t, ids);
      var id :| id in ids && forall j :: j in ids ==> t[id].sequence <= t[j].sequence;
      Some(id)
  }

  /** A part of a set has fewer elements than the whole. */
  lemma SubsetSize<T>(a: set<T>, b: set<T>)
    requires a <= b
    ensures |a| <= |b|
    ensures a != b ==> |a| < |b|
  {
    assert b == a + (b - a);
    if a != b {
      assert b - a != {};
    }
  }
}
