/** Requests to Codex and what settles them: a response, a timeout, a failed write or the exit of the process. */
module RpcClient {
  import opened Records

  type RequestId = nat

  datatype Outcome = Resolved | RefusedByPeer | TimedOut | WriteFailed | Exited

  /** Requested: request() was called while the process was running, and whether the write went through. */
  datatype Event =
    | Requested(written: bool)
    | Responded(id: RequestId, ok: bool)
    | TimerFired(id: RequestId)
    | ProcessExited

  /** How many requests a history holds; the n-th has the id n. */
  function Issued(h: seq<Event>): nat {
    if h == [] then 0 else Issued(h[..|h| - 1]) + (if h[|h| - 1].Requested? then 1 else 0)
  }

  /** What an event means for a request that is already issued. */
  function Verdict(e: Event, id: RequestId): Option<Outcome> {
    match e
    case Requested(_) => None
    case Responded(i, ok) => if i == id then Some(if ok then Resolved else RefusedByPeer) else None
    case TimerFired(i) => if i == id then Some(TimedOut) else None
    case ProcessExited => Some(Exited)
  }

  /** The outcome of a request by its history alone: the first event that concerns it decides. */
  function Fate(h: seq<Event>, id: RequestId): Option<Outcome>
    decreases |h|, 0
  {
    if h == [] then None
    else
      NextFate(h[..|h| - 1], h[|h| - 1], id)
  }

  /** The outcome after one more event. */
  function NextFate(h: seq<Event>, e: Event, id: RequestId): Option<Outcome>
    decreases |h|, 1
  {
    if Fate(h, id).Some? then Fate(h, id)
    else if 0 < id <= Issued(h) then Verdict(e, id)
    else if id == Issued(h) + 1 && e.Requested? && !e.written then Some(WriteFailed)
    else None
  }

  lemma {:induction false} IssuedGrows(h: seq<Event>, k: seq<Event>)
    ensures Issued(h) <= Issued(h + k)
  {
    if k == [] {
      assert h + k == h;
    } else {
      var hk := h + k;
      assert hk[..|hk| - 1] == h + k[..|k| - 1];
      IssuedGrows(h, k[..|k| - 1]);
    }
  }

  /** Once a request is settled, nothing that comes later changes its outcome. */
  lemma {:induction false} FateIsFinal(h: seq<Event>, k: seq<Event>, id: RequestId)
    requires Fate(h, id).Some?
    ensures Fate(h + k, id) == Fate(h, id)
  {
    if k == [] {
      assert h + k == h;
    } else {
      var hk := h + k;
      assert hk[..|hk| - 1] == h + k[..|k| - 1];
      FateIsFinal(h, k[..|k| - 1], id);
    }
  }

  // ---- the outcome, read off the history

  /** The positions at which requests were issued. */
  function Requests(h: seq<Event>): set<int> {
    set k | 0 <= k < |h| && h[k].Requested?
  }

  lemma {:induction false} IssuedCounts(h: seq<Event>)
    ensures Issued(h) == |Requests(h)|
  {
    if h != [] {
      var before, n := h[..|h| - 1], |h| - 1;
      IssuedCounts(before);
      assert Requests(h) == Requests(before) + (if h[n].Requested? then {n} else {});
    }
  }

  /** The a-th event issues the request id: one more than the requests before it. */
  predicate Issues(h: seq<Event>, a: int, id: RequestId) {
    0 <= a < |h| && h[a].Requested? && |Requests(h[..a])| + 1 == id
  }

  /** A response to the request, its timeout, or the exit of the process. */
  predicate Concerns(e: Event, id: RequestId) {
    e == Responded(id, true) || e == Responded(id, false) || e == TimerFired(id) || e == ProcessExited
  }

  /** The k-th event is the first that concerns the request since it was issued. */
  ghost predicate IsFirst(h: seq<Event>, a: int, k: int, id: RequestId) {
    && 0 <= a < k < |h|
    && Concerns(h[k], id)
    && forall j :: a < j < k ==> !Concerns(h[j], id)
  }

  /** The request went out, and e is the first event that concerned it. */
  ghost predicate EndedBy(h: seq<Event>, a: int, id: RequestId, e: Event)
    requires 0 <= a < |h| && h[a].Requested?
  {
    h[a].written && exists k :: IsFirst(h, a, k, id) && h[k] == e
  }

  ghost predicate OutcomeInWords(h: seq<Event>, a: int, id: RequestId, fate: Option<Outcome>)
    requires 0 <= a < |h| && h[a].Requested?
  {
    && (fate == Some(WriteFailed) <==> !h[a].written)
    && (fate == Some(Resolved) <==> EndedBy(h, a, id, Responded(id, true)))
    && (fate == Some(RefusedByPeer) <==> EndedBy(h, a, id, Responded(id, false)))
    && (fate == Some(TimedOut) <==> EndedBy(h, a, id, TimerFired(id)))
    && (fate == Some(Exited) <==> EndedBy(h, a, id, ProcessExited))
    && (fate.None? <==> h[a].written && forall k :: a < k < |h| ==> !Concerns(h[k], id))
  }

  lemma OutcomeStays(h: seq<Event>, a: int, id: RequestId, fate: Option<Outcome>)
    requires h != [] && 0 <= a < |h| - 1 && h[a].Requested? && fate.Some?
    requires OutcomeInWords(h[..|h| - 1], a, id, fate)
    ensures OutcomeInWords(h, a, id, fate)
  {
    var before, n := h[..|h| - 1], |h| - 1;
    forall e: Event | EndedBy(before, a, id, e) ensures EndedBy(h, a, id, e) {
      var k :| IsFirst(before, a, k, id) && before[k] == e;
      assert IsFirst(h, a, k, id) && h[k] == e;
    }
    if h[a].written {
      assert exists k :: a < k < n && Concerns(before[k], id);
      forall e: Event | EndedBy(h, a, id, e) ensures EndedBy(before, a, id, e) {
        var k :| IsFirst(h, a, k, id) && h[k] == e;
        var j :| a < j < n && Concerns(before[j], id);
        assert h[j] == before[j] && k <= j;
        assert IsFirst(before, a, k, id) && before[k] == e;
      }
    }
  }

  lemma OutcomeNow(h: seq<Event>, a: int, id: RequestId)
    requires h != [] && 0 <= a < |h| - 1 && h[a].Requested? && 0 < id <= Issued(h[..|h| - 1])
    requires OutcomeInWords(h[..|h| - 1], a, id, None)
    ensures OutcomeInWords(h, a, id, Verdict(h[|h| - 1], id))
  {
    var before, n := h[..|h| - 1], |h| - 1;
    assert forall k :: a < k < n ==> h[k] == before[k] && !Concerns(h[k], id);
    assert forall k :: IsFirst(h, a, k, id) ==> k == n;
    if Concerns(h[n], id) { assert IsFirst(h, a, n, id); }
    assert forall e: Event :: EndedBy(h, a, id, e) <==> Concerns(h[n], id) && h[n] == e;
  }

  lemma IssuedBefore(h: seq<Event>, a: int, id: RequestId)
    requires Issues(h, a, id)
    ensures 0 < id <= Issued(h) && id == Issued(h[..a]) + 1
    ensures forall n :: a < n <= |h| ==> Issues(h[..n], a, id) && id <= Issued(h[..n])
  {
    IssuedCounts(h[..a]);
    forall n | a < n <= |h| ensures Issues(h[..n], a, id) && id <= Issued(h[..n]) {
      assert h[..n][..a] == h[..a] && h[..n][a] == h[a];
      assert Requests(h[..n]) >= Requests(h[..a]) + {a};
      SubsetSize(Requests(h[..a]) + {a}, Requests(h[..n]));
      IssuedCounts(h[..n]);
    }
    assert h[..|h|] == h;
  }

  /** What becomes of a request: it fails if it could not be written; else the first response, timeout or exit after it
      decides, a response by what it says; and with none of these it is open. */
  lemma {:induction false} SettledExactly(h: seq<Event>, a: int, id: RequestId)
    requires Issues(h, a, id)
    ensures OutcomeInWords(h, a, id, Fate(h, id))
    decreases |h|
  {
    var before, n := h[..|h| - 1], |h| - 1;
    IssuedBefore(h, a, id);
    if a == n {
      OnlyIssuedAreSettled(before, id);
      assert before == h[..a];
    } else {
      SettledExactly(before, a, id);
      var fate := Fate(before, id);
      hide OutcomeInWords, Issues, Requests, Issued, Verdict;
      if fate.Some? { OutcomeStays(h, a, id, fate); } else { OutcomeNow(h, a, id); }
    }
  }

  lemma IssuedUnfolds(h: seq<Event>, e: Event)
    ensures Issued(h + [e]) == Issued(h) + (if e.Requested? then 1 else 0)
  {
    assert (h + [e])[..|h + [e]| - 1] == h;
  }

  lemma FateUnfolds(h: seq<Event>, e: Event, id: RequestId)
    ensures Fate(h + [e], id) == NextFate(h, e, id)
  {
    assert (h + [e])[..|h + [e]| - 1] == h;
  }

  lemma {:induction false} OnlyIssuedAreSettled(h: seq<Event>, id: RequestId)
    requires id == 0 || id > Issued(h)
    ensures Fate(h, id).None?
  {
    if h != [] { OnlyIssuedAreSettled(h[..|h| - 1], id); }
  }

  /** A new request leaves the others as they are. */
  lemma FatesAfterRequest(h: seq<Event>, h': seq<Event>, written: bool)
    requires forall id: RequestId :: Fate(h', id) == NextFate(h, Requested(written), id)
    ensures forall id: RequestId :: 0 < id <= Issued(h) ==> Fate(h', id) == Fate(h, id)
    ensures Fate(h', Issued(h) + 1) == if written then None else Some(WriteFailed)
  {
    OnlyIssuedAreSettled(h, Issued(h) + 1);
    hide Issued, Fate;
  }

  class CodexAppServerClient {
    var requestId: nat
    var pending: set<RequestId>                        // the keys of the pending map, each with its timer armed
    var promises: map<RequestId, Option<Outcome>>      // what each caller sees
    ghost var history: seq<Event>

    ghost predicate Valid()
      reads this
    {
      && requestId == Issued(history)
      && (forall id :: id in promises <==> 0 < id <= requestId)
      && (forall id :: id in promises ==> promises[id] == Fate(history, id))
      && pending <= promises.Keys
      && (forall id :: id in promises && promises[id].None? ==> id in pending)
    }

    constructor ()
      ensures Valid() && history == []
    {
      requestId, pending, promises, history := 0, {}, map[], [];
    }

    /** resolve or reject: only the first call has an effect. */
    method Settle(id: RequestId, outcome: Outcome)
      requires id in promises
      modifies this`promises
      ensures promises == if old(promises)[id].Some? then old(promises) else old(promises)[id := Some(outcome)]
    {
      if promises[id].None? { promises := promises[id := Some(outcome)]; }
    }

    ghost method Record(e: Event)
      modifies this`history
      ensures history == old(history) + [e]
      ensures Issued(history) == Issued(old(history)) + (if e.Requested? then 1 else 0)
      ensures forall id: RequestId :: Fate(history, id) == NextFate(old(history), e, id)
    {
      IssuedUnfolds(history, e);
      forall id: RequestId { FateUnfolds(history, e, id); }
      history := history + [e];
    }

    /** request: an id never used before, an entry with a timer, then the write. A write that throws rejects the promise
        and leaves the entry. */
    method Request(writable: bool) returns (id: RequestId)
      requires Valid()
      modifies this
      ensures Valid() && history == old(history) + [Requested(writable)]
      ensures id !in old(promises) && pending == old(pending) + {id}
      ensures promises == old(promises)[id := if writable then None else Some(WriteFailed)]
    {
      requestId := requestId + 1;
      id := requestId;
      hide Issued, Fate;
      ghost var before := history;
      Record(Requested(writable));
      FatesAfterRequest(before, history, writable);
      hide NextFate;
      assert forall i :: i in promises ==> promises[i] == Fate(history, i);
      promises := promises[id := None];
      pending := pending + {id};
      if !writable { Settle(id, WriteFailed); }
      assert promises == old(promises)[id := Fate(history, id)];
    }

    /** handleResponse: a response nobody waits for changes nothing. */
    method HandleResponse(id: RequestId, ok: bool)
      requires Valid()
      modifies this
      ensures Valid() && history == old(history) + [Responded(id, ok)]
      ensures id !in old(pending) ==> promises == old(promises) && pending == old(pending)
      ensures id in old(pending) ==> pending == old(pending) - {id}
      ensures id in old(pending) && old(promises)[id].None? ==>
        promises == old(promises)[id := Some(if ok then Resolved else RefusedByPeer)]
      ensures id in old(pending) && old(promises)[id].Some? ==> promises == old(promises)
    {
      hide Issued, Fate;
      Record(Responded(id, ok));
      if id !in pending { return; }
      pending := pending - {id};
      Settle(id, if ok then Resolved else RefusedByPeer);
    }

    /** The timer of a request; it is armed exactly while the entry is there. */
    method TimerFires(id: RequestId)
      requires Valid() && id in pending
      modifies this
      ensures Valid() && history == old(history) + [TimerFired(id)]
      ensures pending == old(pending) - {id}
      ensures old(promises)[id].None? ==> promises == old(promises)[id := Some(TimedOut)]
      ensures old(promises)[id].Some? ==> promises == old(promises)
    {
      hide Issued, Fate;
      Record(TimerFired(id));
      pending := pending - {id};
      Settle(id, TimedOut);
    }

    /** rejectAll: after an exit nothing is pending and nothing is unsettled. */
    method RejectAll()
      requires Valid()
      modifies this
      ensures Valid() && history == old(history) + [ProcessExited]
      ensures pending == {} && promises.Keys == old(promises).Keys
      ensures forall id :: id in promises ==>
        promises[id] == if old(promises)[id].None? then Some(Exited) else old(promises)[id]
    {
      hide Issued, Fate;
      Record(ProcessExited);
      var rest := pending;
      while rest != {}
        invariant rest <= pending && pending == old(pending) && requestId == old(requestId)
        invariant history == old(history) + [ProcessExited]
        invariant promises.Keys == old(promises).Keys
        invariant forall id :: id in promises ==>
          promises[id] == if id in rest || id !in pending || old(promises)[id].Some? then old(promises)[id]
              else Some(Exited)
        decreases |rest|
      {
        var id :| id in rest;
        Settle(id, Exited);
        rest := rest - {id};
      }
      pending := {};
    }
  }
}
