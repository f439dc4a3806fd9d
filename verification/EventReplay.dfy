/**
 The event stream of a turn: the stored events above the client's cursor first, page by page, then the live ones
 (the resumption by last event id of section 9.2 of the WHATWG HTML Standard, Server-sent events).
 */
module EventReplay {
  import opened Records

  /** A row of mission_events. */
  datatype Event = Event(id: nat, mission: MissionId)

  /** The ids are handed out in increasing order. */
  ghost predicate Increasing(log: seq<Event>) {
    forall i, j :: 0 <= i < j < |log| ==> log[i].id < log[j].id
  }

  /** The events of a turn above a cursor. */
  function Above(log: seq<Event>, mission: MissionId, cursor: nat): seq<Event> {
    if log == [] then []
    else
      var rest := Above(log[1..], mission, cursor);
      if log[0].mission == mission && log[0].id > cursor then [log[0]] + rest else rest
  }

  /** repository.events: the query with its LIMIT. */
  function Page(log: seq<Event>, mission: MissionId, cursor: nat, limit: nat): (page: seq<Event>)
    ensures |page| <= |Above(log, mission, cursor)| && page == Above(log, mission, cursor)[..|page|]
    ensures |page| <= limit && (|page| < limit ==> page == Above(log, mission, cursor))
  {
    var all := Above(log, mission, cursor);
    if |all| <= limit then all else all[..limit]
  }

  /** The query finds every event of the turn above the cursor, and nothing else. */
  lemma {:induction false} AboveIsExact(log: seq<Event>, mission: MissionId, cursor: nat, e: Event)
    ensures e in Above(log, mission, cursor) <==> e in log && e.mission == mission && e.id > cursor
  {
    if log != [] {
      AboveIsExact(log[1..], mission, cursor, e);
      assert e in log <==> e == log[0] || e in log[1..];
    }
  }

  lemma {:induction false} AboveIsIncreasing(log: seq<Event>, mission: MissionId, cursor: nat)
    requires Increasing(log)
    ensures Increasing(Above(log, mission, cursor))
  {
    if log != [] {
      AboveIsIncreasing(log[1..], mission, cursor);
      var rest := Above(log[1..], mission, cursor);
      forall i | 0 <= i < |rest| ensures log[0].id < rest[i].id {
        AboveIsExact(log[1..], mission, cursor, rest[i]);
        IsLater(log, rest[i]);
      }
    }
  }

  lemma IsLater(log: seq<Event>, e: Event)
    requires Increasing(log) && log != [] && e in log[1..]
    ensures log[0].id < e.id
  {
    var k :| 0 < k < |log| && log[k] == e;
  }

  lemma {:induction false} AboveAppend(log: seq<Event>, more: seq<Event>, mission: MissionId, cursor: nat)
    ensures Above(log + more, mission, cursor) == Above(log, mission, cursor) + Above(more, mission, cursor)
  {
    if log == [] {
      assert log + more == more;
    } else {
      assert (log + more)[0] == log[0] && (log + more)[1..] == log[1..] + more;
      AboveAppend(log[1..], more, mission, cursor);
    }
  }

  lemma {:induction false} NoneAbove(log: seq<Event>, mission: MissionId, cursor: nat)
    requires forall i :: 0 <= i < |log| ==> log[i].id <= cursor
    ensures Above(log, mission, cursor) == []
  {
    if log != [] { NoneAbove(log[1..], mission, cursor); }
  }

  lemma {:induction false} AboveOfAll(log: seq<Event>, mission: MissionId, cursor: nat)
    requires forall i :: 0 <= i < |log| ==> log[i].mission == mission && log[i].id > cursor
    ensures Above(log, mission, cursor) == log
  {
    if log != [] { AboveOfAll(log[1..], mission, cursor); }
  }

  lemma {:induction false} AboveTwice(log: seq<Event>, mission: MissionId, c: nat, d: nat)
    requires c <= d
    ensures Above(Above(log, mission, c), mission, d) == Above(log, mission, d)
  {
    if log != [] {
      AboveTwice(log[1..], mission, c, d);
      var rest := Above(log[1..], mission, c);
      assert ([log[0]] + rest)[1..] == rest;
    }
  }

  /** Moving the cursor to the k-th event drops exactly the first k. */
  lemma AboveDrops(log: seq<Event>, mission: MissionId, cursor: nat, k: nat)
    requires Increasing(log) && 0 < k <= |Above(log, mission, cursor)|
    ensures var all := Above(log, mission, cursor);
      && Above(log, mission, all[k - 1].id) == all[k..]
      && all[k - 1].id > cursor && all[k - 1] in log
  {
    hide Above;
    var all := Above(log, mission, cursor);
    AboveIsIncreasing(log, mission, cursor);
    forall i | 0 <= i < |all| ensures all[i].mission == mission && all[i].id > cursor && all[i] in log {
      AboveIsExact(log, mission, cursor, all[i]);
    }
    AboveTwice(log, mission, cursor, all[k - 1].id);
    DropsFirst(all, mission, k);
  }

  lemma DropsFirst(all: seq<Event>, mission: MissionId, k: nat)
    requires Increasing(all) && 0 < k <= |all| && forall i :: 0 <= i < |all| ==> all[i].mission == mission
    ensures Above(all, mission, all[k - 1].id) == all[k..]
  {
    hide Above;
    var d := all[k - 1].id;
    assert all == all[..k] + all[k..];
    AboveAppend(all[..k], all[k..], mission, d);
    NoneAbove(all[..k], mission, d);
    AboveOfAll(all[k..], mission, d);
  }

  lemma {:induction false} SameAbove(log: seq<Event>, mission: MissionId, c: nat, d: nat)
    requires forall i :: 0 <= i < |log| ==> log[i].id > c && log[i].id > d
    ensures Above(log, mission, c) == Above(log, mission, d)
  {
    if log != [] { SameAbove(log[1..], mission, c, d); }
  }

  /** What the listener passes on of the events published to it, in whatever order they come. */
  function Passed(published: seq<Event>, mission: MissionId, cursor: nat): seq<Event> {
    if published == [] then []
    else if published[0].mission != mission || published[0].id <= cursor then Passed(published[1..], mission, cursor)
    else [published[0]] + Passed(published[1..], mission, published[0].id)
  }

  /** Events published in the order of their ids are all passed on. */
  lemma {:induction false} InOrderNothingIsDropped(published: seq<Event>, mission: MissionId, cursor: nat)
    requires Increasing(published)
    ensures Passed(published, mission, cursor) == Above(published, mission, cursor)
  {
    if published != [] {
      var e := published[0];
      if e.mission == mission && e.id > cursor {
        InOrderNothingIsDropped(published[1..], mission, e.id);
        SameAbove(published[1..], mission, cursor, e.id);
      } else {
        InOrderNothingIsDropped(published[1..], mission, cursor);
      }
    }
  }

  lemma {:induction false} PassedAreIncreasing(published: seq<Event>, mission: MissionId, cursor: nat)
    ensures Increasing(Passed(published, mission, cursor))
    ensures forall e :: e in Passed(published, mission, cursor) ==> e.id > cursor
  {
    if published != [] {
      if published[0].mission != mission || published[0].id <= cursor {
        PassedAreIncreasing(published[1..], mission, cursor);
      } else {
        PassedAreIncreasing(published[1..], mission, published[0].id);
      }
    }
  }

  /** New events of the turn are all passed on exactly when they are published in the order of their ids. */
  lemma NothingIsDroppedIffInOrder(published: seq<Event>, mission: MissionId, cursor: nat)
    requires forall e :: e in published ==> e.mission == mission && e.id > cursor
    ensures Passed(published, mission, cursor) == published <==> Increasing(published)
  {
    PassedAreIncreasing(published, mission, cursor);
    if Increasing(published) {
      InOrderNothingIsDropped(published, mission, cursor);
      AboveOfAll(published, mission, cursor);
    }
  }

  /** A whole connection: what the replay sent of the log, and what the listener passes on of the events published
      afterwards, are together the events of the turn above the client's cursor, each once and in order. */
  lemma ReplayJoinsLive(log: seq<Event>, published: seq<Event>, mission: MissionId, start: nat, cursor: nat)
    requires Increasing(log + published)
    requires start <= cursor && (cursor == start || IsId(log, cursor)) && Above(log, mission, cursor) == []
    ensures Above(log, mission, start) + Passed(published, mission, cursor) == Above(log + published, mission, start)
    ensures Increasing(Above(log + published, mission, start))
  {
    var all := log + published;
    assert forall i :: 0 <= i < |log| ==> all[i] == log[i];
    assert forall i :: 0 <= i < |published| ==> all[|log| + i] == published[i];
    if IsId(log, cursor) {
      var k :| 0 <= k < |log| && log[k].id == cursor;
      assert forall i :: 0 <= i < |published| ==> published[i].id > all[k].id;
    }
    hide Above, Passed, IsId;
    InOrderNothingIsDropped(published, mission, cursor);
    if cursor != start { SameAbove(published, mission, cursor, start); }
    AboveAppend(log, published, mission, start);
    AboveIsIncreasing(all, mission, start);
  }

  lemma HeadAndRest(before: seq<Event>, all: seq<Event>, k: nat)
    requires k <= |all|
    ensures before + all == (before + all[..k]) + all[k..]
  {
  }

  ghost predicate IsId(log: seq<Event>, id: nat) {
    exists i :: 0 <= i < |log| && log[i].id == id
  }

  /** One connection of a client: the closure over `cursor`, and what it has been sent. */
  class EventStream {
    const mission: MissionId
    ghost const start: nat
    var cursor: nat
    var emitted: seq<Event>

    /** Everything of the log above the start has been sent, once and in order, and nothing else. */
    ghost predicate CaughtUp(log: seq<Event>)
      reads this
    {
      && emitted == Above(log, mission, start)
      && Above(log, mission, cursor) == []
      && start <= cursor
      && (cursor == start || IsId(log, cursor))
    }

    constructor (id: MissionId, after: nat)
      ensures mission == id && start == after && cursor == after && emitted == []
    {
      mission, start, cursor, emitted := id, after, after, [];
    }

    /** The replay: pages of the log until one is empty. */
    method Replay(log: seq<Event>, limit: nat)
      requires Increasing(log) && 0 < limit
      requires cursor == start && emitted == []
      modifies this
      ensures CaughtUp(log)
    {
      hide Above, Page, Increasing;
      while true
        invariant start <= cursor
        invariant cursor == start || IsId(log, cursor)
        invariant emitted + Above(log, mission, cursor) == Above(log, mission, start)
        decreases |Above(log, mission, cursor)|
      {
        var page := Page(log, mission, cursor, limit);
        if page == [] { break; }
        ghost var all := Above(log, mission, cursor);
        AboveDrops(log, mission, cursor, |page|);
        HeadAndRest(emitted, all, |page|);
        assert IsId(log, page[|page| - 1].id);
        hide IsId;
        SendPage(page);
      }
    }

    /** The inner loop: each event is sent, and the cursor follows. */
    method SendPage(page: seq<Event>)
      requires page != []
      modifies this
      ensures emitted == old(emitted) + page && cursor == page[|page| - 1].id
    {
      var i := 0;
      while i < |page|
        invariant 0 <= i <= |page|
        invariant emitted == old(emitted) + page[..i]
        invariant i > 0 ==> cursor == page[i - 1].id
      {
        emitted := emitted + [page[i]];
        cursor := page[i].id;
        i := i + 1;
      }
    }

    /** The listener, for an event that has just been stored. */
    method Deliver(log: seq<Event>, event: Event)
      requires CaughtUp(log) && Increasing(log + [event])
      modifies this
      ensures CaughtUp(log + [event])
    {
      AboveAppend(log, [event], mission, start);
      AboveAppend(log, [event], mission, cursor);
      var longer := log + [event];
      assert longer[|log|] == event;
      assert forall i :: 0 <= i < |log| ==> longer[i] == log[i] && longer[i].id < longer[|log|].id;
      NoneAbove(longer, mission, event.id);
      if event.mission != mission || event.id <= cursor { return; }
      cursor := event.id;
      emitted := emitted + [event];
    }
  }
}
