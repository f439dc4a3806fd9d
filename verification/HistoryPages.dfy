/** The visible history, fetched page by page with the sequence of the last turn as the cursor. */
module HistoryPages {
  import opened Records

  datatype Turn = Turn(sequence: nat, createdAt: int)

  /** What decides whether a turn is visible: the line of the last clearing, or the time the conversation started. */
  datatype Horizon = AfterSequence(line: nat) | SinceTime(time: int) | Everything

  /** The table, ORDER BY enqueue_sequence DESC. */
  ghost predicate Descending(turns: seq<Turn>) {
    && (forall i, j :: 0 <= i < j < |turns| ==> turns[i].sequence > turns[j].sequence)
    && (forall i :: 0 <= i < |turns| ==> turns[i].sequence > 0)
  }

  predicate Visible(turn: Turn, horizon: Horizon) {
    match horizon
    case AfterSequence(line) => turn.sequence > line
    case SinceTime(time) => turn.createdAt >= time
    case Everything => true
  }

  function VisibleOf(turns: seq<Turn>, horizon: Horizon): seq<Turn> {
    if turns == [] then []
    else (if Visible(turns[0], horizon) then [turns[0]] else []) + VisibleOf(turns[1..], horizon)
  }

  /** The rows below the cursor; there is no cursor on the first page. */
  function Below(turns: seq<Turn>, before: Option<nat>): seq<Turn> {
    if turns == [] || before.None? || turns[0].sequence < before.value then turns else Below(turns[1..], before)
  }

  /** repository.page: the limit is clamped to 1..100. */
  function Page(turns: seq<Turn>, limit: int, before: Option<nat>): seq<Turn> {
    var rows := Below(turns, before);
    if |rows| <= Clamp(limit) then rows else rows[..Clamp(limit)]
  }

  function Clamp(limit: int): (n: nat)
    ensures 1 <= n <= 100
  {
    if limit < 1 then 1 else if limit > 100 then 100 else limit
  }

  datatype Response = Response(data: seq<Turn>, nextCursor: Option<nat>)

  /** The list of the controller: a page without a full load of visible turns is the last. */
  function List(turns: seq<Turn>, horizon: Horizon, limit: int, before: Option<nat>): Response {
    var data := VisibleOf(Page(turns, limit, before), horizon);
    Response(data, if |data| == Clamp(limit) then Some(data[|data| - 1].sequence) else None)
  }

  /** Below the cursor lie exactly the rows with a smaller sequence, in their order; without a cursor all of them. */
  lemma {:induction false} BelowInWords(turns: seq<Turn>, before: Option<nat>)
    requires Descending(turns)
    ensures var rows := Below(turns, before);
      && |rows| <= |turns| && rows == turns[|turns| - |rows|..]
      && forall k :: 0 <= k < |turns| ==>
        (k >= |turns| - |rows| <==> before == None || turns[k].sequence < before.value)
  {
    if turns != [] && before != None && turns[0].sequence >= before.value {
      BelowInWords(turns[1..], before);
      assert forall k :: 0 < k < |turns| ==> turns[k] == turns[1..][k - 1];
    }
  }

  /** A page holds the first of the rows below the cursor: as many as the limit, a hundred at most and one at least,
      or what there is. The list shows those after the line, or not before the time; and the cursor is the last of
      them exactly if they fill the page. */
  lemma PageInWords(turns: seq<Turn>, horizon: Horizon, limit: int, before: Option<nat>)
    ensures var rows, page, list := Below(turns, before), Page(turns, limit, before), List(turns, horizon, limit,
      before);
      var full := if limit < 1 then 1 else if limit > 100 then 100 else limit;
      && |page| == (if |rows| < full then |rows| else full) && page == rows[..|page|]
      && (forall turn :: turn in list.data <==>
        && turn in page
        && (match horizon
            case AfterSequence(line) => turn.sequence > line
            case SinceTime(time) => turn.createdAt >= time
            case Everything => true))
      && list.nextCursor
        == (if |list.data| == full then Some(list.data[|list.data| - 1].sequence) else None)
  {
    forall turn ensures turn in VisibleOf(Page(turns, limit, before), horizon) <==>
                        turn in Page(turns, limit, before) && Visible(turn, horizon)
    {
      VisibleExactly(Page(turns, limit, before), horizon, turn);
    }
    hide VisibleOf, Below;
  }

  lemma {:induction false} VisibleExactly(turns: seq<Turn>, horizon: Horizon, turn: Turn)
    ensures turn in VisibleOf(turns, horizon) <==> turn in turns && Visible(turn, horizon)
  {
    if turns != [] {
      VisibleExactly(turns[1..], horizon, turn);
      assert turn in turns <==> turn == turns[0] || turn in turns[1..];
    }
  }

  lemma {:induction false} BelowIsShorter(turns: seq<Turn>, before: Option<nat>)
    ensures |Below(turns, before)| <= |turns|
    ensures Below(turns, before) == turns[|turns| - |Below(turns, before)|..]
  {
    if !(turns == [] || before.None? || turns[0].sequence < before.value) {
      BelowIsShorter(turns[1..], before);
    }
  }

  /** The turns visible in a table are a prefix of it: nothing visible is older than something hidden. */
  ghost predicate HidesTheOldest(turns: seq<Turn>, horizon: Horizon) {
    forall i, j :: 0 <= i < j < |turns| && Visible(turns[j], horizon) ==> Visible(turns[i], horizon)
  }

  /** The line of a clearing always does. */
  lemma ALineHidesTheOldest(turns: seq<Turn>, horizon: Horizon)
    requires Descending(turns) && !horizon.SinceTime?
    ensures HidesTheOldest(turns, horizon)
  {
  }

  lemma {:induction false} NoneVisible(turns: seq<Turn>, horizon: Horizon)
    requires forall i :: 0 <= i < |turns| ==> !Visible(turns[i], horizon)
    ensures VisibleOf(turns, horizon) == []
  {
    if turns != [] { NoneVisible(turns[1..], horizon); }
  }

  lemma {:induction false} AllVisible(turns: seq<Turn>, horizon: Horizon)
    requires forall i :: 0 <= i < |turns| ==> Visible(turns[i], horizon)
    ensures VisibleOf(turns, horizon) == turns
  {
    if turns != [] { AllVisible(turns[1..], horizon); }
  }

  lemma {:induction false} VisibleOfConcat(a: seq<Turn>, b: seq<Turn>, horizon: Horizon)
    ensures VisibleOf(a + b, horizon) == VisibleOf(a, horizon) + VisibleOf(b, horizon)
  {
    if a == [] {
      assert a + b == b;
    } else {
      VisibleOfUnfolds(a, b, horizon);
      VisibleOfConcat(a[1..], b, horizon);
      hide VisibleOf;
      Associate(if Visible(a[0], horizon) then [a[0]] else [], VisibleOf(a[1..], horizon), VisibleOf(b, horizon));
    }
  }

  lemma VisibleOfUnfolds(a: seq<Turn>, b: seq<Turn>, horizon: Horizon)
    requires a != []
    ensures VisibleOf(a + b, horizon)
      == (if Visible(a[0], horizon) then [a[0]] else []) + VisibleOf(a[1..] + b, horizon)
    ensures VisibleOf(a, horizon) == (if Visible(a[0], horizon) then [a[0]] else []) + VisibleOf(a[1..], horizon)
  {
    hide Visible;
    assert (a + b)[0] == a[0] && (a + b)[1..] == a[1..] + b;
  }

  lemma Associate(a: seq<Turn>, b: seq<Turn>, c: seq<Turn>)
    ensures a + (b + c) == (a + b) + c
  {
  }

  lemma {:induction false} AllOrFewer(a: seq<Turn>, horizon: Horizon)
    ensures |VisibleOf(a, horizon)| <= |a|
    ensures |VisibleOf(a, horizon)| == |a| ==> VisibleOf(a, horizon) == a && forall i :: 0 <= i < |a| ==>
      Visible(a[i], horizon)
  {
    if a != [] {
      AllOrFewer(a[1..], horizon);
      assert a == [a[0]] + a[1..];
    }
  }

  /** Below the last row of a page lies exactly what follows it. */
  lemma {:induction false} BelowRow(turns: seq<Turn>, k: nat)
    requires Descending(turns) && k < |turns|
    ensures Below(turns, Some(turns[k].sequence)) == turns[k + 1..]
  {
    if k == 0 {
      if |turns| > 1 {
        assert turns[1..][0].sequence < turns[0].sequence;
        assert Below(turns[1..], Some(turns[0].sequence)) == turns[1..];
      }
    } else {
      assert turns[1..][k - 1] == turns[k];
      BelowRow(turns[1..], k - 1);
    }
  }

  /** Following nextCursor from a page on, over a table that does not change. */
  function Follow(turns: seq<Turn>, horizon: Horizon, limit: int, before: Option<nat>, fuel: nat): seq<Turn>
    decreases fuel, 1
  {
    var page := List(turns, horizon, limit, before);
    page.data + Onward(turns, horizon, limit, page.nextCursor, fuel)
  }

  function Onward(turns: seq<Turn>, horizon: Horizon, limit: int, cursor: Option<nat>, fuel: nat): seq<Turn>
    decreases fuel, 0
  {
    if cursor.None? || fuel == 0 then [] else Follow(turns, horizon, limit, cursor, fuel - 1)
  }

  /** The page from the row k on: its visible rows, and either a cursor to its last row or nothing visible after it. */
  lemma OnePage(turns: seq<Turn>, horizon: Horizon, limit: int, k: nat, before: Option<nat>) returns (end: nat)
    requires Descending(turns) && HidesTheOldest(turns, horizon)
    requires k <= |turns| && Below(turns, before) == turns[k..]
    ensures k <= end <= |turns|
    ensures var page := List(turns, horizon, limit, before);
      && page.data == VisibleOf(turns[k..end], horizon)
      && (page.nextCursor.Some? ==> k < end && page.nextCursor.value == turns[end - 1].sequence)
      && (page.nextCursor.None? ==> VisibleOf(turns[end..], horizon) == [])
  {
    end := if |turns| - k <= Clamp(limit) then |turns| else k + Clamp(limit);
    PageRows(turns, limit, k, end, before);
    hide Below, Page;
    VisiblePart(turns, horizon, k, end);
  }

  lemma PageRows(turns: seq<Turn>, limit: int, k: nat, end: nat, before: Option<nat>)
    requires k <= |turns| && Below(turns, before) == turns[k..]
    requires end == if |turns| - k <= Clamp(limit) then |turns| else k + Clamp(limit)
    ensures Page(turns, limit, before) == turns[k..end]
  {
    hide Below, Clamp;
  }

  /** Of the rows k..end either all are visible, or none after them is. */
  lemma VisiblePart(turns: seq<Turn>, horizon: Horizon, k: nat, end: nat)
    requires HidesTheOldest(turns, horizon) && k <= end <= |turns|
    ensures var data := VisibleOf(turns[k..end], horizon);
      && |data| <= end - k
      && (0 < |data| == end - k ==> data[|data| - 1].sequence == turns[end - 1].sequence)
      && (|data| < end - k ==> VisibleOf(turns[end..], horizon) == [])
  {
    var page := turns[k..end];
    AllOrFewer(page, horizon);
    if |VisibleOf(page, horizon)| < |page| {
      SomeHidden(page, horizon);
      hide VisibleOf;
      var i :| 0 <= i < |page| && !Visible(page[i], horizon);
      assert page[i] == turns[k + i];
      NoneVisible(turns[end..], horizon);
    }
  }

  /** From the row k on: as many pages as there are rows are enough, and they list the visible rows once, in order. */
  lemma {:induction false} FollowFromRow(turns: seq<Turn>, horizon: Horizon, limit: int, k: nat,
      before: Option<nat>, fuel: nat)
    requires Descending(turns) && HidesTheOldest(turns, horizon)
    requires k <= |turns| && Below(turns, before) == turns[k..] && fuel >= |turns| - k
    ensures Follow(turns, horizon, limit, before, fuel) == VisibleOf(turns[k..], horizon)
    decreases fuel
  {
    hide VisibleOf, Below, List, Descending, HidesTheOldest, Follow;
    var end := OnePage(turns, horizon, limit, k, before);
    var page := List(turns, horizon, limit, before);
    FollowUnfolds(turns, horizon, limit, before, fuel);
    if page.nextCursor.Some? {
      assert Below(turns, page.nextCursor) == turns[end..] by { BelowRow(turns, end - 1); }
      FollowFromRow(turns, horizon, limit, end, page.nextCursor, fuel - 1);
    }
    assert Onward(turns, horizon, limit, page.nextCursor, fuel) == VisibleOf(turns[end..], horizon);
    hide Onward;
    VisibleOfSlices(turns, horizon, k, end);
  }

  lemma FollowUnfolds(turns: seq<Turn>, horizon: Horizon, limit: int, before: Option<nat>, fuel: nat)
    ensures var page := List(turns, horizon, limit, before);
      Follow(turns, horizon, limit, before, fuel) == page.data + Onward(turns, horizon, limit, page.nextCursor, fuel)
  {
    hide List, Onward;
  }

  lemma VisibleOfSlices(turns: seq<Turn>, horizon: Horizon, k: nat, end: nat)
    requires k <= end <= |turns|
    ensures VisibleOf(turns[k..], horizon) == VisibleOf(turns[k..end], horizon) + VisibleOf(turns[end..], horizon)
  {
    assert turns[k..] == turns[k..end] + turns[end..];
    hide VisibleOf;
    VisibleOfConcat(turns[k..end], turns[end..], horizon);
  }

  lemma SomeHidden(turns: seq<Turn>, horizon: Horizon)
    requires |VisibleOf(turns, horizon)| != |turns|
    ensures exists i :: 0 <= i < |turns| && !Visible(turns[i], horizon)
  {
    if forall i :: 0 <= i < |turns| ==> Visible(turns[i], horizon) { AllVisible(turns, horizon); }
  }

  /** For every page size, following nextCursor lists every turn above the line exactly once, newest first. */
  lemma EveryVisibleTurnOnce(turns: seq<Turn>, horizon: Horizon, limit: int)
    requires Descending(turns) && HidesTheOldest(turns, horizon)
    ensures Follow(turns, horizon, limit, None, |turns|) == VisibleOf(turns, horizon)
  {
    assert turns[0..] == turns;
    FollowFromRow(turns, horizon, limit, 0, None, |turns|);
  }

  // ---- exactly then

  /** Page by page of one row, the list ends at the first row that is hidden. */
  lemma {:induction false} StopsAtTheFirstHidden(turns: seq<Turn>, horizon: Horizon, k: nat, i: nat,
      before: Option<nat>,
                                                 fuel: nat)
    requires Descending(turns) && k <= i < |turns| && Below(turns, before) == turns[k..] && fuel >= i - k
    requires !Visible(turns[i], horizon) && forall j :: k <= j < i ==> Visible(turns[j], horizon)
    ensures Follow(turns, horizon, 1, before, fuel) == turns[k..i]
    decreases i - k
  {
    hide Descending, Visible;
    assert Page(turns, 1, before) == [turns[k]];
    assert [turns[k]][1..] == [];
    FollowUnfolds(turns, horizon, 1, before, fuel);
    if k < i {
      assert VisibleOf([turns[k]], horizon) == [turns[k]];
      BelowRow(turns, k);
      hide VisibleOf, Below, Follow;
      StopsAtTheFirstHidden(turns, horizon, k + 1, i, Some(turns[k].sequence), fuel - 1);
      assert turns[k..i] == [turns[k]] + turns[k + 1..i];
    } else {
      assert VisibleOf([turns[k]], horizon) == [];
    }
  }

  function FirstHidden(turns: seq<Turn>, horizon: Horizon): (i: nat)
    ensures i <= |turns|
    ensures forall j :: 0 <= j < i ==> Visible(turns[j], horizon)
    ensures i < |turns| ==> !Visible(turns[i], horizon)
  {
    if turns == [] || !Visible(turns[0], horizon) then 0 else 1 + FirstHidden(turns[1..], horizon)
  }

  lemma {:induction false} SomeVisible(turns: seq<Turn>, horizon: Horizon, j: nat)
    requires j < |turns| && Visible(turns[j], horizon)
    ensures VisibleOf(turns, horizon) != []
  {
    if j > 0 { SomeVisible(turns[1..], horizon, j - 1); }
  }

  lemma PagesOfOneEndEarly(turns: seq<Turn>, horizon: Horizon, h: nat, j: nat)
    requires Descending(turns) && h < j < |turns| && Visible(turns[j], horizon) && !Visible(turns[h], horizon)
    ensures Follow(turns, horizon, 1, None, |turns|) != VisibleOf(turns, horizon)
  {
    var i := FirstHidden(turns, horizon);
    assert i <= h;
    hide FirstHidden, Visible, Descending, Follow, VisibleOf;
    var before, after := turns[0..i], turns[i..];
    assert turns[0..] == turns;
    StopsAtTheFirstHidden(turns, horizon, 0, i, None, |turns|);
    VisibleOfSlices(turns, horizon, 0, i);
    AllVisible(before, horizon);
    assert after[j - i] == turns[j];
    SomeVisible(after, horizon, j - i);
    assert |before + VisibleOf(after, horizon)| > |before|;
  }

  /** The pages are complete for every page size if and only if nothing visible is older than something hidden. */
  lemma PagesAreCompleteExactly(turns: seq<Turn>, horizon: Horizon)
    requires Descending(turns)
    ensures (forall limit :: Follow(turns, horizon, limit, None, |turns|) == VisibleOf(turns, horizon))
      <==> HidesTheOldest(turns, horizon)
  {
    hide Follow, VisibleOf, Visible, Descending;
    if HidesTheOldest(turns, horizon) {
      forall limit ensures Follow(turns, horizon, limit, None, |turns|) == VisibleOf(turns, horizon) {
        EveryVisibleTurnOnce(turns, horizon, limit);
      }
    } else {
      var h, j :| 0 <= h < j < |turns| && Visible(turns[j], horizon) && !Visible(turns[h], horizon);
      PagesOfOneEndEarly(turns, horizon, h, j);
    }
  }

  // ---- the horizons that are stored

  /** conversation_started_at and conversation_started_after_sequence. */
  datatype Settings = Settings(startedAt: Option<int>, afterSequence: Option<nat>)

  /** What writes them: a clearing with the visible history, one without it, and the start of a thread. */
  datatype Write = HistoryCleared(at: int, last: nat) | ContextCleared | ThreadStarted

  function Written(s: Settings, w: Write): Settings {
    match w
    case HistoryCleared(at, last) => Settings(Some(at), Some(last))
    case _ => if s.startedAt.None? then s.(startedAt := Some(0)) else s
  }

  function Stored(ws: seq<Write>): Settings {
    if ws == [] then Settings(None, None) else Written(Stored(ws[..|ws| - 1]), ws[|ws| - 1])
  }

  function HorizonOf(s: Settings): Horizon {
    if s.afterSequence.Some? then AfterSequence(s.afterSequence.value)
    else if s.startedAt.None? then Everything
    else SinceTime(s.startedAt.value)
  }

  /** The horizon is the line of the last clearing of the history; before there was one it is the epoch, and before any
      thread there is none. */
  lemma HorizonInWords(ws: seq<Write>, w: Write)
    ensures HorizonOf(Stored([])) == Everything
    ensures var before, after := HorizonOf(Stored(ws)), HorizonOf(Stored(ws + [w]));
      match w
      case HistoryCleared(_, last) => after == AfterSequence(last)
      case _ => after == (if before == Everything then SinceTime(0) else before)
  {
    assert (ws + [w])[..|ws|] == ws;
  }

  lemma {:induction false} ATimeAloneIsTheEpoch(ws: seq<Write>)
    ensures Stored(ws).afterSequence.None? ==> Stored(ws).startedAt in {None, Some(0)}
  {
    if ws != [] { ATimeAloneIsTheEpoch(ws[..|ws| - 1]); }
  }

  /** Whatever clearings and threads there were: behind the horizon they leave, every page size lists every visible turn
      exactly once, newest first. */
  lemma StoredHorizonsPageCompletely(ws: seq<Write>, turns: seq<Turn>, limit: int)
    requires Descending(turns) && forall i :: 0 <= i < |turns| ==> turns[i].createdAt >= 0
    ensures HidesTheOldest(turns, HorizonOf(Stored(ws)))
    ensures Follow(turns, HorizonOf(Stored(ws)), limit, None, |turns|) == VisibleOf(turns, HorizonOf(Stored(ws)))
  {
    ATimeAloneIsTheEpoch(ws);
    EveryVisibleTurnOnce(turns, HorizonOf(Stored(ws)), limit);
  }
}
