/**
 WhatsApp echoes what the server sends to the self-chat. A text that comes in is taken for an echo if it was sent
 within the last minute and no earlier text was taken for that send.
 */
module EchoMatching {

  const ECHO_WINDOW_MS := 60_000

  /** A text sent or received, at a time of the clock. */
  datatype Event = Sent(text: string, at: int) | Came(text: string, at: int)

  datatype Send = Send(text: string, at: int)

  predicate IsEchoOf(send: Send, text: string, now: int) {
    send.text == text && send.at >= now - ECHO_WINDOW_MS
  }

  /** The oldest send that the text can be an echo of is used up. */
  function UseUp(sends: seq<Send>, text: string, now: int): seq<Send> {
    if sends == [] then []
    else if IsEchoOf(sends[0], text, now) then sends[1..]
    else [sends[0]] + UseUp(sends[1..], text, now)
  }

  /** The sends of a history that no text was taken for; nothing is ever forgotten here. */
  function Unmatched(h: seq<Event>): seq<Send> {
    if h == [] then []
    else
      var before := Unmatched(h[..|h| - 1]);
      match h[|h| - 1]
      case Sent(text, at) => before + [Send(text, at)]
      case Came(text, at) => UseUp(before, text, at)
  }

  /** The times of the sends of a text since the cutoff. */
  function Times(sends: seq<Send>, text: string, cutoff: int): seq<int> {
    if sends == [] then []
    else
      (if sends[0].text == text && sends[0].at >= cutoff then [sends[0].at] else []) + Times(sends[1..], text, cutoff)
  }

  /** Whether a text coming now is swallowed. */
  ghost predicate Swallows(sends: seq<Send>, text: string, now: int) {
    exists i :: 0 <= i < |sends| && IsEchoOf(sends[i], text, now)
  }

  /** Times never go back. */
  ghost predicate InOrder(h: seq<Event>) {
    forall i, j :: 0 <= i < j < |h| ==> h[i].at <= h[j].at
  }

  /** A text is taken for the echo of a send of the same text within the last sixty seconds. */
  lemma EchoesInWords(sends: seq<Send>, text: string, now: int)
    ensures Swallows(sends, text, now) <==>
      exists i :: 0 <= i < |sends| && sends[i].text == text && now - sends[i].at <= 60_000
  {
  }

  /** It uses up the first of those, and no other; a text that is no echo leaves the sends as they are. */
  lemma {:induction false} UsesUpTheFirst(sends: seq<Send>, text: string, now: int)
    ensures if !Swallows(sends, text, now) then UseUp(sends, text, now) == sends
            else exists i :: IsFirstEcho(sends, i, text, now) && UseUp(sends, text, now) == sends[..i] + sends[i + 1..]
  {
    if sends != [] {
      SwallowsUnfolds(sends, text, now);
      if IsEchoOf(sends[0], text, now) {
        assert IsFirstEcho(sends, 0, text, now);
        assert sends[..0] + sends[1..] == sends[1..];
      } else {
        UsesUpTheFirst(sends[1..], text, now);
        assert UseUp(sends, text, now) == [sends[0]] + UseUp(sends[1..], text, now);
        hide Swallows, UseUp, IsFirstEcho, IsEchoOf;
        if Swallows(sends[1..], text, now) {
          var i :| IsFirstEcho(sends[1..], i, text, now)
                   && UseUp(sends[1..], text, now) == sends[1..][..i] + sends[1..][i + 1..];
          FirstAmongMore(sends, i, text, now);
        }
      }
    }
  }

  lemma FirstAmongMore(sends: seq<Send>, i: int, text: string, now: int)
    requires sends != [] && !IsEchoOf(sends[0], text, now) && IsFirstEcho(sends[1..], i, text, now)
    ensures IsFirstEcho(sends, i + 1, text, now)
    ensures [sends[0]] + (sends[1..][..i] + sends[1..][i + 1..]) == sends[..i + 1] + sends[i + 2..]
  {
    hide IsEchoOf;
    assert forall j :: 0 < j < |sends| ==> sends[j] == sends[1..][j - 1];
  }

  ghost predicate IsFirstEcho(sends: seq<Send>, i: int, text: string, now: int) {
    && 0 <= i < |sends|
    && IsEchoOf(sends[i], text, now)
    && forall j :: 0 <= j < i ==> !IsEchoOf(sends[j], text, now)
  }

  // ---- each send swallows at most one text

  function Sends(h: seq<Event>, text: string): nat {
    if h == [] then 0
    else Sends(h[..|h| - 1], text) + (if h[|h| - 1].Sent? && h[|h| - 1].text == text then 1 else 0)
  }

  ghost function Swallowed(h: seq<Event>, text: string): nat {
    if h == [] then 0
    else
      var last := h[|h| - 1];
      Swallowed(h[..|h| - 1], text)
        + (if last.Came? && last.text == text && Swallows(Unmatched(h[..|h| - 1]), text, last.at) then 1 else 0)
  }

  function Count(sends: seq<Send>, text: string): nat {
    if sends == [] then 0 else (if sends[0].text == text then 1 else 0) + Count(sends[1..], text)
  }

  lemma {:induction false} CountAppend(sends: seq<Send>, send: Send, text: string)
    ensures Count(sends + [send], text) == Count(sends, text) + (if send.text == text then 1 else 0)
  {
    if sends == [] {
      assert sends + [send] == [send] && [send][1..] == [];
    } else {
      assert (sends + [send])[1..] == sends[1..] + [send];
      CountAppend(sends[1..], send, text);
    }
  }

  lemma SwallowsUnfolds(sends: seq<Send>, text: string, now: int)
    requires sends != []
    ensures Swallows(sends, text, now) <==> IsEchoOf(sends[0], text, now) || Swallows(sends[1..], text, now)
  {
    assert forall i :: 0 <= i < |sends| - 1 ==> sends[1..][i] == sends[i + 1];
    if Swallows(sends, text, now) && !IsEchoOf(sends[0], text, now) {
      var i :| 0 <= i < |sends| && IsEchoOf(sends[i], text, now);
      assert IsEchoOf(sends[1..][i - 1], text, now);
    }
    if Swallows(sends[1..], text, now) {
      var i :| 0 <= i < |sends| - 1 && IsEchoOf(sends[1..][i], text, now);
      assert IsEchoOf(sends[i + 1], text, now);
    }
  }

  lemma {:induction false} CountUseUp(sends: seq<Send>, used: string, now: int, text: string)
    ensures Count(UseUp(sends, used, now), text)
         == Count(sends, text) - (if used == text && Swallows(sends, used, now) then 1 else 0)
  {
    if sends != [] {
      if !IsEchoOf(sends[0], used, now) {
        CountUseUp(sends[1..], used, now, text);
        var rest := UseUp(sends[1..], used, now);
        assert ([sends[0]] + rest)[1..] == rest;
        SwallowsUnfolds(sends, used, now);
        hide Swallows;
      }
    }
  }

  /** Every send is either still unmatched or has swallowed exactly one text. */
  lemma {:induction false} EverySendIsAccountedFor(h: seq<Event>, text: string)
    ensures Count(Unmatched(h), text) + Swallowed(h, text) == Sends(h, text)
    decreases |h|
  {
    if h != [] {
      EverySendIsAccountedFor(h[..|h| - 1], text);
      match h[|h| - 1]
      case Sent(sent, at) => CountAppend(Unmatched(h[..|h| - 1]), Send(sent, at), text);
      case Came(came, at) => CountUseUp(Unmatched(h[..|h| - 1]), came, at, text);
    }
  }

  // ---- the queues of times keep exactly what can still matter

  lemma {:induction false} TimesAppend(sends: seq<Send>, send: Send, text: string, cutoff: int)
    ensures Times(sends + [send], text, cutoff)
         == Times(sends, text, cutoff) + (if send.text == text && send.at >= cutoff then [send.at] else [])
  {
    if sends == [] {
      assert sends + [send] == [send] && [send][1..] == [];
    } else {
      assert (sends + [send])[1..] == sends[1..] + [send];
      TimesAppend(sends[1..], send, text, cutoff);
    }
  }

  lemma {:induction false} TimesUseUp(sends: seq<Send>, used: string, now: int, text: string)
    ensures Swallows(sends, used, now) <==> Times(sends, used, now - ECHO_WINDOW_MS) != []
    ensures var times := Times(sends, text, now - ECHO_WINDOW_MS);
      Times(UseUp(sends, used, now), text, now - ECHO_WINDOW_MS) == if used == text
          && times != [] then times[1..] else times
  {
    if sends != [] {
      TimesUseUp(sends[1..], used, now, text);
      SwallowsUnfolds(sends, used, now);
      hide Swallows;
      var rest := UseUp(sends[1..], used, now);
      assert ([sends[0]] + rest)[1..] == rest;
    }
  }

  function Fresh(times: seq<int>, cutoff: int): seq<int> {
    if times == [] then [] else (if times[0] >= cutoff then [times[0]] else []) + Fresh(times[1..], cutoff)
  }

  lemma {:induction false} FreshTimes(sends: seq<Send>, text: string, earlier: int, cutoff: int)
    requires earlier <= cutoff
    ensures Fresh(Times(sends, text, earlier), cutoff) == Times(sends, text, cutoff)
  {
    if sends != [] {
      FreshTimes(sends[1..], text, earlier, cutoff);
      var rest := Times(sends[1..], text, earlier);
      assert ([sends[0].at] + rest)[1..] == rest && [] + rest == rest;
    }
  }

  type Queues = map<string, seq<int>>

  function Lookup(m: Queues, text: string): seq<int> {
    if text in m then m[text] else []
  }

  /** The queues hold, for each text, the unmatched sends since the cutoff, and no empty queue is kept. */
  ghost predicate Agrees(m: Queues, sends: seq<Send>, cutoff: int) {
    && (forall text: string :: Lookup(m, text) == Times(sends, text, cutoff))
    && (forall text :: text in m ==> m[text] != [])
  }

  lemma AgreesWhenPruned(m: Queues, m': Queues, sends: seq<Send>, earlier: int, cutoff: int)
    requires Agrees(m, sends, earlier) && earlier <= cutoff
    requires forall text: string :: Lookup(m', text) == Fresh(Lookup(m, text), cutoff)
    requires forall text :: text in m' ==> m'[text] != []
    ensures Agrees(m', sends, cutoff)
  {
    forall text: string ensures Lookup(m', text) == Times(sends, text, cutoff) {
      FreshTimes(sends, text, earlier, cutoff);
    }
  }

  lemma AgreesWhenSent(m: Queues, sends: seq<Send>, text: string, now: int)
    requires Agrees(m, sends, now - ECHO_WINDOW_MS)
    ensures Agrees(m[text := Lookup(m, text) + [now]], sends + [Send(text, now)], now - ECHO_WINDOW_MS)
  {
    var m' := m[text := Lookup(m, text) + [now]];
    forall other: string ensures Lookup(m', other) == Times(sends + [Send(text, now)], other, now - ECHO_WINDOW_MS) {
      TimesAppend(sends, Send(text, now), other, now - ECHO_WINDOW_MS);
    }
  }

  function Dequeued(m: Queues, text: string): Queues
    requires text in m && m[text] != []
  {
    if m[text][1..] == [] then m - {text} else m[text := m[text][1..]]
  }

  lemma AgreesWhenUsed(m: Queues, sends: seq<Send>, text: string, now: int)
    requires Agrees(m, sends, now - ECHO_WINDOW_MS)
    ensures Swallows(sends, text, now) <==> text in m
    ensures Agrees(if text in m then Dequeued(m, text) else m, UseUp(sends, text, now), now - ECHO_WINDOW_MS)
  {
    hide Times, UseUp;
    TimesUseUp(sends, text, now, text);
    assert Lookup(m, text) == Times(sends, text, now - ECHO_WINDOW_MS);
    var m' := if text in m then Dequeued(m, text) else m;
    forall other: string ensures Lookup(m', other) == Times(UseUp(sends, text, now), other, now - ECHO_WINDOW_MS) {
      TimesUseUp(sends, text, now, other);
      assert Lookup(m, other) == Times(sends, other, now - ECHO_WINDOW_MS);
    }
  }

  lemma UnmatchedUnfolds(h: seq<Event>, e: Event)
    ensures Unmatched(h + [e])
         == if e.Sent? then Unmatched(h) + [Send(e.text, e.at)] else UseUp(Unmatched(h), e.text, e.at)
  {
    assert (h + [e])[..|h + [e]| - 1] == h;
  }

  class EchoFilter {
    var recentOutboundTexts: Queues
    ghost var history: seq<Event>
    ghost var clock: int

    ghost predicate Valid()
      reads this
    {
      && InOrder(history)
      && (history != [] ==> history[|history| - 1].at <= clock)
      && Agrees(recentOutboundTexts, Unmatched(history), clock - ECHO_WINDOW_MS)
    }

    constructor (now: int)
      ensures Valid() && history == [] && clock == now
    {
      recentOutboundTexts := map[];
      history := [];
      clock := now;
    }

    /** pruneOutboundTexts: a pass over the texts, dropping old times and emptied queues. */
    method PruneOutboundTexts(now: int)
      requires Valid() && now >= clock
      modifies this`recentOutboundTexts
      ensures Agrees(recentOutboundTexts, Unmatched(history), now - ECHO_WINDOW_MS)
    {
      var cutoff := now - ECHO_WINDOW_MS;
      assert Fresh([], cutoff) == [];
      hide Times, Unmatched, Fresh;
      ghost var before := recentOutboundTexts;
      var rest := recentOutboundTexts.Keys;
      while rest != {}
        invariant rest <= before.Keys
        invariant forall text :: text in rest ==>
            text in recentOutboundTexts && recentOutboundTexts[text] == before[text]
        invariant forall text: string :: text !in rest ==>
            Lookup(recentOutboundTexts, text) == Fresh(Lookup(before, text), cutoff)
        invariant forall text :: text in recentOutboundTexts ==> recentOutboundTexts[text] != []
        decreases |rest|
      {
        var text :| text in rest;
        PruneText(text, cutoff);
        rest := rest - {text};
      }
      AgreesWhenPruned(before, recentOutboundTexts, Unmatched(history), clock - ECHO_WINDOW_MS, cutoff);
    }

    /** One round of the pass. */
    method PruneText(text: string, cutoff: int)
      requires text in recentOutboundTexts
      modifies this`recentOutboundTexts
      ensures Lookup(recentOutboundTexts, text) == Fresh(old(recentOutboundTexts)[text], cutoff)
      ensures text in recentOutboundTexts ==> recentOutboundTexts[text] != []
      ensures forall other :: other in old(recentOutboundTexts) && other != text ==>
        other in recentOutboundTexts && recentOutboundTexts[other] == old(recentOutboundTexts)[other]
      ensures recentOutboundTexts.Keys <= old(recentOutboundTexts).Keys
    {
      var recent := FreshOf(recentOutboundTexts[text], cutoff);
      if recent != [] {
        recentOutboundTexts := recentOutboundTexts[text := recent];
      } else {
        recentOutboundTexts := recentOutboundTexts - {text};
      }
    }

    /** timestamps.filter(sentAt => sentAt >= cutoff) */
    method FreshOf(times: seq<int>, cutoff: int) returns (kept: seq<int>)
      ensures kept == Fresh(times, cutoff)
    {
      kept := [];
      var i := 0;
      while i < |times|
        invariant 0 <= i <= |times|
        invariant kept + Fresh(times[i..], cutoff) == Fresh(times, cutoff)
      {
        assert times[i..][1..] == times[i + 1..];
        if times[i] >= cutoff { kept := kept + [times[i]]; }
        i := i + 1;
      }
    }

    method RememberOutboundText(text: string, now: int)
      requires Valid() && now >= clock
      modifies this
      ensures Valid() && history == old(history) + [Sent(text, now)]
    {
      hide Times, Unmatched, UseUp;
      PruneOutboundTexts(now);
      var timestamps := if text in recentOutboundTexts then recentOutboundTexts[text] else [];
      AgreesWhenSent(recentOutboundTexts, Unmatched(history), text, now);
      recentOutboundTexts := recentOutboundTexts[text := timestamps + [now]];
      UnmatchedUnfolds(history, Sent(text, now));
      history := history + [Sent(text, now)];
      clock := now;
    }

    /** True when the text is taken for an echo: exactly when an unmatched send of the last minute is there. */
    method ConsumeRecentOutboundText(text: string, now: int) returns (swallowed: bool)
      requires Valid() && now >= clock
      modifies this
      ensures Valid() && history == old(history) + [Came(text, now)]
      ensures swallowed <==> Swallows(Unmatched(old(history)), text, now)
    {
      hide Times, Unmatched, UseUp;
      PruneOutboundTexts(now);
      AgreesWhenUsed(recentOutboundTexts, Unmatched(history), text, now);
      swallowed := text in recentOutboundTexts;
      if swallowed {
        var timestamps := recentOutboundTexts[text][1..];
        if timestamps == [] {
          recentOutboundTexts := recentOutboundTexts - {text};
        } else {
          recentOutboundTexts := recentOutboundTexts[text := timestamps];
        }
      }
      UnmatchedUnfolds(history, Came(text, now));
      history := history + [Came(text, now)];
      clock := now;
    }
  }
}
