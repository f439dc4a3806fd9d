/** splitWhatsAppText: a long text goes out as several messages, cut where a line or a word ends. */
module TextSplit {

  /** A text is a sequence of UTF-16 code units. */
  type CodeUnit = u: int | 0 <= u < 0x1_0000
  type Text = seq<CodeUnit>

  const NEWLINE: CodeUnit := 0x0A
  const SPACE: CodeUnit := 0x20

  /** What String.prototype.trim removes: white space and line terminators of ECMA-262. */
  predicate IsBlank(u: CodeUnit) {
    || 0x09 <= u <= 0x0D || u == 0x20 || u == 0xA0 || u == 0x1680 || 0x2000 <= u <= 0x200A
    || u == 0x2028 || u == 0x2029 || u == 0x202F || u == 0x205F || u == 0x3000 || u == 0xFEFF
  }

  ghost predicate Blank(t: Text) {
    forall i :: 0 <= i < |t| ==> IsBlank(t[i])
  }

  /** Neither end is blank. */
  predicate Trimmed(t: Text) {
    t != [] ==> !IsBlank(t[0]) && !IsBlank(t[|t| - 1])
  }

  function TrimStart(t: Text): (r: Text)
    ensures |r| <= |t| && r == t[|t| - |r|..]
    ensures Blank(t[..|t| - |r|])
    ensures r != [] ==> !IsBlank(r[0])
  {
    if t == [] || !IsBlank(t[0]) then t
    else
      var r := TrimStart(t[1..]);
      assert t[..|t| - |r|] == [t[0]] + t[1..][..|t| - 1 - |r|];
      r
  }

  function TrimEnd(t: Text): (r: Text)
    ensures |r| <= |t| && r == t[..|r|]
    ensures Blank(t[|r|..])
    ensures r != [] ==> !IsBlank(r[|r| - 1])
  {
    if t == [] || !IsBlank(t[|t| - 1]) then t
    else
      var r := TrimEnd(t[..|t| - 1]);
      assert t[|r|..] == t[..|t| - 1][|r|..] + [t[|t| - 1]];
      r
  }

  function Trim(t: Text): (r: Text)
    ensures Trimmed(r) && |r| <= |t|
    ensures t != [] && !IsBlank(t[0]) ==> r != [] && r == t[..|r|] && Blank(t[|r|..])
    ensures t != [] && !IsBlank(t[|t| - 1]) ==> r != [] && |r| <= |t| && r == t[|t| - |r|..] && Blank(t[..|t| - |r|])
  {
    TrimEnd(TrimStart(t))
  }

  /** lastIndexOf(unit, from) */
  function LastIndexOf(t: Text, unit: CodeUnit, from: int): (k: int)
    requires from < |t|
    ensures -1 <= k && (0 <= from ==> k <= from)
    ensures k >= 0 ==> k <= from && t[k] == unit
    ensures forall i :: k < i <= from && 0 <= i ==> t[i] != unit
  {
    if from < 0 then -1 else if t[from] == unit then from else LastIndexOf(t, unit, from - 1)
  }

  function Max(a: int, b: int): int {
    if a > b then a else b
  }

  predicate IsBreak(u: CodeUnit) {
    u == NEWLINE || u == SPACE
  }

  /** Where a text that is too long is cut; soft is floor(limit * 0.7). */
  function Cut(t: Text, limit: nat, soft: nat): int
    requires limit < |t|
  {
    Max(Max(LastIndexOf(t, NEWLINE, limit), LastIndexOf(t, SPACE, limit)), soft)
  }

  /** The cut is at the last break within the limit, unless that would waste more than the soft part. */
  lemma CutAtLastBreak(t: Text, limit: nat, soft: nat)
    requires limit < |t| && soft <= limit
    ensures soft <= Cut(t, limit, soft) <= limit
    ensures forall i :: Cut(t, limit, soft) < i <= limit ==> !IsBreak(t[i])
    ensures (exists i :: soft <= i <= limit && IsBreak(t[i])) <==> IsBreak(t[Cut(t, limit, soft)])
    ensures (forall i :: soft < i <= limit ==> !IsBreak(t[i])) ==> Cut(t, limit, soft) == soft
    ensures forall u :: IsBreak(u) <==> u == 0x0A || u == 0x20
  {
  }

  /** The white space and line terminators of ECMA-262: tab to carriage return, space, no-break space, the spaces of
      Unicode, line and paragraph separator, and the byte order mark. */
  const WHITE: set<int> := {
    9, 10, 11, 12, 13, 32, 160, 5760,
    8192, 8193, 8194, 8195, 8196, 8197, 8198, 8199, 8200, 8201, 8202,
    8232, 8233, 8239, 8287, 12288, 65279
  }

  /** White space up to i and from j on, and none at the ends of what is between. */
  ghost predicate EndsAreWhite(t: Text, i: int, j: int) {
    && 0 <= i <= j <= |t|
    && (forall k :: 0 <= k < i || j <= k < |t| ==> t[k] in WHITE)
    && (i < j ==> t[i] !in WHITE && t[j - 1] !in WHITE)
  }

  lemma StartInWords(t: Text)
    ensures var r := TrimStart(t);
      && |r| <= |t| && r == t[|t| - |r|..]
      && (forall k :: 0 <= k < |t| - |r| ==> t[k] in WHITE)
      && (r != [] ==> r[0] !in WHITE)
  {
    var r := TrimStart(t);
    forall k | 0 <= k < |t| - |r| ensures t[k] in WHITE {
      assert t[..|t| - |r|][k] == t[k];
      BlankInWords(t[k]);
    }
    if r != [] { BlankInWords(r[0]); }
    hide IsBlank, TrimStart;
  }

  lemma EndInWords(t: Text)
    ensures var r := TrimEnd(t);
      && |r| <= |t| && r == t[..|r|]
      && (forall k :: |r| <= k < |t| ==> t[k] in WHITE)
      && (r != [] ==> r[|r| - 1] !in WHITE)
  {
    var r := TrimEnd(t);
    forall k | |r| <= k < |t| ensures t[k] in WHITE {
      assert t[|r|..][k - |r|] == t[k];
      BlankInWords(t[k]);
    }
    if r != [] { BlankInWords(r[|r| - 1]); }
    hide IsBlank, TrimEnd;
  }

  /** Trimming takes white space off both ends, and nothing but that. */
  lemma TrimInWords(t: Text)
    ensures exists i, j :: EndsAreWhite(t, i, j) && Trim(t) == t[i..j]
  {
    var r := TrimStart(t);
    StartInWords(t);
    EndInWords(r);
    hide IsBlank, TrimStart, TrimEnd;
    CutFromBothEnds(t, |t| - |r|, |TrimEnd(r)|);
  }

  lemma CutFromBothEnds(t: Text, i: nat, n: nat)
    requires i <= |t| && n <= |t| - i
    requires forall k :: 0 <= k < i ==> t[k] in WHITE
    requires forall k :: n <= k < |t| - i ==> t[i..][k] in WHITE
    requires i < |t| ==> t[i..][0] !in WHITE
    requires n > 0 ==> t[i..][n - 1] !in WHITE
    ensures EndsAreWhite(t, i, i + n) && t[i..][..n] == t[i..i + n]
  {
    assert forall k :: 0 <= k < |t| - i ==> t[i..][k] == t[i + k];
    forall k | i + n <= k < |t| ensures t[k] in WHITE {
      assert t[i..][k - i] == t[k];
    }
  }

  lemma BlankInWords(u: CodeUnit)
    ensures IsBlank(u) <==> u in WHITE
  {
  }

  /** The loop, on a trimmed text. */
  function Chunks(t: Text, limit: nat, soft: nat): seq<Text>
    requires 0 < soft <= limit && Trimmed(t)
    decreases |t|
  {
    if |t| <= limit then (if t == [] then [] else [t])
    else
      var cut := Cut(t, limit, soft);
      [Trim(t[..cut])] + Chunks(Trim(t[cut..]), limit, soft)
  }

  function Split(text: Text, limit: nat, soft: nat): seq<Text>
    requires 0 < soft <= limit
  {
    var t := Trim(text);
    if |t| <= limit then [t] else Chunks(t, limit, soft)
  }

  /** The chunks lie in t in order without overlap, and everything between and around them is blank. */
  ghost predicate LaidOut(t: Text, chunks: seq<Text>)
    decreases |chunks|
  {
    if chunks == [] then Blank(t)
    else exists at: nat :: FitsAt(t, chunks[0], at) && LaidOut(t[at + |chunks[0]|..], chunks[1..])
  }

  predicate FitsAt(t: Text, chunk: Text, at: nat) {
    at + |chunk| <= |t| && t[at..at + |chunk|] == chunk && forall i :: 0 <= i < at ==> IsBlank(t[i])
  }

  lemma {:induction false} LaidOutAfterBlank(gap: Text, t: Text, chunks: seq<Text>)
    requires Blank(gap) && LaidOut(t, chunks)
    ensures LaidOut(gap + t, chunks)
  {
    if chunks != [] {
      var at: nat :| FitsAt(t, chunks[0], at) && LaidOut(t[at + |chunks[0]|..], chunks[1..]);
      assert (gap + t)[|gap| + at + |chunks[0]|..] == t[at + |chunks[0]|..];
      assert FitsAt(gap + t, chunks[0], |gap| + at);
    }
  }

  lemma HeadOf(t: Text) returns (first: Text, after: Text)
    requires t != [] && !IsBlank(t[0])
    ensures first == Trim(t) && 0 < |first| <= |t|
    ensures Blank(after) && t == first + after
  {
    first := Trim(t);
    after := t[|first|..];
  }

  lemma TailOf(t: Text) returns (before: Text, rest: Text)
    requires t != [] && !IsBlank(t[|t| - 1])
    ensures rest == Trim(t) && 0 < |rest| <= |t|
    ensures Blank(before) && t == before + rest
  {
    rest := Trim(t);
    before := t[..|t| - |rest|];
  }

  /** A trimmed text cut in two: both parts stay nonempty, and only blanks are lost between them. */
  lemma CutInTwo(t: Text, cut: nat) returns (gap: Text)
    requires Trimmed(t) && 0 < cut < |t|
    ensures 0 < |Trim(t[..cut])| <= cut && 0 < |Trim(t[cut..])| <= |t| - cut
    ensures Blank(gap) && t == Trim(t[..cut]) + gap + Trim(t[cut..])
  {
    var head, tail := t[..cut], t[cut..];
    assert head[0] == t[0] && tail[|tail| - 1] == t[|t| - 1];
    var first, after := HeadOf(head);
    var before, rest := TailOf(tail);
    gap := after + before;
    SplitsIn(t, cut);
    hide *;
    BlankJoin(after, before);
    Regroup(t, first, after, before, rest);
  }

  lemma SplitsIn(t: Text, cut: nat)
    requires cut <= |t|
    ensures t == t[..cut] + t[cut..]
  {
  }

  /** One turn of the loop. */
  lemma OneCut(t: Text, limit: nat, soft: nat) returns (gap: Text)
    requires 0 < soft <= limit < |t| && Trimmed(t)
    ensures var cut := Cut(t, limit, soft);
      && 0 < soft <= cut <= limit
      && Trim(t[..cut]) != [] && |Trim(t[..cut])| <= limit
      && Trim(t[cut..]) != [] && |Trim(t[cut..])| <= |t| - soft
      && Blank(gap) && t == Trim(t[..cut]) + gap + Trim(t[cut..])
  {
    CutAtLastBreak(t, limit, soft);
    hide Trim, Cut, Blank, IsBlank;
    gap := CutInTwo(t, Cut(t, limit, soft));
  }

  lemma BlankJoin(a: Text, b: Text)
    requires Blank(a) && Blank(b)
    ensures Blank(a + b)
  {
  }

  lemma Regroup(t: Text, a: Text, b: Text, c: Text, d: Text)
    requires t == (a + b) + (c + d)
    ensures t == a + (b + c) + d
  {
  }

  lemma FirstChunk(t: Text, limit: nat, soft: nat)
    requires 0 < soft <= limit < |t| && Trimmed(t)
    ensures Chunks(t, limit, soft)
      == [Trim(t[..Cut(t, limit, soft)])] + Chunks(Trim(t[Cut(t, limit, soft)..]), limit, soft)
  {
    hide Cut, Trim, IsBlank;
  }

  lemma LastChunk(t: Text, limit: nat, soft: nat)
    requires 0 < soft <= limit && |t| <= limit && Trimmed(t)
    ensures Chunks(t, limit, soft) == if t == [] then [] else [t]
  {
  }

  lemma Append(chunks: seq<Text>, chunk: Text, rest: seq<Text>)
    ensures chunks + ([chunk] + rest) == (chunks + [chunk]) + rest
  {
  }

  lemma Associate(a: Text, b: Text, c: Text)
    ensures a + b + c == a + (b + c)
  {
  }

  lemma OneChunk(t: Text)
    ensures LaidOut(t, [t])
  {
    assert t == t + [] && [t] == [t] + [];
    LaidOutInFront(t, t, [], []);
  }

  lemma {:induction false} ChunksAreLaidOut(t: Text, limit: nat, soft: nat)
    requires 0 < soft <= limit && Trimmed(t)
    ensures LaidOut(t, Chunks(t, limit, soft))
    ensures forall c :: c in Chunks(t, limit, soft) ==> 0 < |c| <= limit
    decreases |t|
  {
    hide Cut, Trim, IsBlank;
    if t == [] {
    } else if |t| <= limit {
      OneChunk(t);
    } else {
      var gap := OneCut(t, limit, soft);
      var cut := Cut(t, limit, soft);
      var first, rest := Trim(t[..cut]), Trim(t[cut..]);
      FirstChunk(t, limit, soft);
      hide Chunks, LaidOut, Blank;
      var chunks := Chunks(rest, limit, soft);
      ChunksAreLaidOut(rest, limit, soft);
      LaidOutAfterBlank(gap, rest, chunks);
      Associate(first, gap, rest);
      LaidOutInFront(t, first, gap + rest, chunks);
    }
  }

  lemma LaidOutInFront(t: Text, first: Text, rest: Text, chunks: seq<Text>)
    requires t == first + rest && LaidOut(rest, chunks)
    ensures LaidOut(t, [first] + chunks)
  {
    assert t[0 + |first|..] == rest && FitsAt(t, first, 0);
    assert ([first] + chunks)[0] == first && ([first] + chunks)[1..] == chunks;
  }

  lemma OneMore(n: int, soft: int)
    ensures n * soft == (n - 1) * soft + soft
  {
  }

  lemma {:induction false} FewChunks(t: Text, limit: nat, soft: nat)
    requires 0 < soft <= limit && Trimmed(t) && t != []
    ensures (|Chunks(t, limit, soft)| - 1) * soft < |t|
    decreases |t|
  {
    hide Cut, Trim, IsBlank;
    if |t| > limit {
      var gap := OneCut(t, limit, soft);
      var rest := Trim(t[Cut(t, limit, soft)..]);
      FewChunks(rest, limit, soft);
      var n := |Chunks(rest, limit, soft)|;
      OneMore(n, soft);
    }
  }

  /** Every chunk fits the limit, none is empty unless there is nothing to send, nothing but blanks is lost, and each
      chunk but one accounts for at least the soft part of the limit. */
  lemma SplitKeepsTheText(text: Text, limit: nat, soft: nat)
    requires 0 < soft <= limit
    ensures LaidOut(Trim(text), Split(text, limit, soft))
    ensures forall c :: c in Split(text, limit, soft) ==> |c| <= limit && (c == [] ==> Trim(text) == [])
    ensures Trim(text) != [] ==> (|Split(text, limit, soft)| - 1) * soft < |Trim(text)|
  {
    var t := Trim(text);
    hide Trim;
    if t == [] {
      assert FitsAt(t, t, 0) && LaidOut(t[0..], []);
    } else {
      ChunksAreLaidOut(t, limit, soft);
      FewChunks(t, limit, soft);
    }
  }

  method SplitWhatsAppText(text: Text, limit: nat, soft: nat) returns (chunks: seq<Text>)
    requires 0 < soft <= limit
    ensures chunks == Split(text, limit, soft)
  {
    hide Trim, IsBlank, LastIndexOf, Chunks, Blank;
    var input := Trim(text);
    if |input| <= limit { return [input]; }
    chunks := [];
    var remaining := input;
    ghost var all := Chunks(input, limit, soft);
    while |remaining| > limit
      invariant Trimmed(remaining) && remaining != []
      invariant chunks + Chunks(remaining, limit, soft) == all
      decreases |remaining|
    {
      ghost var gap := OneCut(remaining, limit, soft);
      FirstChunk(remaining, limit, soft);
      Append(chunks, Trim(remaining[..Cut(remaining, limit, soft)]),
             Chunks(Trim(remaining[Cut(remaining, limit, soft)..]), limit, soft));
      var newline := LastIndexOf(remaining, NEWLINE, limit);
      var space := LastIndexOf(remaining, SPACE, limit);
      var cut := Max(Max(newline, space), soft);
      chunks := chunks + [Trim(remaining[..cut])];
      remaining := Trim(remaining[cut..]);
    }
    LastChunk(remaining, limit, soft);
    if remaining != [] { chunks := chunks + [remaining]; }
  }
}
