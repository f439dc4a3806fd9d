/** Schedules of timers: what the editor sends, what the row stores, and the two evaluators of the next run. */
module Schedules {
  import opened Records

  datatype ScheduleKind = Once | Interval | Hourly | Daily | Weekly | Cron

  datatype Fields = Fields(
    runAt: Option<string>,
    time: Option<string>,
    weekday: Option<int>,
    minute: Option<int>,
    intervalMinutes: Option<int>,
    cronExpression: Option<string>
  )

  /** The name and the prompt, as they are stored. */
  datatype Texts = Texts(name: string, prompt: string)

  datatype TimerInput = TimerInput(texts: Texts, kind: ScheduleKind, fields: Fields, timezone: string)

  /** The columns schedule_kind, schedule_value and timezone of a timer. */
  datatype StoredSchedule = StoredSchedule(kind: ScheduleKind, value: string, timezone: string)

  /** What the schedules take from outside: the next run of a cron pattern in a timezone after an instant, the instant a
      text denotes, and whether a timezone is known. Instants are milliseconds. */
  datatype World = World(
    cron: (string, string, int) -> Option<int>,
    date: string -> Option<int>,
    knowsZone: string -> bool
  )

  ghost predicate StrictlyLater(w: World) {
    forall p, z, t :: w.cron(p, z, t).Some? ==> w.cron(p, z, t).value > t
  }

  const NO_FIELDS := Fields(None, None, None, None, None, None)
  const MINIMUM_FREQUENCY_MS := 300_000
  const MINUTE_MS := 60_000

  // ---- numbers and texts

  function Digit(d: nat): char
    requires d < 10
  {
    '0' + d as char
  }

  predicate IsDigit(c: char) { '0' <= c <= '9' }

  function Decimal(n: nat): (s: string)
    ensures s != []
  {
    if n < 10 then [Digit(n)] else Decimal(n / 10) + [Digit(n % 10)]
  }

  /** Number() of a text of digits; of any other text it is not a number here. */
  function Number(s: string): Option<nat> {
    if s == [] || !IsDigit(s[|s| - 1]) then None
    else
      var d := (s[|s| - 1] - '0') as nat;
      if |s| == 1 then Some(d)
      else
        var n := Number(s[..|s| - 1]);
        if n.None? then None else Some(10 * n.value + d)
  }

  lemma {:induction false} NumberOfDecimal(n: nat)
    ensures Number(Decimal(n)) == Some(n)
  {
    if n >= 10 {
      NumberOfDecimal(n / 10);
      var s := Decimal(n);
      assert s[..|s| - 1] == Decimal(n / 10);
    }
  }

  function StripPrefix(p: string, s: string): Option<string> {
    if |p| <= |s| && s[..|p|] == p then Some(s[|p|..]) else None
  }

  lemma StripsPrefix(p: string, s: string)
    ensures StripPrefix(p, p + s) == Some(s)
  {
    assert (p + s)[..|p|] == p && (p + s)[|p|..] == s;
  }

  /** The text before the first c, or all of it. */
  function UpTo(c: char, s: string): (n: nat)
    ensures n <= |s|
    ensures forall k :: 0 <= k < n ==> s[k] != c
    ensures n < |s| ==> s[n] == c
  {
    if s == [] || s[0] == c then 0 else 1 + UpTo(c, s[1..])
  }

  lemma UpToFinds(c: char, t: string, s: string)
    requires c !in t
    ensures UpTo(c, t + [c] + s) == |t|
  {
    var all := t + [c] + s;
    var n := UpTo(c, all);
    assert all[|t|] == c;
    assert forall k :: 0 <= k < |t| ==> all[k] == t[k];
  }

  // ---- the stored form

  const WEEKLY_HEAD := "{\"time\":\""
  const WEEKLY_MIDDLE := "\",\"weekday\":"
  const WEEKLY_TAIL := "}"

  function EncodeSchedule(input: TimerInput): string
    requires ValidFields(input.kind, input.fields)
  {
    var f := input.fields;
    match input.kind
    case Once => f.runAt.value
    case Hourly => Decimal(f.minute.value)
    case Interval => Decimal(f.intervalMinutes.value)
    case Cron => f.cronExpression.value
    case Daily => f.time.value
    case Weekly => WEEKLY_HEAD + f.time.value + WEEKLY_MIDDLE + Decimal(f.weekday.value) + WEEKLY_TAIL
  }

  function NumberField(value: string): Option<int> {
    var n := Number(value);
    if n.Some? then Some(n.value) else None
  }

  /** The text JSON.stringify writes; everything else falls to the catch block. */
  function DecodeWeekly(value: string): Fields {
    var rest := StripPrefix(WEEKLY_HEAD, value);
    if rest.None? then NO_FIELDS
    else
      var n := UpTo('"', rest.value);
      var rest2 := StripPrefix(WEEKLY_MIDDLE, rest.value[n..]);
      if rest2.None? || rest2.value == "" || rest2.value[|rest2.value| - 1..] != WEEKLY_TAIL then NO_FIELDS
      else
        var weekday := NumberField(rest2.value[..|rest2.value| - 1]);
        if weekday.None? then NO_FIELDS else NO_FIELDS.(time := Some(rest.value[..n]), weekday := weekday)
  }

  function DecodeSchedule(row: StoredSchedule): Fields {
    match row.kind
    case Once => NO_FIELDS.(runAt := Some(row.value))
    case Hourly => NO_FIELDS.(minute := NumberField(row.value))
    case Interval => NO_FIELDS.(intervalMinutes := NumberField(row.value))
    case Cron => NO_FIELDS.(cronExpression := Some(row.value))
    case Daily => NO_FIELDS.(time := Some(row.value))
    case Weekly => DecodeWeekly(row.value)
  }

  function Store(input: TimerInput): StoredSchedule
    requires ValidFields(input.kind, input.fields)
  {
    StoredSchedule(input.kind, EncodeSchedule(input), input.timezone)
  }

  // ---- validation

  /** HH:MM, from 00:00 to 23:59. */
  predicate ValidTime(t: string) {
    && |t| == 5 && t[2] == ':'
    && IsDigit(t[0]) && IsDigit(t[1]) && IsDigit(t[3]) && IsDigit(t[4])
    && (t[0] < '2' || (t[0] == '2' && t[1] <= '3')) && t[3] <= '5'
  }

  predicate IsSpace(c: char) { c == ' ' || '\t' <= c <= '\r' || c == '\U{00A0}' }

  /** How many parts split() at stretches of white space makes. */
  function PartCount(s: string): nat {
    if s == [] then 1
    else
      var n, last := PartCount(s[..|s| - 1]), |s| - 1;
      if IsSpace(s[last]) && (last == 0 || !IsSpace(s[last - 1])) then n + 1 else n
  }

  /** The checks of parseTimerInput on the fields of a schedule that do not look at the clock or the cron library. */
  predicate ValidFields(kind: ScheduleKind, f: Fields) {
    match kind
    case Once => f.runAt.Some? && f.runAt.value != ""
    case Hourly => f.minute.Some? && 0 <= f.minute.value <= 59
    case Interval => f.intervalMinutes.Some? && f.intervalMinutes.value >= 5
    case Cron => f.cronExpression.Some? && PartCount(f.cronExpression.value) == 5
    case Daily => f.time.Some? && ValidTime(f.time.value)
    case Weekly =>
      && f.time.Some? && ValidTime(f.time.value)
      && f.weekday.Some? && 0 <= f.weekday.value <= 6
  }

  function FutureDate(w: World, f: Fields, now: int): bool {
    f.runAt.Some? && w.date(f.runAt.value).Some? && w.date(f.runAt.value).value > now
  }

  predicate ValidInput(w: World, input: TimerInput, now: int) {
    && input.texts.name != "" && input.texts.prompt != ""
    && w.knowsZone(input.timezone)
    && ValidFields(input.kind, input.fields)
    && (input.kind.Once? ==> FutureDate(w, input.fields, now))
    && (input.kind.Cron? ==> CronAccepted(w, input.fields.cronExpression.value, input.timezone, now))
  }

  /** The k-th gap that assertCron looks at, from the occurrence at previous. */
  predicate GapsAreWide(w: World, expression: string, timezone: string, previous: int, count: nat)
    decreases count
  {
    var next := w.cron(expression, timezone, previous + 1);
    count == 0 || next.None?
    || (next.value - previous >= MINIMUM_FREQUENCY_MS && GapsAreWide(w, expression, timezone, next.value, count - 1))
  }

  predicate CronAccepted(w: World, expression: string, timezone: string, now: int) {
    var first := w.cron(expression, timezone, now);
    first.Some? && GapsAreWide(w, expression, timezone, first.value, 20)
  }

  /** The loop of assertCron. */
  method AssertCron(w: World, expression: string, timezone: string, now: int) returns (accepted: bool)
    ensures accepted <==> CronAccepted(w, expression, timezone, now)
  {
    var first := w.cron(expression, timezone, now);
    if first.None? { return false; }
    var previous := first.value;
    for index := 0 to 20
      invariant GapsAreWide(w, expression, timezone, first.value, 20)
        <==> GapsAreWide(w, expression, timezone, previous, 20 - index)
    {
      var next := w.cron(expression, timezone, previous + 1);
      if next.None? { return true; }
      if next.value - previous < MINIMUM_FREQUENCY_MS { return false; }
      previous := next.value;
    }
    return true;
  }

  /** The n-th occurrence after the first one. */
  function Occurrence(w: World, expression: string, timezone: string, first: int, n: nat): Option<int> {
    if n == 0 then Some(first)
    else
      var before := Occurrence(w, expression, timezone, first, n - 1);
      if before.None? then None else w.cron(expression, timezone, before.value + 1)
  }

  lemma {:induction false} OccurrenceShifts(w: World, expression: string, timezone: string, first: int, n: nat)
    requires w.cron(expression, timezone, first + 1).Some?
    ensures Occurrence(w, expression, timezone, w.cron(expression, timezone, first + 1).value, n)
      == Occurrence(w, expression, timezone, first, n + 1)
  {
    if n > 0 { OccurrenceShifts(w, expression, timezone, first, n - 1); }
    else { assert Occurrence(w, expression, timezone, first, 0) == Some(first); }
  }

  /** An expression is accepted only if its next twenty-one occurrences, as far as there are any, lie at least five
      minutes apart. */
  lemma {:induction false} WideGaps(w: World, expression: string, timezone: string, first: int, count: nat, n: nat)
    requires GapsAreWide(w, expression, timezone, first, count) && n < count
    ensures var i, j := Occurrence(w, expression, timezone, first, n), Occurrence(w, expression, timezone, first,
      n + 1);
      j.Some? ==> i.Some? && j.value - i.value >= MINIMUM_FREQUENCY_MS
    decreases n
  {
    var next := w.cron(expression, timezone, first + 1);
    if n == 0 {
      assert Occurrence(w, expression, timezone, first, 0) == Some(first);
    } else if next.Some? {
      WideGaps(w, expression, timezone, next.value, count - 1, n - 1);
      OccurrenceShifts(w, expression, timezone, first, n - 1);
      OccurrenceShifts(w, expression, timezone, first, n);
    } else {
      NoOccurrence(w, expression, timezone, first, n + 1);
    }
  }

  lemma {:induction false} NoOccurrence(w: World, expression: string, timezone: string, first: int, n: nat)
    requires w.cron(expression, timezone, first + 1).None? && n > 0
    ensures Occurrence(w, expression, timezone, first, n).None?
  {
    if n > 1 { NoOccurrence(w, expression, timezone, first, n - 1); }
    else { assert Occurrence(w, expression, timezone, first, 0) == Some(first); }
  }

  // ---- the evaluators

  function NumberText(s: string): string {
    var n := Number(s);
    if n.Some? then Decimal(n.value) else "NaN"
  }

  /** `${minute} ${hour} * * ${weekday}`, with what a template writes for a missing part. */
  function Pattern(kind: ScheduleKind, time: string, weekday: Option<int>): string {
    var n := UpTo(':', time);
    var hour := NumberText(time[..n]);
    var rest := if n < |time| then time[n + 1..] else "";
    var minute := if n < |time| then NumberText(rest[..UpTo(':', rest)]) else "undefined";
    minute + " " + hour + " * * " + (if kind.Daily? then "*" else IntText(weekday))
  }

  function IntText(n: Option<int>): string {
    if n.None? then "null" else if n.value >= 0 then Decimal(n.value) else "-" + Decimal(-n.value)
  }

  function CronNext(w: World, kind: ScheduleKind, time: string, weekday: Option<int>, timezone: string,
                    after: int): Option<int> {
    w.cron(Pattern(kind, time, weekday), timezone, after)
  }

  function CronHourlyNext(w: World, minute: Option<int>, timezone: string, after: int): Option<int> {
    w.cron(IntText(minute) + " * * * *", timezone, after)
  }

  /** On the input of the editor. */
  function NextRun(w: World, input: TimerInput, after: int): Option<int>
    requires ValidFields(input.kind, input.fields)
  {
    var f := input.fields;
    match input.kind
    case Once => w.date(f.runAt.value)
    case Hourly => CronHourlyNext(w, f.minute, input.timezone, after)
    case Interval => Some(after + f.intervalMinutes.value * MINUTE_MS)
    case Cron => w.cron(f.cronExpression.value, input.timezone, after)
    case _ => CronNext(w, input.kind, f.time.value, f.weekday, input.timezone, after)
  }

  /** On the stored row. An interval that is not a number makes an invalid date, which has no text. */
  function NextAfter(w: World, row: StoredSchedule, after: int): Option<int> {
    var f := DecodeSchedule(row);
    match row.kind
    case Once => None
    case Hourly => CronHourlyNext(w, f.minute, row.timezone, after)
    case Interval => if f.intervalMinutes.None? then None else Some(after + f.intervalMinutes.value * MINUTE_MS)
    case Cron => w.cron(row.value, row.timezone, after)
    case _ =>
      if f.time.None? || f.time.value == "" then None
      else CronNext(w, row.kind, f.time.value, f.weekday, row.timezone, after)
  }

  /** runtimeFrequencyIsValid: the check before a due timer may run. */
  predicate FrequencyIsValid(w: World, row: StoredSchedule, after: int) {
    match row.kind
    case Interval =>
      var n := Number(row.value);
      n.Some? && n.value >= 5
    case Cron =>
      var first := w.cron(row.value, row.timezone, after);
      && first.Some?
      && var second := w.cron(row.value, row.timezone, first.value + 1);
      second.Some? && second.value - first.value >= MINIMUM_FREQUENCY_MS
    case _ => true
  }

  /** The loop of previewRuns. */
  method PreviewRuns(w: World, input: TimerInput, after: int, count: nat) returns (runs: seq<int>)
    requires ValidFields(input.kind, input.fields)
    ensures runs == Preview(w, input, after, count)
  {
    hide NextRun, ValidFields;
    runs := [];
    var cursor := after;
    for index := 0 to count
      invariant Preview(w, input, after, count) == runs + Preview(w, input, cursor, count - index)
    {
      var run := NextRun(w, input, cursor);
      if run.None? { break; }
      PreviewUnfolds(w, input, cursor, count - index, runs);
      runs := runs + [run.value];
      if input.kind.Once? { break; }
      cursor := run.value;
    }
  }

  lemma PreviewUnfolds(w: World, input: TimerInput, after: int, count: nat, runs: seq<int>)
    requires ValidFields(input.kind, input.fields) && count > 0 && NextRun(w, input, after).Some?
    ensures var run := NextRun(w, input, after).value;
      runs + Preview(w, input, after, count)
        == (runs + [run]) + (if input.kind.Once? then [] else Preview(w, input, run, count - 1))
  {
    hide NextRun;
  }

  function Preview(w: World, input: TimerInput, after: int, count: nat): seq<int>
    requires ValidFields(input.kind, input.fields)
    decreases count
  {
    var run := NextRun(w, input, after);
    if count == 0 || run.None? then []
    else [run.value] + (if input.kind.Once? then [] else Preview(w, input, run.value, count - 1))
  }

  // ---- the stored schedule is the typed one

  /** The fields a kind uses, and no other. */
  function Used(kind: ScheduleKind, f: Fields): Fields {
    match kind
    case Once => NO_FIELDS.(runAt := f.runAt)
    case Hourly => NO_FIELDS.(minute := f.minute)
    case Interval => NO_FIELDS.(intervalMinutes := f.intervalMinutes)
    case Cron => NO_FIELDS.(cronExpression := f.cronExpression)
    case Daily => NO_FIELDS.(time := f.time)
    case Weekly => NO_FIELDS.(time := f.time, weekday := f.weekday)
  }

  /** A text of this form is read back, whatever the digits. */
  lemma WeeklyIsRead(time: string, digits: string)
    requires '"' !in time && Number(digits).Some?
    ensures DecodeWeekly(WEEKLY_HEAD + time + WEEKLY_MIDDLE + digits + WEEKLY_TAIL)
      == NO_FIELDS.(time := Some(time), weekday := Some(Number(digits).value))
  {
    hide Number, UpTo, StripPrefix;
    var tail := digits + WEEKLY_TAIL;
    var value := WEEKLY_HEAD + time + WEEKLY_MIDDLE + digits + WEEKLY_TAIL;
    assert value == WEEKLY_HEAD + (time + (WEEKLY_MIDDLE + tail));
    StripsPrefix(WEEKLY_HEAD, time + (WEEKLY_MIDDLE + tail));
    QuotedText(time, tail);
    StripsPrefix(WEEKLY_MIDDLE, tail);
    assert tail[..|tail| - 1] == digits && tail[|tail| - 1..] == WEEKLY_TAIL;
  }

  lemma QuotedText(time: string, tail: string)
    requires '"' !in time
    ensures var rest := time + (WEEKLY_MIDDLE + tail);
      UpTo('"', rest) == |time| && rest[..|time|] == time && rest[|time|..] == WEEKLY_MIDDLE + tail
  {
    hide UpTo;
    var m := WEEKLY_MIDDLE;
    assert m == ['"'] + m[1..];
    assert time + (m + tail) == time + ['"'] + (m[1..] + tail);
    UpToFinds('"', time, m[1..] + tail);
  }

  /** Decoding the stored text restores every field that the kind uses. */
  lemma DecodeRestores(input: TimerInput)
    requires ValidFields(input.kind, input.fields)
    ensures DecodeSchedule(Store(input)) == Used(input.kind, input.fields)
  {
    var f := input.fields;
    match input.kind
    case Hourly => NumberOfDecimal(f.minute.value);
    case Interval => NumberOfDecimal(f.intervalMinutes.value);
    case Weekly =>
      NumberOfDecimal(f.weekday.value);
      WeeklyIsRead(f.time.value, Decimal(f.weekday.value));
    case _ =>
  }

  /** The scheduler, which reads the row, and the editor's preview, which reads the input, agree on every run of a
      recurring timer. */
  lemma EvaluatorsAgree(w: World, input: TimerInput, after: int)
    requires ValidFields(input.kind, input.fields) && !input.kind.Once?
    ensures NextAfter(w, Store(input), after) == NextRun(w, input, after)
  {
    DecodeRestores(input);
    hide Decimal, Number, DecodeSchedule, EncodeSchedule, UpTo;
    if input.kind.Cron? {
      assert Store(input).value == input.fields.cronExpression.value by { StoresExpression(input); }
    } else if input.kind.Daily? {
      DailyIgnoresWeekday(input.fields.time.value, input.fields.weekday);
    }
  }

  lemma StoresExpression(input: TimerInput)
    requires input.kind.Cron? && ValidFields(input.kind, input.fields)
    ensures Store(input).value == input.fields.cronExpression.value
  {
  }

  lemma DailyIgnoresWeekday(time: string, weekday: Option<int>)
    ensures Pattern(Daily, time, weekday) == Pattern(Daily, time, None)
  {
  }

  /** A schedule that was stored, decoded into the editor and saved again is stored as the same text. */
  lemma SavingAgainKeepsTheText(input: TimerInput)
    requires ValidFields(input.kind, input.fields)
    ensures var again := input.(fields := DecodeSchedule(Store(input)));
      ValidFields(again.kind, again.fields) && Store(again) == Store(input)
  {
    DecodeRestores(input);
  }

  /** Repeated NextAfter on the row. */
  function StoredRuns(w: World, row: StoredSchedule, after: int, count: nat): seq<int>
    decreases count
  {
    var run := NextAfter(w, row, after);
    if count == 0 || run.None? then [] else [run.value] + StoredRuns(w, row, run.value, count - 1)
  }

  /** What the preview shows for a recurring timer is what the stored row does. */
  lemma {:induction false} PreviewIsWhatRuns(w: World, input: TimerInput, after: int, count: nat)
    requires ValidFields(input.kind, input.fields) && !input.kind.Once?
    ensures Preview(w, input, after, count) == StoredRuns(w, Store(input), after, count)
    decreases count
  {
    EvaluatorsAgree(w, input, after);
    hide NextRun, NextAfter, EncodeSchedule;
    if count > 0 && NextRun(w, input, after).Some? {
      PreviewIsWhatRuns(w, input, NextRun(w, input, after).value, count - 1);
    }
  }

  /** The runs of a preview lie in the future, each later than the one before, and each is the next run after it;
      there are fewer than asked for only if the schedule ends. */
  lemma {:induction false} PreviewIncreases(w: World, input: TimerInput, after: int, count: nat)
    requires StrictlyLater(w) && ValidInput(w, input, after)
    ensures var runs := Preview(w, input, after, count);
      && (forall i :: 0 <= i < |runs| ==> runs[i] > after)
      && (forall i, j :: 0 <= i < j < |runs| ==> runs[i] < runs[j])
      && (!input.kind.Once? ==> forall i :: 0 < i < |runs| ==> NextRun(w, input, runs[i - 1]) == Some(runs[i]))
      && (input.kind.Once? ==> |runs| == if count == 0 then 0 else 1)
      && (|runs| < count && !input.kind.Once? ==>
        NextRun(w, input, if runs == [] then after else runs[|runs| - 1]).None?)
    decreases count
  {
    if input.kind.Once? {
    } else {
      RecurringPreviewIncreases(w, input, after, count);
    }
  }

  lemma NextRunIsLater(w: World, input: TimerInput, after: int)
    requires StrictlyLater(w) && ValidFields(input.kind, input.fields) && !input.kind.Once?
    ensures NextRun(w, input, after).Some? ==> NextRun(w, input, after).value > after
  {
  }

  lemma {:induction false} RecurringPreviewIncreases(w: World, input: TimerInput, after: int, count: nat)
    requires StrictlyLater(w) && ValidFields(input.kind, input.fields) && !input.kind.Once?
    ensures var runs := Preview(w, input, after, count);
      && (forall i :: 0 <= i < |runs| ==> runs[i] > after)
      && (forall i, j :: 0 <= i < j < |runs| ==> runs[i] < runs[j])
      && (forall i :: 0 < i < |runs| ==> NextRun(w, input, runs[i - 1]) == Some(runs[i]))
      && (|runs| < count ==> NextRun(w, input, if runs == [] then after else runs[|runs| - 1]).None?)
    decreases count
  {
    NextRunIsLater(w, input, after);
    hide NextRun;
    var run := NextRun(w, input, after);
    if count > 0 && run.Some? {
      RecurringPreviewIncreases(w, input, run.value, count - 1);
      var rest := Preview(w, input, run.value, count - 1);
      assert Preview(w, input, after, count) == [run.value] + rest;
      if rest == [] && count > 1 {
        assert NextRun(w, input, run.value).None?;
      }
    }
  }

  /** What was stored from a valid input never runs at or before the time it is asked after, and only a cron
      expression can fail the check before a run. */
  lemma StoredAdvances(w: World, input: TimerInput, after: int)
    requires StrictlyLater(w) && ValidFields(input.kind, input.fields)
    ensures NextAfter(w, Store(input), after).Some? ==> NextAfter(w, Store(input), after).value > after
    ensures !input.kind.Cron? ==> FrequencyIsValid(w, Store(input), after)
  {
    if !input.kind.Once? {
      EvaluatorsAgree(w, input, after);
      NextRunIsLater(w, input, after);
    }
    if input.kind.Interval? { NumberOfDecimal(input.fields.intervalMinutes.value); }
    hide NextRun, Number, Decimal;
  }
}
