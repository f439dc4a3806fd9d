/** Schedules as texts and numbers: what is accepted, what is stored, and which pattern the cron library is
    asked for. */
module ScheduleTexts {
  import opened Records
  import opened Schedules

  const DIGITS := "0123456789"

  /** 7 is "7", 12 is "12". */
  function Plain(n: nat): string
    requires n < 100
  {
    if n < 10 then [DIGITS[n]] else [DIGITS[n / 10], DIGITS[n % 10]]
  }

  /** 7 is "07". */
  function TwoDigits(n: nat): string
    requires n < 100
  {
    [DIGITS[n / 10], DIGITS[n % 10]]
  }

  /** hh:mm */
  function Clock(hour: nat, minute: nat): string
    requires hour < 24 && minute < 60
  {
    TwoDigits(hour) + ":" + TwoDigits(minute)
  }

  lemma DigitsInWords(d: nat)
    requires d < 10
    ensures Digit(d) == DIGITS[d]
    ensures IsDigit(DIGITS[d]) && (DIGITS[d] - '0') as nat == d
  {
  }

  lemma DecimalInWords(n: nat)
    requires n < 100
    ensures Decimal(n) == Plain(n)
  {
    if n < 10 {
      DigitsInWords(n);
    } else {
      DigitsInWords(n / 10);
      DigitsInWords(n % 10);
      assert Decimal(n / 10) == [Digit(n / 10)];
    }
  }

  lemma NumberInWords(n: nat)
    requires n < 100
    ensures Number(TwoDigits(n)) == Some(n)
  {
    DigitsInWords(n / 10);
    DigitsInWords(n % 10);
    var s := TwoDigits(n);
    assert s[..1] == [DIGITS[n / 10]];
    assert Number(s[..1]) == Some(n / 10);
  }

  // ---- what is accepted

  /** The two digits of a text at a position. */
  function At(t: string, k: nat): nat
    requires k + 1 < |t| && IsDigit(t[k]) && IsDigit(t[k + 1])
  {
    10 * ((t[k] - '0') as nat) + ((t[k + 1] - '0') as nat)
  }

  /** A time is accepted exactly if it is the hour and the minute of a day. */
  lemma TimesInWords(t: string)
    ensures ValidTime(t) <==> exists hour: nat, minute: nat :: hour < 24 && minute < 60 && t == Clock(hour, minute)
  {
    if ValidTime(t) {
      ValidIsAClock(t);
    }
    forall hour: nat, minute: nat | hour < 24 && minute < 60 && t == Clock(hour, minute) ensures ValidTime(t) {
      ClocksAreValid(hour, minute);
    }
  }

  lemma ValidIsInRange(t: string)
    requires ValidTime(t)
    ensures At(t, 0) < 24 && At(t, 3) < 60
  {
  }

  lemma ValidIsAClock(t: string)
    requires ValidTime(t)
    ensures At(t, 0) < 24 && At(t, 3) < 60 && t == Clock(At(t, 0), At(t, 3))
  {
    ValidIsInRange(t);
    TwoDigitsBack(t, 0);
    TwoDigitsBack(t, 3);
    hide At, TwoDigits;
    FromItsParts(t, At(t, 0), At(t, 3));
  }

  lemma FromItsParts(t: string, hour: nat, minute: nat)
    requires hour < 24 && minute < 60 && |t| == 5 && t[2] == ':'
    requires TwoDigits(hour) == [t[0], t[1]] && TwoDigits(minute) == [t[3], t[4]]
    ensures t == Clock(hour, minute)
  {
    hide TwoDigits;
    assert t == [t[0], t[1]] + ":" + [t[3], t[4]];
  }

  lemma TwoDigitsBack(t: string, k: nat)
    requires k + 1 < |t| && IsDigit(t[k]) && IsDigit(t[k + 1])
    ensures At(t, k) < 100 && TwoDigits(At(t, k)) == [t[k], t[k + 1]]
  {
    DigitBack(t[k]);
    DigitBack(t[k + 1]);
    var i, j := (t[k] - '0') as nat, (t[k + 1] - '0') as nat;
    assert (10 * i + j) / 10 == i && (10 * i + j) % 10 == j;
  }

  lemma DigitBack(c: char)
    requires IsDigit(c)
    ensures (c - '0') as nat < 10 && DIGITS[(c - '0') as nat] == c
  {
  }

  lemma ClocksAreValid(hour: nat, minute: nat)
    requires hour < 24 && minute < 60
    ensures ValidTime(Clock(hour, minute))
  {
    DigitsInWords(hour / 10);
    DigitsInWords(hour % 10);
    DigitsInWords(minute / 10);
    DigitsInWords(minute % 10);
    var t := Clock(hour, minute);
    assert t[0] == DIGITS[hour / 10] && t[1] == DIGITS[hour % 10] && t[2] == ':';
    assert t[3] == DIGITS[minute / 10] && t[4] == DIGITS[minute % 10];
  }

  /** Space, tab, line feed, vertical tab, form feed, carriage return, no-break space. */
  const WHITE := {' ', '\t', '\n', '\U{000B}', '\U{000C}', '\r', '\U{00A0}'}

  predicate BeginsWhite(s: string, k: int)
    requires 0 <= k < |s|
  {
    s[k] in WHITE && (k == 0 || s[k - 1] !in WHITE)
  }

  /** Where a stretch of white space begins. */
  function Breaks(s: string): set<int> {
    set k | 0 <= k < |s| && BeginsWhite(s, k)
  }

  lemma SpacesInWords(c: char)
    ensures IsSpace(c) <==> c in WHITE
  {
  }

  lemma {:induction false} PartsInWords(s: string)
    ensures PartCount(s) == |Breaks(s)| + 1
  {
    if s != [] {
      var before, n := s[..|s| - 1], |s| - 1;
      PartsInWords(before);
      SpacesInWords(s[n]);
      if n > 0 { SpacesInWords(s[n - 1]); }
      OneMoreBreak(s);
      hide BeginsWhite, Breaks;
    }
  }

  lemma OneMoreBreak(s: string)
    requires s != []
    ensures var before, n := s[..|s| - 1], |s| - 1;
      |Breaks(s)| == |Breaks(before)| + (if BeginsWhite(s, n) then 1 else 0)
  {
    var before, n := s[..|s| - 1], |s| - 1;
    forall k | 0 <= k < n ensures BeginsWhite(before, k) == BeginsWhite(s, k) {
      assert before[k] == s[k];
      if k > 0 { assert before[k - 1] == s[k - 1]; }
    }
    hide BeginsWhite;
    assert Breaks(s) == Breaks(before) + (if BeginsWhite(s, n) then {n} else {});
  }

  /** The n-th gap between occurrences, if there is one, is at least five minutes. */
  ghost predicate GapIsWide(w: World, expression: string, timezone: string, first: int, n: nat) {
    var i, j := Occurrence(w, expression, timezone, first, n), Occurrence(w, expression, timezone, first, n + 1);
    j != None ==> i != None && j.value - i.value >= 300_000
  }

  lemma {:induction false} GapsInWords(w: World, expression: string, timezone: string, first: int, count: nat)
    ensures GapsAreWide(w, expression, timezone, first, count)
      <==> forall n: nat :: n < count ==> GapIsWide(w, expression, timezone, first, n)
    decreases count
  {
    var next := w.cron(expression, timezone, first + 1);
    if GapsAreWide(w, expression, timezone, first, count) {
      forall n: nat | n < count ensures GapIsWide(w, expression, timezone, first, n) {
        WideGaps(w, expression, timezone, first, count, n);
      }
    } else {
      assert Occurrence(w, expression, timezone, first, 0) == Some(first);
      assert Occurrence(w, expression, timezone, first, 1) == next;
      if next.value - first < 300_000 {
        assert !GapIsWide(w, expression, timezone, first, 0);
      } else {
        GapsInWords(w, expression, timezone, next.value, count - 1);
        var n: nat :| n < count - 1 && !GapIsWide(w, expression, timezone, next.value, n);
        OccurrenceShifts(w, expression, timezone, first, n);
        OccurrenceShifts(w, expression, timezone, first, n + 1);
        assert !GapIsWide(w, expression, timezone, first, n + 1);
      }
    }
  }

  /** What parseTimerInput accepts, kind by kind. */
  lemma AcceptedInWords(w: World, input: TimerInput, now: int)
    ensures ValidInput(w, input, now) <==>
      && input.texts.name != "" && input.texts.prompt != "" && w.knowsZone(input.timezone)
      && var f := input.fields;
      match input.kind
      case Once =>
        && f.runAt != None && f.runAt.value != ""
        && w.date(f.runAt.value) != None && w.date(f.runAt.value).value > now
      case Hourly => f.minute != None && 0 <= f.minute.value < 60
      case Interval => f.intervalMinutes != None && f.intervalMinutes.value >= 5
      case Daily => f.time != None && ValidTime(f.time.value)
      case Weekly => f.time != None && ValidTime(f.time.value) && f.weekday != None && 0 <= f.weekday.value < 7
      case Cron =>
        && f.cronExpression != None && |Breaks(f.cronExpression.value)| == 4
        && var first := w.cron(f.cronExpression.value, input.timezone, now);
        first != None
        && forall n: nat :: n < 20 ==> GapIsWide(w, f.cronExpression.value, input.timezone, first.value, n)
  {
    if input.kind.Cron? && input.fields.cronExpression.Some? {
      var expression := input.fields.cronExpression.value;
      PartsInWords(expression);
      var first := w.cron(expression, input.timezone, now);
      if first.Some? { GapsInWords(w, expression, input.timezone, first.value, 20); }
    }
    hide ValidTime, PartCount, Breaks, GapIsWide, GapsAreWide;
  }

  // ---- what is stored, and what the cron library is asked for

  /** The stored text of each kind. */
  lemma StoredInWords(input: TimerInput)
    requires ValidFields(input.kind, input.fields)
    ensures var f := input.fields;
      var value := Store(input).value;
      && Store(input).kind == input.kind && Store(input).timezone == input.timezone
      && (input.kind == Once ==> value == f.runAt.value)
      && (input.kind == Daily ==> value == f.time.value)
      && (input.kind == Cron ==> value == f.cronExpression.value)
      && (input.kind == Hourly ==> value == Plain(f.minute.value))
      && (input.kind == Interval ==> Number(value) == Some(f.intervalMinutes.value as nat))
      && (input.kind == Weekly ==>
        value == "{\"time\":\"" + f.time.value + "\",\"weekday\":" + Plain(f.weekday.value) + "}")
  {
    var f := input.fields;
    match input.kind
    case Hourly => DecimalInWords(f.minute.value);
    case Interval => NumberOfDecimal(f.intervalMinutes.value);
    case Weekly => DecimalInWords(f.weekday.value);
    case _ =>
  }

  /** The text of a weekly schedule, with a time in which there is no quote. */
  predicate IsWeekly(value: string, time: string, digits: string) {
    && '"' !in time && Number(digits).Some?
    && value == "{\"time\":\"" + time + "\",\"weekday\":" + digits + "}"
  }

  /** Of the stored texts of a weekly schedule exactly those of this form are read back, every other one as nothing. */
  lemma ReadBackExactly(value: string)
    ensures DecodeWeekly(value) == NO_FIELDS || exists time, digits :: IsWeekly(value, time, digits)
    ensures forall time, digits :: IsWeekly(value, time, digits) ==>
      DecodeWeekly(value) == Fields(None, Some(time), Some(Number(digits).value), None, None, None)
  {
    if DecodeWeekly(value) != NO_FIELDS {
      OnlyTheFormIsRead(value);
    }
    forall time, digits | IsWeekly(value, time, digits)
      ensures DecodeWeekly(value) == Fields(None, Some(time), Some(Number(digits).value), None, None, None)
    {
      WeeklyIsRead(time, digits);
    }
    hide DecodeWeekly, Number;
  }

  lemma OnlyTheFormIsRead(value: string)
    requires DecodeWeekly(value) != NO_FIELDS
    ensures exists time, digits :: IsWeekly(value, time, digits)
  {
    hide Number, StripPrefix, UpTo;
    var rest := StripPrefix(WEEKLY_HEAD, value).value;
    var n := UpTo('"', rest);
    var rest2 := StripPrefix(WEEKLY_MIDDLE, rest[n..]).value;
    var digits := rest2[..|rest2| - 1];
    PrefixAndRest(WEEKLY_HEAD, value);
    PrefixAndRest(WEEKLY_MIDDLE, rest[n..]);
    assert rest2 == digits + WEEKLY_TAIL && rest == rest[..n] + rest[n..];
    assert value == WEEKLY_HEAD + rest[..n] + WEEKLY_MIDDLE + digits + WEEKLY_TAIL;
    assert IsWeekly(value, rest[..n], digits);
  }

  lemma PrefixAndRest(p: string, s: string)
    requires StripPrefix(p, s).Some?
    ensures s == p + StripPrefix(p, s).value
  {
  }

  /** A time without a colon has no minute. */
  lemma NoMinute(time: string, weekday: Option<int>)
    requires ':' !in time
    ensures Pattern(Daily, time, weekday) == "undefined " + NumberText(time) + " * * *"
  {
    assert time[..UpTo(':', time)] == time;
    hide NumberText;
  }

  lemma PatternInWords(hour: nat, minute: nat, weekday: nat)
    requires hour < 24 && minute < 60 && weekday < 7
    ensures Pattern(Daily, Clock(hour, minute), Some(weekday)) == Plain(minute) + " " + Plain(hour) + " * * *"
    ensures Pattern(Weekly, Clock(hour, minute), Some(weekday))
      == Plain(minute) + " " + Plain(hour) + " * * " + Plain(weekday)
  {
    var t := Clock(hour, minute);
    NumberInWords(hour);
    NumberInWords(minute);
    DecimalInWords(hour);
    DecimalInWords(minute);
    DecimalInWords(weekday);
    ColonsInWords(hour, minute);
    hide Number, Decimal, UpTo, TwoDigits, Plain;
    assert NumberText(TwoDigits(hour)) == Plain(hour) && NumberText(TwoDigits(minute)) == Plain(minute);
  }

  lemma ColonsInWords(hour: nat, minute: nat)
    requires hour < 24 && minute < 60
    ensures var t := Clock(hour, minute);
      && UpTo(':', t) == 2 && t[..2] == TwoDigits(hour) && t[3..] == TwoDigits(minute)
      && UpTo(':', t[3..]) == 2 && t[3..][..2] == TwoDigits(minute)
  {
    var t := Clock(hour, minute);
    var h, m := TwoDigits(hour), TwoDigits(minute);
    assert ':' !in h && ':' !in m by { NoColons(hour); NoColons(minute); }
    assert t == h + [':'] + m;
    UpToFinds(':', h, m);
    assert t[3..] == m && m[..2] == m;
    assert forall k :: 0 <= k < 2 ==> m[k] != ':';
    assert UpTo(':', m) == 2;
  }

  lemma NoColons(n: nat)
    requires n < 100
    ensures ':' !in TwoDigits(n)
  {
    DigitsInWords(n / 10);
    DigitsInWords(n % 10);
  }

  /** The next run of an input after an instant: a single run is at its date, an interval counts in minutes, and the
      others ask for a pattern of minute, hour and weekday, in this order, in the timezone of the timer. */
  lemma NextRunInWords(w: World, input: TimerInput, after: int)
    requires ValidFields(input.kind, input.fields)
    ensures var f := input.fields;
      var next := NextRun(w, input, after);
      && (input.kind == Once ==> next == w.date(f.runAt.value))
      && (input.kind == Interval ==> next == Some(after + f.intervalMinutes.value * 60 * 1_000))
      && (input.kind == Hourly ==> next == w.cron(Plain(f.minute.value) + " * * * *", input.timezone, after))
      && (input.kind == Cron ==> next == w.cron(f.cronExpression.value, input.timezone, after))
  {
    if input.kind.Hourly? { DecimalInWords(input.fields.minute.value); }
    hide Pattern, Plain, ValidTime, Decimal;
  }

  /** The next run of a daily or weekly timer at hh:mm. */
  lemma NextRunAtATime(w: World, input: TimerInput, after: int, hour: nat, minute: nat)
    requires ValidFields(input.kind, input.fields) && hour < 24 && minute < 60
    requires input.fields.time == Some(Clock(hour, minute))
    ensures var daily := Plain(minute) + " " + Plain(hour) + " * * ";
      && (input.kind == Daily ==> NextRun(w, input, after) == w.cron(daily + "*", input.timezone, after))
      && (input.kind == Weekly ==>
        NextRun(w, input, after) == w.cron(daily + Plain(input.fields.weekday.value), input.timezone, after))
  {
    var daily := Plain(minute) + " " + Plain(hour) + " * * ";
    if input.kind == Weekly {
      PatternInWords(hour, minute, input.fields.weekday.value);
    } else {
      PatternInWords(hour, minute, 0);
      DailyIgnoresWeekday(Clock(hour, minute), input.fields.weekday);
      DailyIgnoresWeekday(Clock(hour, minute), Some(0));
      assert daily + "*" == Plain(minute) + " " + Plain(hour) + " * * *";
    }
    hide Pattern, Clock, Plain, ValidTime, Decimal;
  }
}
