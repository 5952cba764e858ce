/**
 * The event form checks of the PostCalendar user module: the duration of
 * a free-form event, the all-day override, the 12- to 24-hour conversion,
 * the error list of a submitted event (title, repeat rules, end date,
 * category limits) and the date range of the search form. Form input,
 * templates and the database are not modelled; the events of a day come
 * from a function parameter.
 */
module Pnuser {
  import opened Wrappers
  import opened Text

  /** The AM and PM values of the form's selector. */
  const AmVal := 1
  const PmVal := 2

  /** The repeat modes of an event: plain repeat and "repeat on" (nth weekday). */
  const Repeat := 1
  const RepeatOn := 2

  // ---------------------------------------------------------------------
  // Duration and all-day events
  // ---------------------------------------------------------------------

  /** The duration of a free-form event in seconds. */
  function FormDuration(hours: int, minutes: int): int
  {
    60 * 60 * hours + 60 * minutes
  }

  /** A duration from hours and minutes splits back into the same hours and minutes. */
  lemma DurationSplit(hours: nat, minutes: nat)
    requires minutes < 60
    ensures FormDuration(hours, minutes) / 3600 == hours
    ensures FormDuration(hours, minutes) % 3600 / 60 == minutes
  {
    var d := FormDuration(hours, minutes);
    assert d == 3600 * hours + 60 * minutes;
    assert 0 <= 60 * minutes < 3600;
  }

  /** The start and duration fields of the form. */
  datatype StartFields = StartFields(hour: int, minute: int, ampm: int, durHours: int, durMinutes: int, duration: int)

  /** An all-day event starts at 12:00 AM and lasts 24 hours; other events keep their fields. */
  function ApplyAllDay(f: StartFields, allDay: bool): (r: StartFields)
    ensures !allDay ==> r == f
    ensures allDay ==> r.hour == 0 && r.minute == 0 && r.ampm == AmVal && r.duration == 86400
    ensures allDay || f.duration == FormDuration(f.durHours, f.durMinutes) ==>
      r.duration == FormDuration(r.durHours, r.durMinutes)
  {
    if allDay then StartFields(0, 0, AmVal, 24, 0, 60 * 60 * 24) else f
  }

  // ---------------------------------------------------------------------
  // 12- and 24-hour clocks
  // ---------------------------------------------------------------------

  /** The submit conversion: 12 AM becomes 0, a PM hour other than 12 gains 12; any selector other than AM counts as PM. */
  function To24Hour(h: int, ampm: int): (r: int)
    ensures 1 <= h <= 12 ==> 0 <= r <= 23
  {
    if ampm == AmVal then (if h == 12 then 0 else h)
    else if h != 12 then h + 12 else h
  }

  /** The clock hour and selector of a 24-hour hour. */
  function From24Hour(t: int): (int, int)
  {
    (if t % 12 == 0 then 12 else t % 12, if t < 12 then AmVal else PmVal)
  }

  /** Every clock hour with AM or PM converts to a different hour of the day, and converts back. */
  lemma To24HourRoundTrip(h: int, ampm: int)
    requires 1 <= h <= 12 && (ampm == AmVal || ampm == PmVal)
    ensures From24Hour(To24Hour(h, ampm)) == (h, ampm)
  {
  }

  /** Every hour of the day is the conversion of exactly one clock hour. */
  lemma From24HourRoundTrip(t: int)
    requires 0 <= t <= 23
    ensures 1 <= From24Hour(t).0 <= 12
    ensures To24Hour(From24Hour(t).0, From24Hour(t).1) == t
  {
  }

  // ---------------------------------------------------------------------
  // Category limits
  // ---------------------------------------------------------------------

  /** A category's limit on the number of events a day from a time of day on (times in minutes). */
  datatype Limit = Limit(catid: int, startTime: int, endTime: int, limit: int)

  /** The conversion inside the limit check: PM adds 12 unless 12, 12 AM becomes 0, anything else unchanged. */
  function LimitHour(h: int, ampm: int): (r: int)
    ensures ampm == AmVal || ampm == PmVal ==> r == To24Hour(h, ampm)
    ensures ampm != AmVal && ampm != PmVal ==> r == h
  {
    if ampm == PmVal && h != 12 then h + 12
    else if ampm == AmVal && h == 12 then h - 12
    else h
  }

  /**
   * The start time compared with a limit: the minutes of the day when the
   * hour and minute form a time; otherwise the time cannot be read and the
   * time of day of the epoch in the server's zone, `epochTime`, is used.
   */
  function ClockTime(h: int, m: int, epochTime: int): (t: int)
    ensures 0 <= h <= 23 && 0 <= m <= 59 ==> t == 60 * h + m && 0 <= t < 1440
  {
    if 0 <= h <= 23 && 0 <= m <= 59 then 60 * h + m else epochTime
  }

  predicate Reached(days: seq<nat>, limit: int)
  {
    exists i :: 0 <= i < |days| && days[i] >= limit
  }

  /**
   * The first limit of the event's category whose time span the event
   * starts in and which some day's events already reach.
   */
  function LimitReached(limits: seq<Limit>, category: int, t: int, eventsFor: Limit -> seq<nat>): (r: Option<Limit>)
    ensures r.Some? ==> r.value in limits && r.value.catid == category && t >= r.value.startTime
                        && Reached(eventsFor(r.value), r.value.limit)
    ensures r.None? <==> forall l :: l in limits && l.catid == category && t >= l.startTime
                                     ==> !Reached(eventsFor(l), l.limit)
    decreases |limits|
  {
    if |limits| == 0 then None
    else
      var l := limits[0];
      var rest := LimitReached(limits[1..], category, t, eventsFor);
      assert forall x :: x in limits <==> x == l || x in limits[1..];
      if l.catid == category && t >= l.startTime && Reached(eventsFor(l), l.limit) then Some(l)
      else rest
  }

  /** Whether some day of one limit reaches it. */
  method ScanDays(days: seq<nat>, limit: int) returns (hit: bool)
    ensures hit == Reached(days, limit)
  {
    hit := false;
    var i := 0;
    while i < |days| && !hit
      invariant 0 <= i <= |days|
      invariant hit == (exists j :: 0 <= j < i && days[j] >= limit)
    {
      hit := days[i] >= limit;
      i := i + 1;
    }
  }

  /**
   * The category limit check, converting the start hour once before the
   * scan; the events of each day of a limit's span come from `eventsFor`.
   */
  method CheckCategoryLimits(limits: seq<Limit>, category: int, hour: int, minute: int, ampm: int,
                             epochTime: int, eventsFor: Limit -> seq<nat>) returns (r: Option<Limit>)
    ensures r == LimitReached(limits, category, ClockTime(LimitHour(hour, ampm), minute, epochTime), eventsFor)
  {
    var t := ClockTime(LimitHour(hour, ampm), minute, epochTime);
    var i := 0;
    while i < |limits|
      invariant 0 <= i <= |limits|
      invariant LimitReached(limits, category, t, eventsFor) == LimitReached(limits[i..], category, t, eventsFor)
    {
      var l := limits[i];
      assert limits[i..][1..] == limits[i + 1..];
      if l.catid == category && t >= l.startTime {
        var hit := ScanDays(eventsFor(l), l.limit);
        if hit {
          return Some(l);
        }
      }
      i := i + 1;
    }
    return None;
  }

  /**
   * The check as written converts the hour again before every day it
   * scans: the hour a limit's scan leaves behind, and whether it found a
   * day at the limit.
   */
  function ScanDaysAsWritten(days: seq<nat>, h: int, m: int, ampm: int, epochTime: int, l: Limit): (r: (bool, int))
    ensures |days| == 0 ==> r == (false, h)
    decreases |days|
  {
    if |days| == 0 then (false, h)
    else
      var h1 := LimitHour(h, ampm);
      if ClockTime(h1, m, epochTime) >= l.startTime && days[0] >= l.limit then (true, h1)
      else ScanDaysAsWritten(days[1..], h1, m, ampm, epochTime, l)
  }

  /** The limit check as written, the converted hour carried from day to day and limit to limit. */
  function LimitsAsWritten(limits: seq<Limit>, category: int, h: int, m: int, ampm: int, epochTime: int,
                           eventsFor: Limit -> seq<nat>): (r: Option<Limit>)
    ensures r.Some? ==> r.value in limits && r.value.catid == category
    decreases |limits|
  {
    if |limits| == 0 then None
    else if limits[0].catid == category then
      var (hit, h1) := ScanDaysAsWritten(eventsFor(limits[0]), h, m, ampm, epochTime, limits[0]);
      if hit then Some(limits[0]) else LimitsAsWritten(limits[1..], category, h1, m, ampm, epochTime, eventsFor)
    else LimitsAsWritten(limits[1..], category, h, m, ampm, epochTime, eventsFor)
  }

  /**
   * An event at 3:00 PM in a category with two limits, the first not
   * reached and the second from 10:00 and reached: the second limit is
   * compared with hour 27, which is no time of day, so on a server whose
   * epoch falls at midnight the limit goes unreported; converting once
   * reports it.
   */
  lemma LimitsAsWrittenMissesSecondLimit()
    ensures var first := Limit(5, 0, 1439, 3);
            var second := Limit(5, 600, 1439, 1);
            var eventsFor := (l: Limit) => [1];
            LimitsAsWritten([first, second], 5, 3, 0, PmVal, 0, eventsFor) == None
            && LimitReached([first, second], 5, ClockTime(LimitHour(3, PmVal), 0, 0), eventsFor) == Some(second)
  {
    var first := Limit(5, 0, 1439, 3);
    var second := Limit(5, 600, 1439, 1);
    var eventsFor := (l: Limit) => [1];
    assert ScanDaysAsWritten([1], 3, 0, PmVal, 0, first) == (false, 15) by {
      assert ScanDaysAsWritten([1][1..], 15, 0, PmVal, 0, first) == (false, 15);
    }
    assert ScanDaysAsWritten([1], 15, 0, PmVal, 0, second) == (false, 27) by {
      assert ScanDaysAsWritten([1][1..], 27, 0, PmVal, 0, second) == (false, 27);
    }
    assert [first, second][1..] == [second];
    assert [second][1..] == [];
    assert Reached(eventsFor(second), 1) by {
      assert eventsFor(second)[0] == 1;
    }
  }

  // ---------------------------------------------------------------------
  // The error list of a submitted event
  // ---------------------------------------------------------------------

  datatype SubmitError =
    | MissingTitle
    | NoEndDate
    | FrequencyTooLow
    | FrequencyNotNumeric
    | EndBeforeStart
    | LimitExceeded(limit: Limit)

  /** The characters a regular expression's `\S` does not match. */
  predicate IsSpace(c: char)
  {
    c == ' ' || c == '\t' || c == '\n' || c == '\r' || c == '\U{B}' || c == '\U{C}'
  }

  /** A title is missing when it is empty in PHP's sense or has no non-space character. */
  predicate TitleMissing(title: string)
  {
    PhpEmpty(title) || forall i :: 0 <= i < |title| ==> IsSpace(title[i])
  }

  /** PHP's numeric reading of a form string in a comparison: the value of its leading digits, 0 when there are none. */
  function LeadingValue(s: string): nat
  {
    DigitsValue(s[..DigitRun(s)])
  }

  /** A numeric form string: one or more decimal digits. */
  predicate IsNumeric(s: string)
  {
    |s| > 0 && AllDigits(s)
  }

  /** The frequency check: missing, below 1 or empty is one error; otherwise not numeric is another. */
  function FrequencyError(freq: Option<string>): Option<SubmitError>
  {
    if freq.None? || LeadingValue(freq.value) < 1 || PhpEmpty(freq.value) then Some(FrequencyTooLow)
    else if !IsNumeric(freq.value) then Some(FrequencyNotNumeric)
    else None
  }

  /** A frequency passes exactly when it is a digit string of value at least 1. */
  lemma FrequencyAccepted(freq: Option<string>)
    ensures FrequencyError(freq).None? <==> freq.Some? && IsNumeric(freq.value) && DigitsValue(freq.value) >= 1
  {
    if freq.Some? && IsNumeric(freq.value) {
      var s := freq.value;
      DigitRunPrefix(s);
      assert s[..DigitRun(s)] == s;
      assert s == "0" ==> DigitsValue(s) == 0 by {
        assert s == "0" ==> s[..0] == "" && DigitsValue(s) == DigitsValue(s[..0]) * 10 + 0;
      }
    }
  }

  function OptionList(e: Option<SubmitError>): (r: seq<SubmitError>)
    ensures e.Some? ==> r == [e.value]
    ensures e.None? <==> r == []
  {
    if e.Some? then [e.value] else []
  }

  /** The repeat checks: a repeating event needs an end date and a valid frequency of its mode. */
  function RepeatErrors(mode: int, endType: int, freq: Option<string>, onFreq: Option<string>): (r: seq<SubmitError>)
  {
    if mode != Repeat && mode != RepeatOn then []
    else
      (if endType == 0 then [NoEndDate] else [])
      + OptionList(FrequencyError(if mode == Repeat then freq else onFreq))
  }

  /** The form as submitted, with the start and end dates as day numbers. */
  datatype EventForm = EventForm(title: string, mode: int, endType: int, freq: Option<string>, onFreq: Option<string>,
                                 startDate: int, endDate: int)

  /** The errors of a submission, in the order they are reported; `limit` is the category limit check's result. */
  function SubmitErrors(f: EventForm, limit: Option<Limit>): (r: seq<SubmitError>)
  {
    (if TitleMissing(f.title) then [MissingTitle] else [])
    + RepeatErrors(f.mode, f.endType, f.freq, f.onFreq)
    + (if f.endDate < f.startDate && f.endType == 1 then [EndBeforeStart] else [])
    + (if limit.Some? then [LimitExceeded(limit.value)] else [])
  }

  /**
   * A submission is accepted exactly when it has a title, a repeating
   * event has an end date and a numeric frequency of at least 1, a dated
   * end is not before the start, and no category limit is reached.
   */
  lemma SubmitAccepted(f: EventForm, limit: Option<Limit>)
    ensures SubmitErrors(f, limit) == [] <==>
      !TitleMissing(f.title)
      && (f.mode == Repeat || f.mode == RepeatOn ==>
            f.endType != 0
            && var v := if f.mode == Repeat then f.freq else f.onFreq;
               v.Some? && IsNumeric(v.value) && DigitsValue(v.value) >= 1)
      && !(f.endDate < f.startDate && f.endType == 1)
      && limit.None?
  {
    FrequencyAccepted(if f.mode == Repeat then f.freq else f.onFreq);
  }

  /** A repeating event without an end date is reported, and so is a dated end before the start. */
  lemma SubmitReportsDates(f: EventForm, limit: Option<Limit>)
    ensures (f.mode == Repeat || f.mode == RepeatOn) && f.endType == 0 ==> NoEndDate in SubmitErrors(f, limit)
    ensures f.endDate < f.startDate && f.endType == 1 <==> EndBeforeStart in SubmitErrors(f, limit)
  {
    var r := RepeatErrors(f.mode, f.endType, f.freq, f.onFreq);
    assert EndBeforeStart !in r;
    assert EndBeforeStart !in (if TitleMissing(f.title) then [MissingTitle] else []);
    assert EndBeforeStart !in (if limit.Some? then [LimitExceeded(limit.value)] else []);
  }

  // ---------------------------------------------------------------------
  // The search form's date range
  // ---------------------------------------------------------------------

  datatype Date = Date(year: int, month: int, day: int)

  predicate Before(a: Date, b: Date)
  {
    a.year < b.year || (a.year == b.year && (a.month < b.month || (a.month == b.month && a.day < b.day)))
  }

  /** As written: the end day, month and year are each raised to at least the start's. */
  function SearchEndAsWritten(start: Date, end: Date): (r: Date)
    ensures r.year >= start.year && r.month >= start.month && r.day >= start.day
    ensures !Before(r, start)
  {
    Date(if start.year > end.year then start.year else end.year,
         if start.month > end.month then start.month else end.month,
         if start.day > end.day then start.day else end.day)
  }

  /** A search from 20 May to 10 June is turned into one from 20 May to 20 June. */
  lemma SearchEndAsWrittenMovesLaterEnd()
    ensures !Before(Date(2020, 6, 10), Date(2020, 5, 20))
    ensures SearchEndAsWritten(Date(2020, 5, 20), Date(2020, 6, 10)) == Date(2020, 6, 20)
  {
  }

  /** The end of the search range: the start when the end is before it, otherwise the end as entered. */
  function SearchEnd(start: Date, end: Date): (r: Date)
    ensures !Before(r, start)
    ensures !Before(end, start) ==> r == end
    ensures Before(end, start) ==> r == start
  {
    if Before(end, start) then start else end
  }
}
