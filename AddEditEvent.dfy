/**
 * The value logic of the calendar's add/edit event dialog: normalising
 * what the opener passes, the start and end times saved for an event, the
 * encoding of repeat rules and its reading back, date exclusions of a
 * repeating series, and the monthly repeat options offered for a start
 * date. Database access and page output are not modelled.
 */
module AddEditEvent {
  import opened Wrappers
  import opened Text

  // ---------------------------------------------------------------------
  // What the opener passes
  // ---------------------------------------------------------------------

  /**
   * The date from the opener: a compact 'YYYYMMDD' gets dashes after the
   * year and the month; an empty date means today (the clock is a
   * parameter).
   */
  function OpenerDate(date: string, today: string): string
  {
    if PhpEmpty(date) then today
    else Take(date, 4) + "-" + Substr(date, 4, 2) + "-" + SubstrFrom(date, 6)
  }

  /** Dropping the two dashes of a dashed date gives back its three parts run together. */
  lemma RemoveDashes(a: string, b: string, c: string)
    requires '-' !in a && '-' !in b && '-' !in c
    ensures Remove(a + "-" + b + "-" + c, '-') == a + b + c
  {
    var dash := "-";
    assert Remove(dash, '-') == "" by {
      assert dash[0] == '-' && dash[1..] == "";
    }
    RemoveAbsent(a, '-');
    RemoveAbsent(b, '-');
    RemoveAbsent(c, '-');
    var x1 := a + dash;
    RemoveAppend(a, dash, '-');
    assert Remove(x1, '-') == a;
    var x2 := x1 + b;
    RemoveAppend(x1, b, '-');
    assert Remove(x2, '-') == a + b;
    var x3 := x2 + dash;
    RemoveAppend(x2, dash, '-');
    assert Remove(x3, '-') == a + b;
    RemoveAppend(x3, c, '-');
    assert a + "-" + b + "-" + c == x3 + c;
  }

  /** An eight-digit date becomes 'YYYY-MM-DD', and dropping the dashes gives it back. */
  lemma OpenerDateCompact(date: string, today: string)
    requires |date| == 8 && AllDigits(date)
    ensures OpenerDate(date, today) == date[..4] + "-" + date[4..6] + "-" + date[6..]
    ensures |OpenerDate(date, today)| == 10
    ensures Remove(OpenerDate(date, today), '-') == date
  {
    assert !PhpEmpty(date) by {
      assert date != "0";
    }
    assert Substr(date, 4, 2) == date[4..6];
    assert '-' !in date[..4] && '-' !in date[4..6] && '-' !in date[6..] by {
      assert forall i :: 0 <= i < 8 ==> IsDigit(date[i]);
    }
    RemoveDashes(date[..4], date[4..6], date[6..]);
    assert date[..4] + date[4..6] + date[6..] == date;
  }

  /** The start minute from the opener: the last two characters of "00" and the value, "00" when none is given. */
  function OpenerMinute(v: Option<string>): (r: string)
    ensures |r| == 2
  {
    if v.None? then "00" else LastChars("00" + v.value, 2)
  }

  /** A minute written without padding comes out as two digits with the same value. */
  lemma OpenerMinuteOfNumber(m: nat)
    requires m < 100
    ensures AllDigits(OpenerMinute(Some(NatToString(m))))
    ensures DigitsValue(OpenerMinute(Some(NatToString(m)))) == m
  {
    var s := NatToString(m);
    NatToStringLength(m, 2);
    DigitsValueOfNatToString(m);
    var r := OpenerMinute(Some(s));
    if |s| == 1 {
      assert r == "0" + s;
      assert Zeros(1) == "0";
      DigitsValueLeadingZeros(1, s);
    } else {
      assert r == s;
    }
  }

  // ---------------------------------------------------------------------
  // Hours and AM/PM
  // ---------------------------------------------------------------------

  /** A 12-hour clock hour and the AM ("1") / PM ("2") selector. */
  datatype Clock = Clock(hour: int, ampm: string)

  /** The 24-hour hour from a dialog hour: 12 is added only for PM before noon. */
  function SaveHour(hour: int, ampm: string): (h: int)
    ensures ampm != "2" || hour >= 12 ==> h == hour
    ensures ampm == "2" && hour < 12 ==> h == hour + 12
  {
    if ampm == "2" && hour < 12 then hour + 12 else hour
  }

  /** The dialog's display of a 24-hour hour: PM from noon on, and 12 taken off after noon. */
  function DisplayHour(h: int): (c: Clock)
    ensures c.ampm == "2" <==> h >= 12
    ensures c.ampm == "1" <==> h < 12
    ensures 0 <= h <= 23 ==> 0 <= c.hour <= 12
  {
    if h >= 12 then Clock(if h > 12 then h - 12 else h, "2") else Clock(h, "1")
  }

  /** Every hour of the day is shown so that saving it again gives the same hour. */
  lemma HourRoundTrip(h: int)
    requires 0 <= h <= 23
    ensures SaveHour(DisplayHour(h).hour, DisplayHour(h).ampm) == h
  {
  }

  /** A dialog hour from 1 to 12 PM, or 1 to 11 AM, is shown again as entered; 12 AM is kept as hour 12, which shows as noon. */
  lemma DialogRoundTrip(hour: int, ampm: string)
    requires 1 <= hour <= 12 && ampm in {"1", "2"}
    ensures hour < 12 || ampm == "2" ==> DisplayHour(SaveHour(hour, ampm)) == Clock(hour, ampm)
    ensures hour == 12 && ampm == "1" ==> DisplayHour(SaveHour(hour, ampm)) == Clock(12, "2")
  {
  }

  // ---------------------------------------------------------------------
  // Start and end times
  // ---------------------------------------------------------------------

  /** The end of an event: the minutes past 59 carried into the hour one hour at a time; the hour does not wrap. */
  method EndTime(h: int, m: int, duration: int) returns (eh: int, em: int)
    ensures 60 * eh + em == 60 * h + m + duration
    ensures em < 60 && eh >= h
    ensures m + duration >= 0 ==> 0 <= em
    ensures m + duration < 60 ==> eh == h && em == m + duration
  {
    eh, em := h, m + duration;
    while em >= 60
      invariant 60 * eh + em == 60 * h + m + duration
      invariant eh >= h
      invariant m + duration >= 0 ==> 0 <= em
      invariant m + duration < 60 ==> eh == h && em == m + duration
      decreases em
    {
      em := em - 60;
      eh := eh + 1;
    }
  }

  function Abs(x: int): nat { if x < 0 then -x else x }

  datatype EventTime = EventTime(startHour: int, startMinute: int, endHour: int, endMinute: int, duration: int)

  /**
   * The times saved for an event: an all-day event starts at 0:00 and
   * lasts 1440 minutes; otherwise the dialog's hour in 24-hour form, its
   * minute and the absolute value of its duration; the end follows.
   */
  method SaveTimes(allDay: bool, hour: int, minute: int, ampm: string, formDuration: int) returns (t: EventTime)
    ensures allDay ==> t == EventTime(0, 0, 24, 0, 1440)
    ensures !allDay ==> t.startHour == SaveHour(hour, ampm) && t.startMinute == minute && t.duration == Abs(formDuration)
    ensures 60 * t.endHour + t.endMinute == 60 * t.startHour + t.startMinute + t.duration
    ensures t.endMinute < 60 && (t.startMinute >= 0 ==> 0 <= t.endMinute)
  {
    var sh, sm, d;
    if allDay {
      sh, sm, d := 0, 0, 24 * 60;
    } else {
      sh, sm, d := SaveHour(hour, ampm), minute, Abs(formDuration);
    }
    var eh, em := EndTime(sh, sm, d);
    t := EventTime(sh, sm, eh, em, d);
  }

  // ---------------------------------------------------------------------
  // Repeat rules
  // ---------------------------------------------------------------------

  predicate Increasing(days: seq<nat>)
  {
    forall i, j :: 0 <= i < j < |days| ==> days[i] < days[j]
  }

  function DayStrings(days: seq<nat>): (r: seq<string>)
    ensures |r| == |days|
  {
    seq(|days|, i requires 0 <= i < |days| => NatToString(days[i]))
  }

  /** The days of a comma-separated day list, read back. */
  function ParseDays(freq: string): (r: seq<nat>)
  {
    var parts := Split(freq, ',');
    seq(|parts|, i requires 0 <= i < |parts| => if AllDigits(parts[i]) then DigitsValue(parts[i]) else 0)
  }

  /**
   * The "days every week" scan: days 1 to 7 in turn, each ticked one
   * added, and the list joined with commas.
   */
  method DaysEveryWeek(ticked: set<int>) returns (days: seq<nat>, freq: string)
    ensures Increasing(days)
    ensures forall i :: 0 <= i < |days| ==> 1 <= days[i] <= 7 && days[i] in ticked
    ensures forall d :: 1 <= d <= 7 && d in ticked ==> d in days
    ensures freq == Join(DayStrings(days), ",")
  {
    days := [];
    for d := 1 to 8
      invariant Increasing(days)
      invariant forall i :: 0 <= i < |days| ==> 1 <= days[i] < d && days[i] in ticked
      invariant forall e :: 1 <= e < d && e in ticked ==> e in days
    {
      if d in ticked {
        days := days + [d];
      }
    }
    freq := Join(DayStrings(days), ",");
  }

  /** The day list reads back as the days it was written from. */
  lemma DaysRoundTrip(days: seq<nat>)
    requires |days| >= 1
    ensures ParseDays(Join(DayStrings(days), ",")) == days
  {
    var parts := DayStrings(days);
    forall k | 0 <= k < |parts|
      ensures ',' !in parts[k]
    {
      assert AllDigits(parts[k]);
    }
    SplitJoin(parts, ',');
    assert Split(Join(parts, ","), ',') == parts;
    forall k | 0 <= k < |parts|
      ensures DigitsValue(parts[k]) == days[k]
    {
      DigitsValueOfNatToString(days[k]);
    }
  }

  /** The repeat frequency saved: a count, or the day list of a "days every week" rule. */
  datatype Freq = Every(n: int) | OnDays(days: string)

  /** The saved recurrence type and specification of an event. */
  datatype Recurrence = Recurrence(recurrtype: int, freq: Freq, repeatType: int, onNum: int, onDay: int, onFreq: int)

  /** Which week of its month a day falls in, 5 for "last" (the dialog's repeat types 5 and 6). */
  function WeekOfMonth(rtype: int, dayOfMonth: int): (n: int)
    requires 1 <= dayOfMonth <= 31
    ensures 1 <= n <= 5
    ensures rtype == 5 ==> (n < 5 <==> dayOfMonth <= 28)
  {
    if rtype == 5 then (dayOfMonth - 1) / 7 + 1 else 5
  }

  /**
   * The repeat rule saved: "days every week" gives recurrence type 3 with
   * the day list and repeat type 6; a repeat of type 5 or more gives
   * recurrence type 2 with the weekday, the frequency moved to `onFreq`
   * and the week of the month, and zeroed frequency and type; any other
   * repeat gives type 1, no repeat type 0. `dayOfMonth` and `weekday` are
   * those of the event date.
   */
  function EncodeRepeat(everyWeek: bool, days: string, repeat: bool, freq: int, rtype: int,
                        dayOfMonth: int, weekday: int): (r: Recurrence)
    requires 1 <= dayOfMonth <= 31
    ensures everyWeek ==> r == Recurrence(3, OnDays(days), 6, 1, 0, 0)
    ensures !everyWeek && repeat && rtype > 4 ==>
      r.recurrtype == 2 && r.freq == Every(0) && r.repeatType == 0 && r.onFreq == freq && r.onDay == weekday
    ensures !everyWeek && !(repeat && rtype > 4) ==>
      r.onNum == 1 && r.onDay == 0 && r.onFreq == 0 && r.freq == Every(freq) && r.repeatType == rtype &&
      r.recurrtype == (if repeat then 1 else 0)
  {
    if everyWeek then Recurrence(3, OnDays(days), 6, 1, 0, 0)
    else if repeat && rtype > 4 then Recurrence(2, Every(0), 0, WeekOfMonth(rtype, dayOfMonth), weekday, freq)
    else Recurrence(if repeat then 1 else 0, Every(freq), rtype, 1, 0, 0)
  }

  /** The repeat type and frequency the dialog shows for a saved event. */
  function DecodeRepeat(r: Recurrence): (Freq, int)
  {
    if r.recurrtype == 2 then (Every(r.onFreq), if r.onNum < 5 then 5 else 6)
    else (r.freq, r.repeatType)
  }

  /**
   * Saving and loading a repeat keeps its frequency and type: always for
   * types up to 4 and for type 6, and for type 5 when the day is in the
   * first four weeks of the month. A type 5 on the 29th or later, the
   * fifth such weekday and therefore also the last, loads as type 6.
   */
  lemma RepeatRoundTrip(freq: int, rtype: int, dayOfMonth: int, weekday: int)
    requires 1 <= dayOfMonth <= 31
    ensures rtype <= 4 || rtype == 6 || (rtype == 5 && dayOfMonth <= 28)
            ==> DecodeRepeat(EncodeRepeat(false, "", true, freq, rtype, dayOfMonth, weekday)) == (Every(freq), rtype)
    ensures rtype == 5 && dayOfMonth > 28
            ==> DecodeRepeat(EncodeRepeat(false, "", true, freq, rtype, dayOfMonth, weekday)) == (Every(freq), 6)
  {
  }

  // ---------------------------------------------------------------------
  // Monthly options for a start date
  // ---------------------------------------------------------------------

  /** The monthly repeat options offered: the nth weekday (as occurrence 0 to 3) and the last weekday. */
  datatype MonthlyOptions = MonthlyOptions(nth: Option<int>, last: bool)

  /** `dateChanged`: the nth-weekday option only in the first four weeks, "Last" only in the last seven days of the month. */
  function DateChanged(d: int, daysInMonth: int): (o: MonthlyOptions)
    ensures o.nth.Some? <==> (d - 1) / 7 < 4
    ensures o.nth.Some? ==> o.nth.value == (d - 1) / 7
    ensures o.last <==> daysInMonth - d < 7
  {
    var occur := (d - 1) / 7;
    MonthlyOptions(if occur < 4 then Some(occur) else None, daysInMonth - d < 7)
  }

  /** The repeat type selected after the options change: the same entry if it still exists, else entry 5. */
  function SelectedAfter(si: int, o: MonthlyOptions): (r: int)
    ensures 0 <= si < 5 ==> r == si
  {
    var count := 5 + (if o.nth.Some? then 1 else 0) + (if o.last then 1 else 0);
    if si < count then si else 5
  }

  /**
   * Every day of a month of 28 to 31 days is offered at least one monthly
   * option, and when the nth-weekday option is offered, saving it loads it
   * back as offered.
   */
  lemma DateChangedOffers(d: int, daysInMonth: int, freq: int, weekday: int)
    requires 1 <= d <= daysInMonth && 28 <= daysInMonth <= 31
    ensures DateChanged(d, daysInMonth).nth.Some? || DateChanged(d, daysInMonth).last
    ensures DateChanged(d, daysInMonth).nth.Some? ==>
      DecodeRepeat(EncodeRepeat(false, "", true, freq, 5, d, weekday)) == (Every(freq), 5)
  {
  }

  // ---------------------------------------------------------------------
  // Excluding one date of a series
  // ---------------------------------------------------------------------

  /** The exclusion list with one more date: a comma first only when the list is not empty. */
  function AppendExdate(exdate: string, date: string): string
  {
    AppendPart(exdate, ',', date)
  }

  /** The excluded dates before stay, in order, and the new one comes last. */
  lemma AppendExdateKeeps(exdate: string, date: string)
    requires ',' !in date
    ensures exdate != "" ==> Split(AppendExdate(exdate, date), ',') == Split(exdate, ',') + [date]
    ensures exdate == "" ==> Split(AppendExdate(exdate, date), ',') == [date]
  {
    SplitAppendPart(exdate, ',', date);
  }

  /**
   * "This occurrence only": the series' recurrence specification with the
   * selected date (as 'Ymd') added to `exdate`; a missing entry counts as
   * empty, and every other entry is kept.
   */
  function ExcludeDate(spec: map<string, string>, selected: string): (r: map<string, string>)
    ensures r.Keys == spec.Keys + {"exdate"}
    ensures forall k :: k in spec && k != "exdate" ==> r[k] == spec[k]
    ensures "exdate" !in spec ==> r["exdate"] == selected
  {
    var old_ := if "exdate" in spec then spec["exdate"] else "";
    spec["exdate" := AppendExdate(old_, selected)]
  }
}
