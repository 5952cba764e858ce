/**
 * The patient summary page: the money format of the balance line and
 * the window of upcoming appointments, with the 12-hour clock used to
 * show their start times. The database query is a parameter: the
 * appointments it returned, in date order.
 */
module Demographics {
  import opened Wrappers
  import opened Text

  // ---------------------------------------------------------------------
  // print_as_money
  // ---------------------------------------------------------------------

  /** PHP `wordwrap(s, 3, ",", true)` on a string without spaces: a comma after every three characters, none at the end. */
  function Wrap3(s: string): (r: string)
    ensures |s| > 0 ==> |r| > 0 && r[|r| - 1] == s[|s| - 1]
  {
    if |s| <= 3 then s else s[..3] + "," + Wrap3(s[3..])
  }

  /** Digits grouped in threes from the right, the groups separated by commas. */
  function Group3(d: string): (r: string)
    ensures |r| >= |d|
  {
    if |d| <= 3 then d else Group3(d[..|d| - 3]) + "," + d[|d| - 3..]
  }

  /** Wrapping the reversed digits and reversing back is grouping from the right. */
  lemma {:induction false} Wrap3Reverse(d: string)
    ensures Reverse(Wrap3(Reverse(d))) == Group3(d)
  {
    if |d| > 3 {
      var hi := d[..|d| - 3];
      var lo := d[|d| - 3..];
      assert d == hi + lo;
      ReverseAppend(hi, lo);
      var rd := Reverse(d);
      assert rd[..3] == Reverse(lo);
      assert rd[3..] == Reverse(hi);
      var w := Wrap3(Reverse(hi));
      assert Wrap3(rd) == Reverse(lo) + "," + w;
      Wrap3Reverse(hi);
      ReverseAppend(Reverse(lo) + ",", w);
      ReverseAppend(Reverse(lo), ",");
      ReverseReverse(lo);
      assert Reverse(",") == ",";
      assert Reverse(Wrap3(rd)) == Reverse(w) + ("," + lo);
    }
  }

  /** The dollars and the cents of `money`: the digit run at its start and, after a point, the digit run that follows. */
  function MoneyParts(money: string): (parts: (string, string))
    ensures AllDigits(parts.0) && AllDigits(parts.1)
  {
    var n := DigitRun(money);
    var rest := money[n..];
    var cents := if |rest| > 0 && rest[0] == '.' then rest[1..][..DigitRun(rest[1..])] else "";
    (money[..n], cents)
  }

  /** `print_as_money`: "$ ", the dollars grouped in threes, and the cents after a point when there are any. */
  function PrintAsMoney(money: string): string
  {
    var (dollars, cents) := MoneyParts(money);
    var tmp := Wrap3(Reverse(dollars));
    var check := Reverse(tmp);
    var tmp' := if |check| > 0 && check[0] == ',' then check[1..] else tmp;
    "$ " + Reverse(tmp') + (if cents != "" then "." + cents else "")
  }

  /** The leading-comma repair never applies: the result is the dollars grouped from the right. */
  lemma PrintAsMoneyGroups(money: string)
    ensures PrintAsMoney(money) == "$ " + Group3(MoneyParts(money).0)
                                   + (if MoneyParts(money).1 != "" then "." + MoneyParts(money).1 else "")
  {
    var dollars := MoneyParts(money).0;
    var tmp := Wrap3(Reverse(dollars));
    Wrap3Reverse(dollars);
    if |dollars| > 0 {
      assert Reverse(tmp)[0] == tmp[|tmp| - 1] == Reverse(dollars)[|dollars| - 1] == dollars[0];
    }
  }

  /** Digits with a point and more digits are split at the point. */
  lemma MoneyPartsOf(d: string, f: string)
    requires AllDigits(d) && AllDigits(f)
    ensures MoneyParts(d + "." + f) == (d, f)
  {
    var m := d + "." + f;
    DigitRunPrefix(f);
    assert m[..|d|] == d;
    assert m[|d|] == '.';
    DigitRunStops(m, |d|);
    var rest := m[|d|..];
    assert rest[0] == '.';
    assert rest[1..] == f;
    assert f[..DigitRun(f)] == f;
  }

  /** The digit run of a string stops at the first character that is not a digit. */
  lemma DigitRunStops(s: string, n: nat)
    requires n < |s| && AllDigits(s[..n]) && !IsDigit(s[n])
    ensures DigitRun(s) == n
  {
  }

  /** In grouped digits, commas stand exactly every four characters from the right, never first. */
  lemma {:induction false} Group3Commas(d: string)
    requires AllDigits(d) && |d| > 0
    ensures forall k :: 0 <= k < |Group3(d)| ==> (Group3(d)[k] == ',' <==> k > 0 && (|Group3(d)| - k) % 4 == 0)
  {
    var g := Group3(d);
    if |d| > 3 {
      var hi := d[..|d| - 3];
      var lo := d[|d| - 3..];
      Group3Commas(hi);
      var gh := Group3(hi);
      assert g == gh + "," + lo;
      assert |g| == |gh| + 4;
      forall k | 0 <= k < |g|
        ensures g[k] == ',' <==> k > 0 && (|g| - k) % 4 == 0
      {
        if k < |gh| {
          assert g[k] == gh[k];
          var m := |gh| - k;
          assert |g| - k == m + 4;
          assert (m + 4) % 4 == m % 4;
        } else if k == |gh| {
          assert g[k] == ',';
          assert (|g| - k) % 4 == 0;
        } else {
          assert 1 <= |g| - k <= 3;
          assert g[k] == lo[k - |gh| - 1] == d[k - |gh| - 1 + |d| - 3];
          assert IsDigit(g[k]);
        }
      }
    } else {
      assert forall k :: 0 <= k < |g| ==> g[k] == d[k] && IsDigit(d[k]);
    }
  }

  /** Digits hold no comma. */
  lemma RemoveFromDigits(s: string)
    requires AllDigits(s)
    ensures Remove(s, ',') == s
  {
    assert ',' !in s by {
      assert forall k :: 0 <= k < |s| ==> IsDigit(s[k]);
    }
    RemoveAbsent(s, ',');
  }

  /** Removing the commas around a comma removes it and the commas on both sides. */
  lemma RemoveAroundComma(a: string, b: string)
    ensures Remove(a + "," + b, ',') == Remove(a, ',') + Remove(b, ',')
  {
    var comma := ",";
    assert Remove(comma, ',') == "" by {
      assert comma[1..] == "";
      assert Remove("", ',') == "";
    }
    RemoveAppend(a, comma, ',');
    RemoveAppend(a + comma, b, ',');
  }

  /** Removing the commas gives the digits back. */
  lemma {:induction false} Group3RemoveCommas(d: string)
    requires AllDigits(d)
    ensures Remove(Group3(d), ',') == d
  {
    if |d| > 3 {
      var hi := d[..|d| - 3];
      var lo := d[|d| - 3..];
      Group3RemoveCommas(hi);
      RemoveAroundComma(Group3(hi), lo);
      RemoveFromDigits(lo);
      assert hi + lo == d;
    } else {
      RemoveFromDigits(d);
    }
  }

  /** A formatted amount, without its "$ " and its commas, gives back the dollars, the point and the cents. */
  lemma PrintAsMoneyRoundTrip(d: string, f: string)
    requires AllDigits(d) && AllDigits(f) && |f| > 0
    ensures PrintAsMoney(d + "." + f) == "$ " + Group3(d) + "." + f
    ensures Remove(Group3(d), ',') == d
  {
    MoneyPartsOf(d, f);
    PrintAsMoneyGroups(d + "." + f);
    Group3RemoveCommas(d);
  }

  // ---------------------------------------------------------------------
  // The appointment window
  // ---------------------------------------------------------------------

  /** An appointment as the page reads it: its date and its start time. */
  datatype Appt = Appt(date: string, startTime: string)

  /** The number of appointments to show: the setting's magnitude, or 10 when it is 0. */
  function ApptsToShow(setting: int): (n: nat)
    ensures n > 0
    ensures setting > 0 ==> n == setting
    ensures setting < 0 ==> n == -setting
    ensures setting == 0 ==> n == 10
  {
    if setting != 0 then (if setting < 0 then -setting else setting) else 10
  }

  /** How many appointments beyond those shown are fetched: one in the first display mode, six in the second. */
  function ExtraAppts(mode1: bool): (n: nat)
    ensures n == if mode1 then 1 else 6
  {
    if mode1 then 1 else 6
  }

  /**
   * The appointments shown and the date of the next one, from the
   * appointments fetched. In the first mode the one extra appointment is
   * held back and its date given. In the second, the appointments on
   * the same date as the last regular one are shown too, up to the
   * first on another date, whose date is given; the last of six extra
   * appointments is always held back. `firstIndex` is where the run of
   * appointments on that last date starts.
   */
  method ApptWindow(setting: int, mode1: bool, fetched: seq<Appt>)
    returns (events: seq<Appt>, extraDate: Option<string>, limitDate: Option<string>, firstIndex: nat)
    requires |fetched| <= ApptsToShow(setting) + ExtraAppts(mode1)
    ensures |events| <= |fetched| && events == fetched[..|events|]
    ensures |fetched| <= ApptsToShow(setting) ==> events == fetched && extraDate.None? && firstIndex == 0
    ensures |fetched| > ApptsToShow(setting) ==>
      var n := ApptsToShow(setting);
      var limit := fetched[n - 1].date;
      && limitDate == Some(limit)
      && n <= |events|
      && (forall k :: n <= k < |events| ==> events[k].date == limit)
      && (|events| < |fetched| ==> extraDate == Some(fetched[|events|].date))
      && (|events| < |fetched| - 1 ==> fetched[|events|].date != limit)
      && (|events| == |fetched| ==> extraDate.None?)
      && (mode1 ==> events == fetched[..n])
      && (!mode1 && |fetched| == n + 6 ==> |events| < |fetched|)
      && firstIndex < n
      && (forall k :: firstIndex <= k < n ==> fetched[k].date == limit)
      && (firstIndex > 0 ==> fetched[firstIndex - 1].date != limit)
  {
    var n := ApptsToShow(setting);
    events := fetched;
    extraDate := None;
    limitDate := None;
    firstIndex := 0;
    if |events| == 0 {
      return;
    }
    var count := |events|;
    var select := 0;
    if count <= n {
      extraDate := None;
    } else if mode1 && count == n + 1 {
      extraDate := Some(events[count - 1].date);
      events := events[..count - 1];
      count := count - 1;
      select := 1;
    } else if count == n + 6 {
      extraDate := Some(events[count - 1].date);
      events := events[..count - 1];
      count := count - 1;
      select := 2;
    } else {
      extraDate := None;
      select := 2;
    }
    if select == 0 {
      return;
    }
    var limitIndex := n - 1;
    var limit := events[limitIndex].date;
    limitDate := Some(limit);
    if select == 2 {
      var last := count - 1;
      var i := 1;
      while i <= last - limitIndex
        invariant 1 <= i <= last - limitIndex + 1
        invariant events == fetched[..count]
        invariant forall k :: n <= k < limitIndex + i ==> events[k].date == limit
      {
        if events[limitIndex + i].date != limit {
          extraDate := Some(events[limitIndex + i].date);
          events := events[..limitIndex + i];
          break;
        }
        i := i + 1;
      }
    }
    var j := 1;
    while j <= limitIndex
      invariant 1 <= j <= limitIndex + 1
      invariant forall k :: limitIndex - j < k <= limitIndex ==> fetched[k].date == limit
    {
      if events[limitIndex - j].date != limit {
        firstIndex := n - j;
        break;
      }
      j := j + 1;
    }
  }

  // ---------------------------------------------------------------------
  // The 12-hour display of a start time
  // ---------------------------------------------------------------------

  /** The hour shown for a 24-hour hour, and whether it is "pm": 12 and later are "pm", 13 and later lose 12. */
  function DisplayHour(hour: nat): (r: (nat, bool))
  {
    if hour >= 12 then (if hour > 12 then hour - 12 else hour, true) else (hour, false)
  }

  /** The 24-hour hour a displayed hour stands for. */
  function FromDisplay(h: nat, pm: bool): nat
  {
    if pm && h != 12 then h + 12 else h
  }

  /** Every hour of the day is shown as an hour from 0 to 12 that reads back as itself; midnight stays 0 "am". */
  lemma DisplayHourRoundTrip(hour: nat)
    requires hour < 24
    ensures DisplayHour(hour).0 <= 12
    ensures DisplayHour(hour).1 <==> hour >= 12
    ensures FromDisplay(DisplayHour(hour).0, DisplayHour(hour).1) == hour
    ensures hour == 0 ==> DisplayHour(hour) == (0, false)
  {
  }
}
