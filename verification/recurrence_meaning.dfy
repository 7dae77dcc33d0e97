/** For the rules Graph can express, the translation has exactly the dates of the rule. */
module RecurrenceMeaning {
  import opened Wrappers
  import opened Recurrence

  predicate Plain(byDay: seq<Entry>) {
    forall e <- byDay :: e.nth.None?
  }

  predicate Ordinal(n: int) {
    n == -1 || 1 <= n <= 4
  }

  /** One ordinal weekday; a BYSETPOS that picks it from itself changes nothing. */
  predicate OneOrdinal(r: Rule) {
    |r.byDay| == 1 && r.byDay[0].nth.Some? && Ordinal(r.byDay[0].nth.value)
    && (r.bySetPos.Some? ==> r.bySetPos.value == [1] || r.bySetPos.value == [-1])
  }

  /** A list of weekdays with one BYSETPOS. */
  predicate Positioned(r: Rule) {
    r.byDay != [] && Plain(r.byDay) && r.bySetPos.Some? && |r.bySetPos.value| == 1 && Ordinal(r.bySetPos.value[0])
  }

  predicate Relative(r: Rule) {
    r.byMonthDay.None? && (OneOrdinal(r) || Positioned(r))
  }

  /** One day of the month: one that every month has, if Graph moves it in shorter months. */
  predicate Absolute(r: Rule, start: Date, clamps: bool) {
    r.byDay == [] && r.bySetPos.None?
    && (r.byMonthDay.Some? ==> |r.byMonthDay.value| == 1 && r.byMonthDay.value[0] > 0)
    && (clamps ==> (if r.byMonthDay.None? then start.day else r.byMonthDay.value[0]) <= 28)
  }

  predicate OneMonth(r: Rule) {
    r.byMonth.Some? && |r.byMonth.value| == 1 && 1 <= r.byMonth.value[0] <= 12
  }

  predicate Expressible(r: Rule, start: Date, clamps: bool) {
    && (r.interval.Some? ==> r.interval.value > 0)
    && (r.count.Some? ==> r.until.None?)
    && match r.freq
       case Daily => r.byDay == [] && r.byMonthDay.None? && r.byMonth.None? && r.bySetPos.None?
       case Weekly => Plain(r.byDay) && r.byMonthDay.None? && r.byMonth.None? && r.bySetPos.None?
       case Monthly => r.byMonth.None? && (Relative(r) || Absolute(r, start, clamps))
       case Yearly =>
         (OneMonth(r) && (Relative(r) || Absolute(r, start, clamps)))
         || (r.byMonth.None? && r.byMonthDay.None? && Absolute(r, start, clamps))
       case OtherFreq => false
  }

  // ----- weekdays in a month ---------------------------------------------------------------

  lemma WeekdayInMonth(month: int, j: int, k: int)
    ensures Date(month, j).Weekday() == Date(month, k).Weekday() <==> (j - k) % 7 == 0
  {
    hide DaysBefore;
  }

  /** The instances of one weekday are a week apart. */
  lemma {:induction false} CountOne(month: int, k: nat, w: int, first: int)
    requires 1 <= first <= 7 && Date(month, first).Weekday() == w
    ensures Instances(month, k, [w]) == (k - first + 7) / 7
  {
    if k > 0 {
      CountOne(month, k - 1, w, first);
      WeekdayInMonth(month, k, first);
    }
  }

  lemma NthIndexed(w: int, n: int, d: Date)
    requires d.Valid() && Ordinal(n)
    ensures d.Weekday() == w && NthIn(n, d.day - 1, MonthLength(d.month)) <==> Indexed([w], IndexOf(n), d)
  {
    hide DaysBefore, MonthLength, Instances, Date.Weekday;
    var length := MonthLength(d.month);
    if d.Weekday() == w {
      var first := (d.day - 1) % 7 + 1;
      WeekdayInMonth(d.month, d.day, first);
      CountOne(d.month, d.day, w, first);
      if d.day + 7 <= length { WeekdayInMonth(d.month, d.day + 7, d.day); }
      forall k | d.day < k <= length && k < d.day + 7 ensures Date(d.month, k).Weekday() != w {
        WeekdayInMonth(d.month, k, d.day);
      }
    }
  }

  ghost function DaysUpTo(month: int, k: nat, days: seq<int>): set<Date> {
    set j: int | 1 <= j <= k && Date(month, j).Weekday() in days :: Date(month, j)
  }

  lemma {:induction false} InstancesCount(month: int, k: nat, days: seq<int>)
    ensures |DaysUpTo(month, k, days)| == Instances(month, k, days)
  {
    if k == 0 {
      assert DaysUpTo(month, 0, days) == {};
    } else {
      InstancesCount(month, k - 1, days);
      var last := Date(month, k);
      if last.Weekday() in days {
        assert DaysUpTo(month, k, days) == DaysUpTo(month, k - 1, days) + {last};
      } else {
        assert DaysUpTo(month, k, days) == DaysUpTo(month, k - 1, days);
      }
    }
  }

  // ----- BYSETPOS within a month -----------------------------------------------------------

  predicate InMonth(r: Rule, d: Date) {
    (r.freq.Monthly? && r.byMonth.None?) || (r.freq.Yearly? && OneMonth(r) && d.MonthOfYear() == r.byMonth.value[0])
  }

  lemma CandidateByDay(r: Rule, start: Date, d: Date)
    requires r.byDay != [] && Plain(r.byDay) && r.byMonthDay.None? && (r.freq.Monthly? || r.freq.Yearly?)
    requires r.byMonth.None? || OneMonth(r)
    ensures Candidate(r, start, d) <==>
              d.Weekday() in MapDays(r.byDay) && (r.byMonth.Some? ==> d.MonthOfYear() == r.byMonth.value[0])
  {
    var days := MapDays(r.byDay);
    hide Date.Weekday, Date.MonthOfYear;
    if d.Weekday() in days {
      var i :| 0 <= i < |days| && days[i] == d.Weekday();
      assert r.byDay[i] in r.byDay && EntryHolds(r, r.byDay[i], d);
    }
    if e :| e in r.byDay && EntryHolds(r, e, d) {
      var i :| 0 <= i < |r.byDay| && r.byDay[i] == e;
      assert days[i] == e.day;
    }
  }

  /** Dates of one period that lie in the rule's month lie in one month. */
  lemma OneMonthAPeriod(r: Rule, d: Date, e: Date)
    requires InMonth(r, d)
    ensures SamePeriod(r, d, e) && (r.byMonth.Some? ==> e.MonthOfYear() == r.byMonth.value[0]) <==> e.month == d.month
  {
  }

  lemma RankedInMonth(r: Rule, start: Date, d: Date, e: Date, upTo: bool)
    requires r.byDay != [] && Plain(r.byDay) && r.byMonthDay.None? && InMonth(r, d)
    ensures e in Ranked(r, start, d, upTo) <==>
              e.month == d.month && e.Valid() && e.Weekday() in MapDays(r.byDay) && (if upTo then e.UpTo(d) else d.UpTo(e))
  {
    CandidateByDay(r, start, e);
    OneMonthAPeriod(r, d, e);
    hide Candidate, SamePeriod, MapDays, Date.Weekday, Date.MonthOfYear, InMonth, OneMonth, Plain;
    assert e == Date(e.month, e.day);
  }

  lemma NthPosition(r: Rule, start: Date, d: Date, p: int)
    requires r.byDay != [] && Plain(r.byDay) && r.byMonthDay.None? && InMonth(r, d) && 1 <= p <= 4
    requires d.Valid() && d.Weekday() in MapDays(r.byDay)
    ensures AtPosition(r, start, d, p) <==> Indexed(MapDays(r.byDay), IndexOf(p), d)
  {
    var days := MapDays(r.byDay);
    forall e: Date
      ensures e in Ranked(r, start, d, true) <==> e in DaysUpTo(d.month, d.day, days)
    {
      RankedInMonth(r, start, d, e, true);
      hide Ranked, MapDays, Date.Weekday, InMonth, OneMonth, Plain, MonthLength;
      if e.month == d.month && 1 <= e.day <= d.day { assert e == Date(d.month, e.day); }
    }
    hide Ranked, MapDays, Date.Weekday, InMonth, OneMonth, Plain, MonthLength, Instances, DaysUpTo;
    InstancesCount(d.month, d.day, days);
    assert Ranked(r, start, d, true) == DaysUpTo(d.month, d.day, days);
  }

  lemma LastPosition(r: Rule, start: Date, d: Date)
    requires r.byDay != [] && Plain(r.byDay) && r.byMonthDay.None? && InMonth(r, d)
    requires d.Valid() && d.Weekday() in MapDays(r.byDay)
    ensures AtPosition(r, start, d, -1) <==> Indexed(MapDays(r.byDay), Last, d)
  {
    var days := MapDays(r.byDay);
    var s := Ranked(r, start, d, false);
    forall e: Date
      ensures e in s <==> e.month == d.month && e.Valid() && e.Weekday() in days && d.UpTo(e)
    {
      RankedInMonth(r, start, d, e, false);
    }
    hide Ranked, MapDays, Date.Weekday, InMonth, OneMonth, Plain, MonthLength, Instances;
    assert d in s;
    if |s| == 1 {
      assert |s - {d}| == 0;
      forall k | d.day < k <= MonthLength(d.month) ensures Date(d.month, k).Weekday() !in days {
        assert Date(d.month, k) !in s - {d};
      }
    }
    if Indexed(days, Last, d) {
      forall e | e in s ensures e == d {
        assert e == Date(e.month, e.day);
      }
      assert s == {d};
    }
  }

  // ----- the translation -------------------------------------------------------------------

  ghost predicate InSet(r: Rule, start: Date, d: Date) {
    Candidate(r, start, d) && (r.bySetPos.Some? ==> exists p <- r.bySetPos.value :: AtPosition(r, start, d, p))
  }

  lemma OrdinalCandidate(r: Rule, start: Date, d: Date)
    requires r.byMonthDay.None? && OneOrdinal(r) && (r.freq.Monthly? || (r.freq.Yearly? && OneMonth(r)))
    requires r.freq.Monthly? ==> r.byMonth.None?
    ensures Candidate(r, start, d) <==>
              && d.Weekday() == r.byDay[0].day && NthIn(r.byDay[0].nth.value, d.day - 1, MonthLength(d.month))
              && (r.byMonth.Some? ==> d.MonthOfYear() == r.byMonth.value[0])
  {
    var e := r.byDay[0];
    assert r.byDay == [e];
    hide Date.Weekday, Date.MonthOfYear, NthIn, MonthLength;
    assert (exists other <- r.byDay :: EntryHolds(r, other, d)) <==> EntryHolds(r, e, d);
  }

  /** A month has the nth weekday once. */
  lemma NthOnce(d: Date, e: Date, n: int)
    requires Ordinal(n) && d.month == e.month && d.Weekday() == e.Weekday() && d.Valid() && e.Valid()
    requires NthIn(n, d.day - 1, MonthLength(d.month)) && NthIn(n, e.day - 1, MonthLength(d.month))
    ensures d == e
  {
    WeekdayInMonth(d.month, d.day, e.day);
    hide Date.Weekday, MonthLength;
  }

  lemma OnlyOne(r: Rule, start: Date, d: Date, upTo: bool)
    requires r.byMonthDay.None? && OneOrdinal(r) && InMonth(r, d) && d.Valid() && Candidate(r, start, d)
    ensures Ranked(r, start, d, upTo) == {d}
  {
    OrdinalCandidate(r, start, d);
    OneMonthAPeriod(r, d, d);
    forall e | e in Ranked(r, start, d, upTo) ensures e == d {
      OrdinalCandidate(r, start, e);
      OneMonthAPeriod(r, d, e);
      hide Candidate, SamePeriod, Date.Weekday, Date.MonthOfYear, NthIn, MonthLength, InMonth, OneMonth;
      NthOnce(d, e, r.byDay[0].nth.value);
    }
    hide Candidate, SamePeriod, Date.Weekday, Date.MonthOfYear, NthIn, MonthLength, InMonth, OneMonth;
    assert d == Date(d.month, d.day) && d in Ranked(r, start, d, upTo);
  }

  lemma OrdinalSame(r: Rule, start: Date, d: Date)
    requires r.byMonthDay.None? && OneOrdinal(r) && (r.freq.Monthly? || (r.freq.Yearly? && OneMonth(r)))
    requires d.Valid() && (r.freq.Monthly? ==> r.byMonth.None?)
    ensures InSet(r, start, d) <==>
              Indexed(MapDays(r.byDay), WeekIndex(r), d) && (r.byMonth.Some? ==> d.MonthOfYear() == r.byMonth.value[0])
  {
    var e := r.byDay[0];
    assert MapDays(r.byDay) == [e.day];
    NthIndexed(e.day, e.nth.value, d);
    OrdinalCandidate(r, start, d);
    if Candidate(r, start, d) {
      OnlyOne(r, start, d, true);
      OnlyOne(r, start, d, false);
      hide Candidate, Ranked;
      if r.bySetPos.Some? {
        var p := r.bySetPos.value[0];
        assert p in r.bySetPos.value && AtPosition(r, start, d, p);
      }
    }
    hide Candidate, AtPosition, Date.Weekday, Date.MonthOfYear, Indexed, NthIn, IndexOf, MonthLength, OneMonth;
  }

  lemma SetPosSame(r: Rule, start: Date, d: Date)
    requires r.byMonthDay.None? && Positioned(r) && (r.freq.Monthly? || (r.freq.Yearly? && OneMonth(r)))
    requires d.Valid() && (r.freq.Monthly? ==> r.byMonth.None?)
    ensures InSet(r, start, d) <==>
              Indexed(MapDays(r.byDay), WeekIndex(r), d) && (r.byMonth.Some? ==> d.MonthOfYear() == r.byMonth.value[0])
  {
    var p := r.bySetPos.value[0];
    assert r.bySetPos.value == [p];
    assert r.byDay[0] in r.byDay;
    CandidateByDay(r, start, d);
    if Candidate(r, start, d) {
      if p == -1 { LastPosition(r, start, d); } else { NthPosition(r, start, d, p); }
    }
    hide Candidate, AtPosition, MapDays, Date.Weekday, Date.MonthOfYear;
  }

  lemma AbsoluteSame(r: Rule, start: Date, d: Date, clamps: bool)
    requires Absolute(r, start, clamps) && (r.freq.Monthly? || r.freq.Yearly?) && d.Valid() && start.Valid()
    requires r.byMonth.None? || OneMonth(r)
    requires r.freq.Yearly? && r.byMonth.None? ==> r.byMonthDay.None?
    ensures DayOfMonth(r, start).Some?
    ensures InSet(r, start, d) <==>
              && OnDay(DayOfMonth(r, start).value, d, clamps)
              && (r.byMonth.Some? ==> d.MonthOfYear() == r.byMonth.value[0])
              && (r.byMonth.None? && r.freq.Yearly? ==> d.MonthOfYear() == start.MonthOfYear())
  {
    hide Date.MonthOfYear, MonthLength;
    if r.byMonthDay.Some? {
      var k := r.byMonthDay.value[0];
      assert r.byMonthDay.value == [k];
      assert (exists j <- r.byMonthDay.value :: MonthDayHolds(j, d)) <==> MonthDayHolds(k, d);
    }
  }

  lemma WeeklySame(r: Rule, start: Date, d: Date, clamps: bool)
    requires r.freq.Weekly? && Expressible(r, start, clamps)
    ensures InSet(r, start, d) <==> d.Weekday() in if r.byDay != [] then MapDays(r.byDay) else [start.Weekday()]
  {
    var days := MapDays(r.byDay);
    hide Date.Weekday;
    if r.byDay != [] && d.Weekday() in days {
      var i :| 0 <= i < |days| && days[i] == d.Weekday();
      assert r.byDay[i] in r.byDay && EntryHolds(r, r.byDay[i], d);
    }
    if e :| e in r.byDay && EntryHolds(r, e, d) {
      var i :| 0 <= i < |r.byDay| && r.byDay[i] == e;
      assert days[i] == e.day;
    }
  }

  lemma RecursInSet(r: Rule, start: Date, d: Date)
    requires (r.interval.Some? ==> r.interval.value > 0) && d.Valid()
    ensures Recurs(r, start, d) <==> start.UpTo(d) && Visited(r, start, d) && InSet(r, start, d)
  {
    hide Candidate, AtPosition, Visited, Date.UpTo, Date.Valid;
  }

  lemma DailySame(r: Rule, start: Date, d: Date, clamps: bool)
    requires Expressible(r, start, clamps) && r.freq.Daily? && d.Valid()
    ensures PatternOf(r, start) == Some(DailyPattern(Every(r)))
    ensures InSet(r, start, d)
  {
    hide Date.Weekday, Date.Number, Date.Valid;
  }

  lemma DaysSame(r: Rule, start: Date, d: Date, clamps: bool)
    requires Expressible(r, start, clamps) && (r.freq.Daily? || r.freq.Weekly?) && d.Valid()
    ensures PatternOf(r, start).Some?
    ensures Recurs(r, start, d) <==> PatternHolds(PatternOf(r, start).value, start, d, clamps)
  {
    hide Recurs, Candidate, InSet, Date.Weekday, Date.Number, Date.UpTo, Date.Valid, MapDays, Week;
    RecursInSet(r, start, d);
    if r.freq.Weekly? { WeeklySame(r, start, d, clamps); } else { DailySame(r, start, d, clamps); }
  }

  lemma MonthsSame(r: Rule, start: Date, d: Date, clamps: bool)
    requires Expressible(r, start, clamps) && (r.freq.Monthly? || r.freq.Yearly?) && start.Valid() && d.Valid()
    ensures PatternOf(r, start).Some?
    ensures Recurs(r, start, d) <==> PatternHolds(PatternOf(r, start).value, start, d, clamps)
  {
    RecursInSet(r, start, d);
    hide Recurs, InSet, Candidate, Indexed, OnDay, MonthLength, Date.Weekday, Date.MonthOfYear, Date.UpTo, MapDays, WeekIndex;
    if r.byDay == [] {
      AbsoluteSame(r, start, d, clamps);
    } else if OneOrdinal(r) {
      OrdinalSame(r, start, d);
    } else {
      SetPosSame(r, start, d);
    }
    hide DayOfMonth, Plain;
  }

  lemma PatternSame(r: Rule, start: Date, d: Date, clamps: bool)
    requires Expressible(r, start, clamps) && start.Valid() && d.Valid()
    ensures PatternOf(r, start).Some?
    ensures Recurs(r, start, d) <==> PatternHolds(PatternOf(r, start).value, start, d, clamps)
  {
    if r.freq.Daily? || r.freq.Weekly? {
      DaysSame(r, start, d, clamps);
    } else {
      MonthsSame(r, start, d, clamps);
    }
    hide Recurs, PatternOf, PatternHolds;
  }

  lemma PastSame(a: Date -> bool, b: Date -> bool, start: Date, d: Date)
    requires forall e: Date :: e.Valid() ==> a(e) == b(e)
    ensures Past(a, start, d) == Past(b, start, d)
  {
    forall e: Date ensures e in Past(a, start, d) <==> e in Past(b, start, d) {
      assert e == Date(e.month, e.day);
    }
  }

  /** The range of the translation is the rule's own. */
  lemma RangeSame(r: Rule, p: Pattern, start: Date, d: Date, clamps: bool)
    requires r.count.Some? ==> r.until.None?
    ensures GraphOccurs(p, RangeOf(r), start, d, clamps)
            <==> InRange(r.count, r.until, PatternSeries(p, start, clamps), start, d)
  {
    hide Past, PatternSeries;
  }

  /** Main result. A rule within what Graph can express is translated, and the Graph recurrence has
      exactly the dates of the rule. */
  lemma {:induction false} TranslationKeepsDates(r: Rule, start: Date, d: Date, clamps: bool)
    requires Expressible(r, start, clamps) && start.Valid()
    ensures PatternOf(r, start).Some?
    ensures Occurs(r, start, d) <==> GraphOccurs(PatternOf(r, start).value, RangeOf(r), start, d, clamps)
  {
    forall e: Date | e.Valid()
      ensures PatternOf(r, start).Some?
      ensures Recurs(r, start, e) <==> PatternHolds(PatternOf(r, start).value, start, e, clamps)
    {
      PatternSame(r, start, e, clamps);
    }
    assert start.Valid();
    var p := PatternOf(r, start).value;
    RangeSame(r, p, start, d, clamps);
    var a, b := RuleSeries(r, start), PatternSeries(p, start, clamps);
    assert forall e: Date :: a(e) <==> b(e);
    hide Recurs, PatternHolds, PatternOf, Past, RuleSeries, PatternSeries;
    PastSame(a, b, start, d);
  }
}
