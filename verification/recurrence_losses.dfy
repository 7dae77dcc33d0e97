/** Rules that the translation takes for something else: exactly when their dates stay the same. */
module RecurrenceLosses {
  import opened Wrappers
  import opened Recurrence
  import opened RecurrenceMeaning

  /** The rule is translated into the same dates, its end included. */
  ghost predicate KeepsDates(r: Rule, start: Date, clamps: bool)
    requires r.interval.Some? ==> r.interval.value > 0
  {
    PatternOf(r, start).Some?
    && forall d: Date :: Occurs(r, start, d) <==> GraphOccurs(PatternOf(r, start).value, RangeOf(r), start, d, clamps)
  }

  // ----- a series and a part of it, up to an end -------------------------------------------

  ghost predicate FromStart(a: Date -> bool, start: Date) {
    forall d: Date :: a(d) ==> d.Valid() && start.UpTo(d)
  }

  ghost predicate PartOf(b: Date -> bool, a: Date -> bool) {
    forall d: Date :: b(d) ==> a(d)
  }

  lemma InPast(a: Date -> bool, start: Date, d: Date, e: Date)
    requires FromStart(a, start)
    ensures e in Past(a, start, d) <==> a(e) && e.UpTo(d)
  {
    assert e == Date(e.month, e.day);
  }

  lemma SmallerSet(s: set<Date>, t: set<Date>)
    requires s <= t
    ensures |s| <= |t| && (|s| == |t| ==> s == t)
  {
    assert |t - s| == |t| - |s|;
    if |s| == |t| { assert t - s == {}; }
  }

  lemma PastGrows(a: Date -> bool, start: Date, e: Date, d: Date)
    requires FromStart(a, start) && e.UpTo(d)
    ensures Past(a, start, e) <= Past(a, start, d)
  {
    forall x | x in Past(a, start, e) ensures x in Past(a, start, d) {
      InPast(a, start, e, x);
      InPast(a, start, d, x);
    }
  }

  lemma PastOfPart(a: Date -> bool, b: Date -> bool, start: Date, d: Date)
    requires FromStart(a, start) && PartOf(b, a)
    ensures Past(b, start, d) <= Past(a, start, d)
  {
    forall x | x in Past(b, start, d) ensures x in Past(a, start, d) {
      InPast(a, start, d, x);
      InPast(b, start, d, x);
    }
  }

  /** Going back from a date that only the larger series has, to the first such date. */
  lemma {:induction false} FirstExtra(a: Date -> bool, b: Date -> bool, start: Date, d: Date, e: Date)
    returns (first: Date)
    requires FromStart(a, start) && PartOf(b, a) && b(d) && a(e) && !b(e) && e.UpTo(d)
    ensures a(first) && !b(first) && first.UpTo(e) && |Past(a, start, first)| <= |Past(b, start, d)|
    decreases |Past(a, start, e)|
  {
    hide Past;
    if x: Date :| x in Past(a, start, e) && x != e && !b(x) {
      InPast(a, start, e, x);
      InPast(a, start, x, e);
      InPast(a, start, e, e);
      PastGrows(a, start, x, e);
      SmallerSet(Past(a, start, x), Past(a, start, e));
      first := FirstExtra(a, b, start, d, x);
    } else {
      first := e;
      InPast(a, start, e, e);
      InPast(b, start, d, d);
      forall x | x in Past(a, start, e) && x != e ensures x in Past(b, start, d) && x != d {
        InPast(a, start, e, x);
        InPast(b, start, d, x);
      }
      OneMore(Past(a, start, e), e, Past(b, start, d), d);
    }
  }

  lemma OneMore(s: set<Date>, e: Date, t: set<Date>, d: Date)
    requires e in s && d in t && forall x <- s :: x != e ==> x in t && x != d
    ensures |s| <= |t|
  {
    SmallerSet(s - {e}, t - {d});
    assert |s - {e}| == |s| - 1 && |t - {d}| == |t| - 1;
  }

  /** A series and a part of it have the same dates in a range iff no date that only the larger has is
      within the range. */
  lemma PartSame(count: Option<nat>, until: Option<Date>, a: Date -> bool, b: Date -> bool, start: Date)
    requires FromStart(a, start) && PartOf(b, a)
    ensures (forall d: Date :: InRange(count, until, a, start, d) <==> InRange(count, until, b, start, d))
            <==> (forall d: Date :: a(d) && !b(d) ==> !Within(count, until, a, start, d))
  {
    hide Past;
    if forall d: Date :: a(d) && !b(d) ==> !Within(count, until, a, start, d) {
      forall d: Date ensures InRange(count, until, a, start, d) <==> InRange(count, until, b, start, d) {
        PastOfPart(a, b, start, d);
        SmallerSet(Past(b, start, d), Past(a, start, d));
        if InRange(count, until, b, start, d) && !InRange(count, until, a, start, d) {
          ExtraWithin(count, until, a, b, start, d);
        }
      }
    } else {
      var d: Date :| a(d) && !b(d) && Within(count, until, a, start, d);
      assert InRange(count, until, a, start, d) && !InRange(count, until, b, start, d);
    }
  }

  lemma ExtraWithin(count: Option<nat>, until: Option<Date>, a: Date -> bool, b: Date -> bool, start: Date, d: Date)
    requires FromStart(a, start) && PartOf(b, a)
    requires InRange(count, until, b, start, d) && !InRange(count, until, a, start, d)
    ensures exists e: Date :: a(e) && !b(e) && Within(count, until, a, start, e)
  {
    PastOfPart(a, b, start, d);
    hide Past;
    assert Past(b, start, d) != Past(a, start, d);
    var e: Date :| e in Past(a, start, d) && e !in Past(b, start, d);
    InPast(a, start, d, e);
    InPast(b, start, d, e);
    var first := FirstExtra(a, b, start, d, e);
    assert a(first) && !b(first) && Within(count, until, a, start, first);
  }

  // ----- a late day of the month -----------------------------------------------------------

  /** The day of the month a rule without BYDAY asks for. */
  function TheDay(r: Rule, start: Date): int
    requires r.byMonthDay.Some? ==> |r.byMonthDay.value| == 1
  {
    if r.byMonthDay.None? then start.day else r.byMonthDay.value[0]
  }

  /** Monthly on one day, or yearly on one day of one month. */
  predicate OneDayRule(r: Rule, start: Date) {
    && Absolute(r, start, false) && start.Valid() && (r.interval.Some? ==> r.interval.value > 0)
    && match r.freq
       case Monthly => r.byMonth.None?
       case Yearly => if r.byMonth.None? then r.byMonthDay.None? else OneMonth(r)
       case _ => false
  }

  /** The rule visits the month. */
  predicate VisitsMonth(r: Rule, start: Date, m: int)
    requires OneDayRule(r, start)
  {
    if r.freq.Monthly? then (m - start.month) % Every(r) == 0
    else
      && Date(m, 1).MonthOfYear() == (if r.byMonth.Some? then r.byMonth.value[0] else start.MonthOfYear())
      && (Date(m, 1).Year() - start.Year()) % Every(r) == 0
  }

  lemma OneDay(r: Rule, start: Date, d: Date, clamps: bool)
    requires OneDayRule(r, start) && d.Valid()
    ensures PatternOf(r, start).Some?
    ensures Recurs(r, start, d) <==> start.UpTo(d) && VisitsMonth(r, start, d.month) && d.day == TheDay(r, start)
    ensures PatternHolds(PatternOf(r, start).value, start, d, clamps) <==>
              start.UpTo(d) && VisitsMonth(r, start, d.month) && OnDay(TheDay(r, start), d, clamps)
  {
    AbsoluteSame(r, start, d, false);
    DayIsFirst(r, start);
    hide MonthLength, Candidate;
  }

  lemma DayIsFirst(r: Rule, start: Date)
    requires OneDayRule(r, start)
    ensures DayOfMonth(r, start) == Some(TheDay(r, start))
  {
  }

  /** Where Graph moves a late day to the end of a shorter month, a rule on one day, monthly or yearly, keeps
      its dates exactly when no month it visits within its end is too short for the day. */
  lemma LateDaySame(r: Rule, start: Date)
    requires OneDayRule(r, start) && (r.count.Some? ==> r.until.None?)
    ensures PatternOf(r, start).Some?
    ensures KeepsDates(r, start, true) <==>
              forall m :: Short(r, start, m) ==>
                !Within(r.count, r.until, PatternSeries(PatternOf(r, start).value, start, true), start, Date(m, MonthLength(m)))
  {
    OneDay(r, start, start, true);
    var p := PatternOf(r, start).value;
    var a, b := PatternSeries(p, start, true), RuleSeries(r, start);
    forall d: Date
      ensures b(d) ==> a(d)
      ensures a(d) && !b(d) <==> d == Date(d.month, MonthLength(d.month)) && Short(r, start, d.month)
    {
      LateDates(r, start, d);
    }
    forall d: Date ensures GraphOccurs(p, RangeOf(r), start, d, true) <==> InRange(r.count, r.until, a, start, d) {
      RangeSame(r, p, start, d, true);
    }
    assert FromStart(a, start);
    hide Recurs, PatternHolds, PatternOf, PatternSeries, RuleSeries, Within, Short, MonthLength, GraphOccurs, RangeOf;
    PartSame(r.count, r.until, a, b, start);
    forall m | Short(r, start, m)
      ensures a(Date(m, MonthLength(m))) && !b(Date(m, MonthLength(m)))
    {
      var d := Date(m, MonthLength(m));
      assert d == Date(d.month, MonthLength(d.month));
    }
  }

  /** A month the rule visits that is too short for its day. */
  predicate Short(r: Rule, start: Date, m: int)
    requires OneDayRule(r, start)
  {
    m >= start.month && VisitsMonth(r, start, m) && TheDay(r, start) > MonthLength(m)
  }

  lemma LateDates(r: Rule, start: Date, d: Date)
    requires OneDayRule(r, start)
    ensures PatternOf(r, start).Some?
    ensures var a, b := PatternSeries(PatternOf(r, start).value, start, true), RuleSeries(r, start);
            && (b(d) ==> a(d))
            && (a(d) && !b(d) <==> d == Date(d.month, MonthLength(d.month)) && Short(r, start, d.month))
  {
    OneDay(r, start, start, true);
    if d.Valid() {
      OneDay(r, start, d, true);
    }
    hide PatternHolds, PatternOf, MonthLength, VisitsMonth, TheDay, Recurs, OneDayRule;
    RecursValid(r, start, d);
    assert d == Date(d.month, d.day);
  }

  lemma RecursValid(r: Rule, start: Date, d: Date)
    requires OneDayRule(r, start)
    ensures Recurs(r, start, d) ==> d.Valid()
    ensures 1 <= MonthLength(d.month)
  {
  }

  // ----- a list of weekdays without a position ---------------------------------------------

  lemma {:induction false} InstancesGrow(month: int, j: nat, k: nat, days: seq<int>)
    requires j <= k
    ensures Instances(month, j, days) <= Instances(month, k, days)
  {
    if j < k { InstancesGrow(month, j, k - 1, days); }
  }

  predicate WeekdayList(r: Rule) {
    && r.freq.Monthly? && r.byDay != [] && Plain(r.byDay) && 0 <= r.byDay[0].day < 7
    && r.byMonthDay.None? && r.bySetPos.None? && r.byMonth.None?
    && (r.interval.Some? ==> r.interval.value > 0) && (r.count.Some? ==> r.until.None?)
  }

  /** A monthly list of weekdays without a position means every such day; the translation keeps the
      first in each month. The dates stay the same exactly when no date of the rule within its end
      comes after another listed weekday of its month; a rule without end always loses dates. */
  lemma EveryWeekdayLost(r: Rule, start: Date, clamps: bool)
    requires WeekdayList(r)
    ensures PatternOf(r, start).Some?
    ensures KeepsDates(r, start, clamps) <==>
              forall d: Date :: Recurs(r, start, d) && Instances(d.month, d.day, MapDays(r.byDay)) > 1 ==>
                !Within(r.count, r.until, RuleSeries(r, start), start, d)
    ensures r.count.None? && r.until.None? ==> !KeepsDates(r, start, clamps)
  {
    var p := RelativeMonthly(Every(r), MapDays(r.byDay), First);
    assert PatternOf(r, start) == Some(p);
    var a, b := RuleSeries(r, start), PatternSeries(p, start, clamps);
    forall d: Date
      ensures b(d) ==> a(d)
      ensures a(d) && !b(d) <==> Recurs(r, start, d) && Instances(d.month, d.day, MapDays(r.byDay)) > 1
    {
      OnlyFirsts(r, start, d, clamps);
    }
    forall d: Date ensures GraphOccurs(p, RangeOf(r), start, d, clamps) <==> InRange(r.count, r.until, b, start, d) {
      RangeSame(r, p, start, d, clamps);
    }
    assert FromStart(a, start);
    var d := SecondWeekday(r, start, clamps);
    hide PatternOf, PatternHolds, PatternSeries, Recurs, Candidate, Instances, MapDays, RangeOf, GraphOccurs, Past, RuleSeries, Every;
    PartSame(r.count, r.until, a, b, start);
    assert a(d) && !b(d);
  }

  lemma OnlyFirsts(r: Rule, start: Date, d: Date, clamps: bool)
    requires WeekdayList(r)
    ensures var p := RelativeMonthly(Every(r), MapDays(r.byDay), First);
            var a, b := RuleSeries(r, start), PatternSeries(p, start, clamps);
            && (b(d) ==> a(d))
            && (a(d) && !b(d) <==> Recurs(r, start, d) && Instances(d.month, d.day, MapDays(r.byDay)) > 1)
  {
    CandidateByDay(r, start, d);
    hide Candidate, Date.Weekday, Every, MapDays, MonthLength, AtPosition;
    if d.Valid() && d.Weekday() in MapDays(r.byDay) {
      assert Instances(d.month, d.day, MapDays(r.byDay)) >= 1;
    }
  }

  /** Two of the weekdays fall in the next month that the rule visits. */
  lemma SecondWeekday(r: Rule, start: Date, clamps: bool) returns (d: Date)
    requires WeekdayList(r)
    ensures Recurs(r, start, d) && Instances(d.month, d.day, MapDays(r.byDay)) > 1
  {
    var w, m, days := r.byDay[0].day, start.month + Every(r), MapDays(r.byDay);
    assert days[0] == w;
    hide MonthLength, MapDays;
    var j := FirstOn(m, w, days);
    d := Date(m, j + 7);
    CandidateByDay(r, start, d);
    hide Instances, Date.Weekday, Candidate, Every;
  }

  /** The first such weekday of the month; the one a week later is not the first instance. */
  lemma FirstOn(m: int, w: int, days: seq<int>) returns (j: int)
    requires 0 <= w < 7 && w in days
    ensures 1 <= j <= 7 && Date(m, j + 7).Weekday() == w && Instances(m, j + 7, days) >= 2
  {
    hide DaysBefore;
    j := (w - Date(m, 1).Weekday()) % 7 + 1;
    assert Date(m, j).Weekday() == w;
    WeekdayInMonth(m, j + 7, j);
    hide Date.Weekday;
    InstancesGrow(m, j, j + 6, days);
  }
}
