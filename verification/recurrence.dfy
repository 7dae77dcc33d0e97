/** rrule_to_graph_recurrence (transform/recurrence.py) on a parsed rule, and what the two sides
    mean: section 3.3.10 of RFC 5545 for the rule, Graph's recurrencePattern and recurrenceRange for
    the result. Both are read as sets of dates. */
module Recurrence {
  import opened Wrappers

  // ----- dates -----------------------------------------------------------------------------

  /** `month` counts all months, from January of year 0. */
  datatype Date = Date(month: int, day: int)
  {
    predicate Valid() {
      1 <= day <= MonthLength(month)
    }

    function Year(): int {
      month / 12
    }

    /** 1 for January. */
    function MonthOfYear(): int {
      month % 12 + 1
    }

    function Number(): int {
      DaysBefore(month) + day - 1
    }

    /** 0 for Monday. */
    function Weekday(): int {
      (Number() + 5) % 7
    }

    predicate UpTo(d: Date) {
      month < d.month || (month == d.month && day <= d.day)
    }
  }

  predicate Leap(year: int) {
    year % 4 == 0 && (year % 100 != 0 || year % 400 == 0)
  }

  /** The length of the month k months after January. */
  function LengthIn(year: int, k: int): (n: int)
    ensures 28 <= n <= 31
  {
    if k == 1 then (if Leap(year) then 29 else 28)
    else if k == 3 || k == 5 || k == 8 || k == 10 then 30
    else 31
  }

  function MonthLength(month: int): (n: int)
    ensures 28 <= n <= 31
  {
    LengthIn(month / 12, month % 12)
  }

  /** The days of the first k months of the year. */
  function DaysInto(year: int, k: nat): int {
    if k == 0 then 0 else DaysInto(year, k - 1) + LengthIn(year, k - 1)
  }

  /** The years in [0, year) that k divides. */
  function Multiples(year: int, k: int): int
    requires k > 0
  {
    (year + k - 1) / k
  }

  /** The days before the year, from the start of year 0, which was a Saturday. */
  function YearStart(year: int): int {
    365 * year + Multiples(year, 4) - Multiples(year, 100) + Multiples(year, 400)
  }

  function DaysBefore(month: int): int {
    YearStart(month / 12) + DaysInto(month / 12, month % 12)
  }

  lemma NextMultiple(y: int, k: int)
    requires k == 4 || k == 100 || k == 400
    ensures Multiples(y + 1, k) == Multiples(y, k) + if y % k == 0 then 1 else 0
  {
  }

  lemma Centuries(y: int)
    ensures y % 400 == 0 ==> y % 100 == 0
    ensures y % 100 == 0 ==> y % 4 == 0
  {
  }

  lemma YearFollowsOn(y: int)
    ensures YearStart(y + 1) == YearStart(y) + DaysInto(y, 12)
  {
    NextMultiple(y, 4);
    NextMultiple(y, 100);
    NextMultiple(y, 400);
    Centuries(y);
    OneYear(y);
    hide DaysInto, Multiples;
  }

  lemma OneYear(y: int)
    ensures DaysInto(y, 12) == if Leap(y) then 366 else 365
  {
    assert DaysInto(y, 1) == 31;
    assert DaysInto(y, 2) == 31 + LengthIn(y, 1);
    assert DaysInto(y, 4) == DaysInto(y, 2) + 61;
    assert DaysInto(y, 6) == DaysInto(y, 4) + 61;
    assert DaysInto(y, 8) == DaysInto(y, 6) + 62;
    assert DaysInto(y, 10) == DaysInto(y, 8) + 61;
    assert DaysInto(y, 12) == DaysInto(y, 10) + 61;
  }

  /** The day numbers count the days of the Gregorian calendar: each month follows on the one
      before, across years and leap years. */
  lemma MonthsFollowOn(month: int)
    ensures DaysBefore(month + 1) == DaysBefore(month) + MonthLength(month)
  {
    var y, k := month / 12, month % 12;
    if k == 11 {
      YearFollowsOn(y);
      assert (month + 1) / 12 == y + 1 && (month + 1) % 12 == 0;
      assert DaysInto(y, 12) == DaysInto(y, 11) + LengthIn(y, 11);
    } else {
      assert (month + 1) / 12 == y && (month + 1) % 12 == k + 1;
    }
    hide YearStart, LengthIn;
  }

  // ----- rules -----------------------------------------------------------------------------

  datatype Freq = Daily | Weekly | Monthly | Yearly | OtherFreq

  /** An entry of BYDAY: a weekday, or the nth weekday. */
  datatype Entry = Entry(nth: Option<int>, day: int)

  datatype Rule = Rule(
    freq: Freq, interval: Option<int>,
    byDay: seq<Entry>, byMonthDay: Option<seq<int>>, byMonth: Option<seq<int>>, bySetPos: Option<seq<int>>,
    wkst: Option<int>, count: Option<nat>, until: Option<Date>)

  datatype Index = First | Second | Third | Fourth | Last

  datatype Pattern =
    | DailyPattern(interval: int)
    | WeeklyPattern(interval: int, daysOfWeek: seq<int>, firstDayOfWeek: int)
    | AbsoluteMonthly(interval: int, dayOfMonth: int)
    | RelativeMonthly(interval: int, daysOfWeek: seq<int>, index: Index)
    | AbsoluteYearly(interval: int, dayOfMonth: int, month: int)
    | RelativeYearly(interval: int, daysOfWeek: seq<int>, index: Index, month: int)

  datatype Range = NoEnd | EndDate(date: Date) | Numbered(n: nat)

  // ----- the translation -------------------------------------------------------------------

  function MapDays(byDay: seq<Entry>): seq<int> {
    seq(|byDay|, i requires 0 <= i < |byDay| => byDay[i].day)
  }

  /** _INDEX_MAP, where everything it does not hold becomes "first". */
  function IndexOf(n: int): Index {
    match n
    case 1 => First
    case 2 => Second
    case 3 => Third
    case 4 => Fourth
    case -1 => Last
    case _ => First
  }

  /** An ordinal on the first BYDAY entry wins over BYSETPOS. */
  function WeekIndex(r: Rule): Index
    requires r.byDay != []
  {
    if r.byDay[0].nth.Some? then IndexOf(r.byDay[0].nth.value)
    else if r.bySetPos.Some? && r.bySetPos.value != [] then IndexOf(r.bySetPos.value[0])
    else First
  }

  function FirstPositive(days: seq<int>): Option<int> {
    if days == [] then None else if days[0] > 0 then Some(days[0]) else FirstPositive(days[1..])
  }

  function DayOfMonth(r: Rule, start: Date): Option<int> {
    if r.byMonthDay.None? then Some(start.day) else FirstPositive(r.byMonthDay.value)
  }

  /** The first positive entry, if there is one. */
  lemma {:induction false} FirstPositiveIs(days: seq<int>)
    ensures match FirstPositive(days)
            case None => forall k <- days :: k <= 0
            case Some(k) => k > 0 && exists i :: 0 <= i < |days| && days[i] == k && forall j :: 0 <= j < i ==> days[j] <= 0
  {
    if days != [] && days[0] <= 0 {
      FirstPositiveIs(days[1..]);
      assert days == [days[0]] + days[1..];
      if FirstPositive(days).Some? {
        var i :| 0 <= i < |days[1..]| && days[1..][i] == FirstPositive(days).value && forall j :: 0 <= j < i ==> days[1..][j] <= 0;
        assert days[i + 1] == FirstPositive(days).value;
        assert forall j :: 0 <= j < i + 1 ==> days[j] <= 0;
      }
    }
  }

  function IntervalOf(r: Rule): int {
    if r.interval.None? || r.interval.value == 0 then 1 else r.interval.value
  }

  /** None where the month is 0 or cannot be read. */
  function MonthFor(r: Rule, start: Date): Option<int> {
    match r.byMonth
    case None => Some(start.MonthOfYear())
    case Some(ms) => if ms == [] || ms[0] == 0 then None else Some(ms[0])
  }

  function PatternOf(r: Rule, start: Date): Option<Pattern> {
    var n := IntervalOf(r);
    match r.freq
    case Daily => Some(DailyPattern(n))
    case Weekly =>
      Some(WeeklyPattern(n, if r.byDay != [] then MapDays(r.byDay) else [start.Weekday()],
                         if r.wkst.Some? then r.wkst.value else 0))
    case Monthly =>
      if r.byDay != [] && r.byMonthDay.None? then Some(RelativeMonthly(n, MapDays(r.byDay), WeekIndex(r)))
      else
        var day := DayOfMonth(r, start);
        if day.None? then None else Some(AbsoluteMonthly(n, day.value))
    case Yearly =>
      var month := MonthFor(r, start);
      if month.None? then None
      else if r.byDay != [] && r.byMonthDay.None? then
        Some(RelativeYearly(n, MapDays(r.byDay), WeekIndex(r), month.value))
      else
        var day := DayOfMonth(r, start);
        if day.None? then None else Some(AbsoluteYearly(n, day.value, month.value))
    case OtherFreq => None
  }

  /** Which rules are translated: daily and weekly ones; monthly and yearly ones on weekdays, or on a day of the
      month, if BYMONTHDAY is absent or has a positive day; yearly ones only if BYMONTH is absent or
      begins with a month. */
  lemma TranslatedWhen(r: Rule, start: Date)
    ensures PatternOf(r, start).Some? <==>
              && r.freq != OtherFreq
              && (r.freq == Monthly || r.freq == Yearly ==>
                    r.byMonthDay == None || exists k <- r.byMonthDay.value :: k > 0)
              && (r.freq == Yearly ==> r.byMonth == None || (r.byMonth.value != [] && r.byMonth.value[0] != 0))
  {
    if r.byMonthDay.Some? {
      var days := r.byMonthDay.value;
      FirstPositiveIs(days);
      if FirstPositive(days).Some? { assert FirstPositive(days).value in days; }
    }
    hide FirstPositive;
  }

  /** What a rule does not say, or Graph does not know: an interval that is absent or zero becomes one, and a
      position that is absent, or is not one of the first four or the last, becomes the first. */
  lemma Defaults(r: Rule, start: Date)
    requires PatternOf(r, start).Some?
    ensures PatternOf(r, start).value.interval
              == (if r.interval == None || r.interval == Some(0) then 1 else r.interval.value)
    ensures var p := PatternOf(r, start).value;
            (p.RelativeMonthly? || p.RelativeYearly?) && p.index != First ==>
              var n := if r.byDay[0].nth.Some? then r.byDay[0].nth.value else r.bySetPos.value[0];
              (n == 2 && p.index == Second) || (n == 3 && p.index == Third) || (n == 4 && p.index == Fourth) || (n == -1 && p.index == Last)
  {
    hide FirstPositive;
  }

  function RangeOf(r: Rule): Range {
    if r.count.Some? then Numbered(r.count.value)
    else if r.until.Some? then EndDate(r.until.value)
    else NoEnd
  }

  // ----- what a rule means -----------------------------------------------------------------

  function Week(d: Date, firstDay: int): int {
    (d.Number() + 5 - firstDay) / 7
  }

  function Every(r: Rule): (n: int)
    requires r.interval.Some? ==> r.interval.value > 0
    ensures n > 0
  {
    if r.interval.Some? then r.interval.value else 1
  }

  /** The day, week, month or year of the date is one the rule visits. */
  predicate Visited(r: Rule, start: Date, d: Date)
    requires r.interval.Some? ==> r.interval.value > 0
  {
    var n := Every(r);
    var wkst := if r.wkst.Some? then r.wkst.value else 0;
    match r.freq
    case Daily => (d.Number() - start.Number()) % n == 0
    case Weekly => (Week(d, wkst) - Week(start, wkst)) % n == 0
    case Monthly => (d.month - start.month) % n == 0
    case Yearly => (d.Year() - start.Year()) % n == 0
    case OtherFreq => false
  }

  /** The nth of its weekday, counted from the end when n is negative, within a span of days that
      the date is `offset` days into. */
  predicate NthIn(n: int, offset: int, length: int) {
    (n > 0 && offset / 7 + 1 == n) || (n < 0 && (length - 1 - offset) / 7 + 1 == -n)
  }

  predicate EntryHolds(r: Rule, e: Entry, d: Date) {
    d.Weekday() == e.day
    && (e.nth.Some? && (r.freq.Monthly? || r.freq.Yearly?) ==>
          if r.freq.Monthly? || r.byMonth.Some? then NthIn(e.nth.value, d.day - 1, MonthLength(d.month))
          else
            var january := 12 * d.Year();
            NthIn(e.nth.value, d.Number() - DaysBefore(january), DaysBefore(january + 12) - DaysBefore(january)))
  }

  predicate MonthDayHolds(k: int, d: Date) {
    if k > 0 then d.day == k else d.day == MonthLength(d.month) + 1 + k
  }

  /** The date is in the set of its period, before BYSETPOS. What the rule leaves out it takes from
      the start. */
  ghost predicate Candidate(r: Rule, start: Date, d: Date) {
    && (r.byMonth.Some? ==> d.MonthOfYear() in r.byMonth.value)
    && (r.byMonthDay.Some? ==> exists k <- r.byMonthDay.value :: MonthDayHolds(k, d))
    && (r.byDay != [] ==> exists e <- r.byDay :: EntryHolds(r, e, d))
    && (r.byDay == [] && r.freq.Weekly? ==> d.Weekday() == start.Weekday())
    && (r.byDay == [] && r.byMonthDay.None? && (r.freq.Monthly? || r.freq.Yearly?) ==> d.day == start.day)
    && (r.byDay == [] && r.byMonthDay.None? && r.freq.Yearly? && r.byMonth.None? ==>
          d.MonthOfYear() == start.MonthOfYear())
  }

  predicate SamePeriod(r: Rule, d: Date, e: Date) {
    var wkst := if r.wkst.Some? then r.wkst.value else 0;
    match r.freq
    case Daily => d == e
    case Weekly => Week(d, wkst) == Week(e, wkst)
    case Monthly => d.month == e.month
    case Yearly => d.Year() == e.Year()
    case OtherFreq => false
  }

  /** The candidates of its period up to the date, or from it on. */
  ghost function Ranked(r: Rule, start: Date, d: Date, upTo: bool): set<Date> {
    set m: int, k: int | d.month - 12 < m < d.month + 12 && 1 <= k <= MonthLength(m)
      && SamePeriod(r, d, Date(m, k)) && Candidate(r, start, Date(m, k))
      && (if upTo then Date(m, k).UpTo(d) else d.UpTo(Date(m, k)))
      :: Date(m, k)
  }

  ghost predicate AtPosition(r: Rule, start: Date, d: Date, p: int) {
    (p > 0 && |Ranked(r, start, d, true)| == p) || (p < 0 && |Ranked(r, start, d, false)| == -p)
  }

  ghost predicate Recurs(r: Rule, start: Date, d: Date)
    requires r.interval.Some? ==> r.interval.value > 0
  {
    && d.Valid() && start.UpTo(d) && Visited(r, start, d) && Candidate(r, start, d)
    && (r.bySetPos.Some? ==> exists p <- r.bySetPos.value :: AtPosition(r, start, d, p))
  }

  // ----- what a pattern means --------------------------------------------------------------

  /** How many of the first k days of the month fall on the weekdays. */
  function Instances(month: int, k: nat, days: seq<int>): nat {
    if k == 0 then 0
    else Instances(month, k - 1, days) + if Date(month, k).Weekday() in days then 1 else 0
  }

  /** The indexed instance of the allowed days, counted from the first in the month. */
  predicate Indexed(days: seq<int>, index: Index, d: Date)
    requires d.Valid()
  {
    d.Weekday() in days
    && match index
       case First => Instances(d.month, d.day, days) == 1
       case Second => Instances(d.month, d.day, days) == 2
       case Third => Instances(d.month, d.day, days) == 3
       case Fourth => Instances(d.month, d.day, days) == 4
       case Last => forall k :: d.day < k <= MonthLength(d.month) ==> Date(d.month, k).Weekday() !in days
  }

  /** A month too short for the day is skipped, or gives its last day; `clamps` says which. */
  predicate OnDay(day: int, d: Date, clamps: bool) {
    d.day == day || (clamps && MonthLength(d.month) < day && d.day == MonthLength(d.month))
  }

  predicate PatternHolds(p: Pattern, start: Date, d: Date, clamps: bool)
    requires d.Valid()
  {
    p.interval > 0 && start.UpTo(d)
    && match p
       case DailyPattern(n) => (d.Number() - start.Number()) % n == 0
       case WeeklyPattern(n, days, first) => d.Weekday() in days && (Week(d, first) - Week(start, first)) % n == 0
       case AbsoluteMonthly(n, day) => OnDay(day, d, clamps) && (d.month - start.month) % n == 0
       case RelativeMonthly(n, days, index) => Indexed(days, index, d) && (d.month - start.month) % n == 0
       case AbsoluteYearly(n, day, month) =>
         OnDay(day, d, clamps) && d.MonthOfYear() == month && (d.Year() - start.Year()) % n == 0
       case RelativeYearly(n, days, index, month) =>
         Indexed(days, index, d) && d.MonthOfYear() == month && (d.Year() - start.Year()) % n == 0
  }

  // ----- where the series ends -------------------------------------------------------------

  /** The dates of a series from the start up to d. */
  ghost function Past(series: Date -> bool, start: Date, d: Date): set<Date> {
    set m: int, k: int | start.month <= m <= d.month && 1 <= k <= MonthLength(m)
      && Date(m, k).UpTo(d) && series(Date(m, k))
      :: Date(m, k)
  }

  /** COUNT counts the occurrences from the start on; UNTIL is inclusive. */
  ghost predicate Within(count: Option<nat>, until: Option<Date>, series: Date -> bool, start: Date, d: Date) {
    && (count.Some? ==> |Past(series, start, d)| <= count.value)
    && (until.Some? ==> d.UpTo(until.value))
  }

  ghost predicate InRange(count: Option<nat>, until: Option<Date>, series: Date -> bool, start: Date, d: Date) {
    series(d) && Within(count, until, series, start, d)
  }

  /** The dates of the rule, before COUNT and UNTIL. */
  ghost function RuleSeries(r: Rule, start: Date): Date -> bool
    requires r.interval.Some? ==> r.interval.value > 0
  {
    (d: Date) => Recurs(r, start, d)
  }

  ghost function PatternSeries(p: Pattern, start: Date, clamps: bool): Date -> bool {
    (d: Date) => d.Valid() && PatternHolds(p, start, d, clamps)
  }

  ghost predicate Occurs(r: Rule, start: Date, d: Date)
    requires r.interval.Some? ==> r.interval.value > 0
  {
    InRange(r.count, r.until, RuleSeries(r, start), start, d)
  }

  ghost predicate GraphOccurs(p: Pattern, range: Range, start: Date, d: Date, clamps: bool) {
    match range
    case NoEnd => InRange(None, None, PatternSeries(p, start, clamps), start, d)
    case EndDate(date) => InRange(None, Some(date), PatternSeries(p, start, clamps), start, d)
    case Numbered(n) => InRange(Some(n), None, PatternSeries(p, start, clamps), start, d)
  }
}
