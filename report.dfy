/** The report page: expected completions prorated from a weekly target,
    the per-habit weekly dots (green met, red missed for good, gray still
    open) over 7-day windows anchored at the period's start, and the
    period-scoped statistics. */
module Report {
  import opened Rounding
  import opened HabitData

  // ---------------------------------------------------------------------------
  // Expected completions and percentages
  // ---------------------------------------------------------------------------

  /** `calculateExpectedCompletions`: round(frequency * days / 7). The
      result is the integer nearest to the exact quotient, and as the
      denominator is 7 that nearest integer is never a tie. */
  function ExpectedCompletions(days: int, frequency: int): (r: int)
    ensures -3 <= 7 * r - frequency * days <= 3
  {
    RoundDiv(frequency * days, 7)
  }

  /** A full week expects exactly the weekly target, no days expect nothing. */
  lemma ExpectedOneWeek(frequency: int)
    ensures ExpectedCompletions(7, frequency) == frequency
    ensures ExpectedCompletions(0, frequency) == 0
  {
  }

  /** More days never expect fewer completions (for a non-negative target),
      so the elapsed expectation never exceeds the whole period's. */
  lemma ExpectedMonotone(days1: int, days2: int, frequency: int)
    requires days1 <= days2 && frequency >= 0
    ensures ExpectedCompletions(days1, frequency) <= ExpectedCompletions(days2, frequency)
  {
    assert frequency * days1 <= frequency * days2 by {
      assert frequency * days2 - frequency * days1 == frequency * (days2 - days1);
    }
    RoundDivMonotone(frequency * days1, frequency * days2, 7);
  }

  /** `calculateHabitProgress` (and the per-habit and overall percentages):
      round(100 * part / whole), and 0 for an empty whole. */
  function Percent(part: int, whole: int): (p: int)
    ensures whole <= 0 ==> p == 0
    ensures whole > 0 && part >= 0 ==> -whole < 2 * (whole * p - 100 * part) <= whole
    ensures whole > 0 && part < 0 ==> -whole <= 2 * (whole * p - 100 * part) < whole
  {
    if whole > 0 then RoundDiv(100 * part, whole) else 0
  }

  /** A part of a whole gives a percentage in [0, 100], 100 exactly when the
      part is everything and 0 when it is nothing. */
  lemma PercentBounds(part: int, whole: int)
    requires 0 <= part <= whole && whole > 0
    ensures 0 <= Percent(part, whole) <= 100
    ensures part == whole ==> Percent(part, whole) == 100
    ensures part == 0 ==> Percent(part, whole) == 0
  {
    RoundDivMonotone(100 * part, 100 * whole, whole);
    RoundDivUnique(100 * whole, whole, 100);
    RoundDivUnique(0, whole, 0);
  }

  /** The overall percentage is not clamped: checks beyond the expected total
      push it past 100. */
  lemma PercentOverHundred(part: int, whole: int)
    requires whole > 0 && 200 * part >= 201 * whole
    ensures Percent(part, whole) > 100
  {
    var p := Percent(part, whole);
    if p <= 100 {
      MulUpTo(whole, p, 100);
    }
  }

  // ---------------------------------------------------------------------------
  // Elapsed days
  // ---------------------------------------------------------------------------

  /** Elapsed days, today included: none before the start, the whole period
      after the end. */
  function ElapsedDays(startDate: int, endDate: int, today: int): (n: int)
    ensures 0 <= n <= TrackingDays(startDate, endDate)
    ensures today < startDate ==> n == 0
    ensures today >= startDate && today > endDate ==> n == TrackingDays(startDate, endDate)
  {
    if today < startDate then 0
    else if today > endDate then TrackingDays(startDate, endDate)
    else Abs(today - startDate) + 1
  }

  /** Elapsed days never go down as time advances. */
  lemma ElapsedMonotone(startDate: int, endDate: int, today1: int, today2: int)
    requires today1 <= today2
    ensures ElapsedDays(startDate, endDate, today1) <= ElapsedDays(startDate, endDate, today2)
  {
  }

  /** Inside the period today is counted both as elapsed and as remaining. */
  lemma ElapsedAndRemaining(startDate: int, endDate: int, today: int)
    requires startDate <= today <= endDate
    ensures ElapsedDays(startDate, endDate, today) + DaysRemaining(endDate, today)
         == TrackingDays(startDate, endDate) + 1
  {
  }

  // ---------------------------------------------------------------------------
  // Weekly windows
  // ---------------------------------------------------------------------------

  /** A 7-day window (shorter at the end of the period), both ends included. */
  datatype Window = Window(first: int, last: int)

  /** Number of windows: ceil(trackingDays / 7) for a well-ordered period. */
  function WindowCount(startDate: int, endDate: int): int
  {
    if startDate > endDate then 0 else (endDate - startDate) / 7 + 1
  }

  /** The windows the report walks: starting at the start date, advancing by
      7 days, each ending 6 days later or at the end date. */
  function Windows(startDate: int, endDate: int): (ws: seq<Window>)
    ensures |ws| == WindowCount(startDate, endDate)
    ensures forall i :: 0 <= i < |ws| ==>
      ws[i].first == startDate + 7 * i && ws[i].last == Min(startDate + 7 * i + 6, endDate)
    decreases if startDate <= endDate then endDate - startDate + 1 else 0
  {
    if startDate > endDate then []
    else [Window(startDate, Min(startDate + 6, endDate))] + Windows(startDate + 7, endDate)
  }

  /** There are ceil(trackingDays / 7) windows. */
  lemma WindowCountIsCeiling(startDate: int, endDate: int)
    requires startDate <= endDate
    ensures WindowCount(startDate, endDate) == (TrackingDays(startDate, endDate) + 6) / 7
  {
  }

  /** The windows lie inside the period, in order, without overlapping, and
      the day `d` of the period lies in window (d - start) / 7. */
  lemma WindowsPartition(startDate: int, endDate: int, d: int)
    requires startDate <= d <= endDate
    ensures var ws := Windows(startDate, endDate);
      && (forall i :: 0 <= i < |ws| ==> startDate <= ws[i].first <= ws[i].last <= endDate)
      && (forall i, j :: 0 <= i < j < |ws| ==> ws[i].last < ws[j].first)
      && 0 <= (d - startDate) / 7 < |ws|
      && ws[(d - startDate) / 7].first <= d <= ws[(d - startDate) / 7].last
  {
  }

  // ---------------------------------------------------------------------------
  // Completions counted over a range of days
  // ---------------------------------------------------------------------------

  /** Days in [lo, hi] on which the habit is marked done. */
  function Completions(days: Log, name: string, lo: int, hi: int): (c: int)
    ensures 0 <= c <= (if lo <= hi then hi - lo + 1 else 0)
    decreases if lo <= hi then hi - lo + 1 else 0
  {
    if lo > hi then 0
    else Completions(days, name, lo, hi - 1) + (if IsDone(days, hi, name) then 1 else 0)
  }

  /** Counting over [lo, hi] is counting over [lo, mid] and then (mid, hi]. */
  lemma {:induction false} CompletionsSplit(days: Log, name: string, lo: int, mid: int, hi: int)
    requires lo - 1 <= mid <= hi
    ensures Completions(days, name, lo, hi)
         == Completions(days, name, lo, mid) + Completions(days, name, mid + 1, hi)
    decreases hi - mid
  {
    if mid < hi {
      CompletionsSplit(days, name, lo, mid, hi - 1);
    }
  }

  /** The dates of the log, among `dates`, inside [startDate, endDate] on
      which the habit is marked done. */
  function DoneDates(days: Log, name: string, startDate: int, endDate: int, dates: set<int>): set<int>
  {
    set d | d in dates && d in days && startDate <= d <= endDate && IsDone(days, d, name)
  }

  /** `$habitStats[$name]`: completions dated inside the period. */
  function PeriodCompletions(days: Log, name: string, startDate: int, endDate: int): nat
  {
    |DoneDates(days, name, startDate, endDate, days.Keys)|
  }

  /** Walking the period day by day (as the dots do) and walking the log's
      dates (as the statistics do) count the same completions. */
  lemma {:induction false} PeriodCompletionsByDay(days: Log, name: string, startDate: int, endDate: int)
    ensures PeriodCompletions(days, name, startDate, endDate) == Completions(days, name, startDate, endDate)
    decreases if startDate <= endDate then endDate - startDate + 1 else 0
  {
    var s := DoneDates(days, name, startDate, endDate, days.Keys);
    if startDate > endDate {
      assert s == {};
    } else {
      PeriodCompletionsByDay(days, name, startDate, endDate - 1);
      var s' := DoneDates(days, name, startDate, endDate - 1, days.Keys);
      if IsDone(days, endDate, name) {
        assert s == s' + {endDate};
      } else {
        assert s == s';
      }
    }
  }

  // ---------------------------------------------------------------------------
  // Dots
  // ---------------------------------------------------------------------------

  /** Green (met), red (missed, unrecoverable) and gray (open) dot counts. */
  datatype Dots = Dots(green: int, red: int, gray: int) {
    function Total(): int { green + red + gray }
    function Plus(other: Dots): Dots
    {
      Dots(green + other.green, red + other.red, gray + other.gray)
    }
  }

  const NoDots := Dots(0, 0, 0)

  /** One window's dots given its completion count: an elapsed window is
      green up to the target and red for the rest; a future window is all
      gray; the current window is green up to the target, red for what the
      days after today can no longer reach, gray for what they still can.
      Whatever the case, the window contributes exactly `frequency` dots. */
  function WindowDots(completions: int, frequency: int, w: Window, today: int): (d: Dots)
    ensures d.Total() == frequency
    ensures completions >= 0 ==> d.green <= completions
    ensures frequency >= 0 && completions >= 0 ==> d.green >= 0 && d.red >= 0 && d.gray >= 0
  {
    if w.last < today then
      Dots(Min(completions, frequency), Max(0, frequency - completions), 0)
    else if w.first > today then
      Dots(0, 0, frequency)
    else
      var daysRemaining := Abs(today - w.last);
      var maxPossible := completions + daysRemaining;
      Dots(Min(completions, frequency), Max(0, frequency - maxPossible),
           Max(0, Min(daysRemaining, frequency - completions)))
  }

  /** An elapsed window: the target is either met (all green) or the shortfall
      is red; nothing is left gray. */
  lemma ElapsedWindow(c: int, f: int, w: Window, today: int)
    requires w.last < today
    ensures WindowDots(c, f, w, today).gray == 0
    ensures WindowDots(c, f, w, today).green + WindowDots(c, f, w, today).red == f
    ensures WindowDots(c, f, w, today).green == f <==> c >= f
  {
  }

  /** A future window is entirely gray. */
  lemma FutureWindow(c: int, f: int, w: Window, today: int)
    requires w.first <= w.last && today < w.first
    ensures WindowDots(c, f, w, today) == Dots(0, 0, f)
  {
  }

  /** The current window: with r = last - today days still to come, red
      appears exactly when even r more completions cannot reach the target,
      and gray never exceeds r. */
  lemma CurrentWindow(c: int, f: int, w: Window, today: int)
    requires w.first <= today <= w.last && c >= 0
    ensures var d := WindowDots(c, f, w, today);
      && (d.red > 0 <==> c + (w.last - today) < f)
      && d.gray <= w.last - today
      && (d.green == f <==> c >= f)
  {
  }

  /** The dots of a run of windows, each scored on its own completions:
      nothing carries over from one window to the next. */
  function SumDots(days: Log, name: string, frequency: int, ws: seq<Window>, today: int): Dots
  {
    if ws == [] then NoDots
    else
      WindowDots(Completions(days, name, ws[0].first, ws[0].last), frequency, ws[0], today)
        .Plus(SumDots(days, name, frequency, ws[1..], today))
  }

  /** A habit's dots over the whole period. */
  function WeeklyDots(days: Log, name: string, frequency: int, startDate: int, endDate: int, today: int): Dots
  {
    SumDots(days, name, frequency, Windows(startDate, endDate), today)
  }

  /** Every window contributes `frequency` dots. */
  lemma {:induction false} SumDotsTotal(days: Log, name: string, frequency: int, ws: seq<Window>, today: int)
    ensures SumDots(days, name, frequency, ws, today).Total() == frequency * |ws|
    decreases |ws|
  {
    if ws != [] {
      var first := WindowDots(Completions(days, name, ws[0].first, ws[0].last), frequency, ws[0], today);
      var rest := SumDots(days, name, frequency, ws[1..], today);
      SumDotsTotal(days, name, frequency, ws[1..], today);
      TotalStep(first, rest, frequency, |ws|);
      assert SumDots(days, name, frequency, ws, today) == first.Plus(rest);
    }
  }

  /** One more window of `frequency` dots. */
  lemma TotalStep(first: Dots, rest: Dots, f: int, m: int)
    requires first.Total() == f && rest.Total() == f * (m - 1)
    ensures first.Plus(rest).Total() == f * m
  {
    MulSucc(f, m - 1);
  }

  lemma MulSucc(f: int, n: int)
    ensures f * (n + 1) == f + f * n
  {
  }

  /** A habit's dot count is its target times the number of windows. */
  lemma WeeklyDotsTotal(days: Log, name: string, frequency: int, startDate: int, endDate: int, today: int)
    ensures WeeklyDots(days, name, frequency, startDate, endDate, today).Total()
         == frequency * WindowCount(startDate, endDate)
  {
    SumDotsTotal(days, name, frequency, Windows(startDate, endDate), today);
  }

  /** Green dots never exceed the completions inside the windows. */
  lemma {:induction false} SumDotsGreen(days: Log, name: string, frequency: int, ws: seq<Window>, today: int)
    ensures SumDots(days, name, frequency, ws, today).green <= SumCompletions(days, name, ws)
  {
    if ws != [] {
      SumDotsGreen(days, name, frequency, ws[1..], today);
    }
  }

  /** Completions counted window by window. */
  function SumCompletions(days: Log, name: string, ws: seq<Window>): int
  {
    if ws == [] then 0
    else Completions(days, name, ws[0].first, ws[0].last) + SumCompletions(days, name, ws[1..])
  }

  /** The windows cover the period exactly once: counting window by window
      counts every completion of the period once. */
  lemma {:induction false} WindowsCountPeriod(days: Log, name: string, startDate: int, endDate: int)
    ensures SumCompletions(days, name, Windows(startDate, endDate)) == Completions(days, name, startDate, endDate)
    decreases if startDate <= endDate then endDate - startDate + 1 else 0
  {
    if startDate <= endDate {
      var ws := Windows(startDate, endDate);
      assert ws[1..] == Windows(startDate + 7, endDate);
      WindowsCountPeriod(days, name, startDate + 7, endDate);
      var mid := Min(startDate + 6, endDate);
      CompletionsSplit(days, name, startDate, mid, endDate);
      if mid == endDate {
        assert Windows(startDate + 7, endDate) == [];
      }
    }
  }

  /** No banking: a habit never shows more green dots than the completions
      dated inside the period. */
  lemma GreenAtMostCompletions(days: Log, name: string, frequency: int, startDate: int, endDate: int, today: int)
    ensures WeeklyDots(days, name, frequency, startDate, endDate, today).green
         <= PeriodCompletions(days, name, startDate, endDate)
  {
    SumDotsGreen(days, name, frequency, Windows(startDate, endDate), today);
    WindowsCountPeriod(days, name, startDate, endDate);
    PeriodCompletionsByDay(days, name, startDate, endDate);
  }

  /** Once every window is over nothing is gray. */
  lemma {:induction false} SumDotsPast(days: Log, name: string, frequency: int, ws: seq<Window>, today: int)
    requires forall i :: 0 <= i < |ws| ==> ws[i].last < today
    ensures SumDots(days, name, frequency, ws, today).gray == 0
  {
    if ws != [] {
      assert forall i :: 0 <= i < |ws[1..]| ==> ws[1..][i] == ws[i + 1];
      SumDotsPast(days, name, frequency, ws[1..], today);
    }
  }

  /** Before any window starts everything is gray. */
  lemma {:induction false} SumDotsFuture(days: Log, name: string, frequency: int, ws: seq<Window>, today: int)
    requires forall i :: 0 <= i < |ws| ==> today < ws[i].first <= ws[i].last
    ensures SumDots(days, name, frequency, ws, today) == Dots(0, 0, frequency * |ws|)
  {
    if ws != [] {
      assert forall i :: 0 <= i < |ws[1..]| ==> ws[1..][i] == ws[i + 1];
      SumDotsFuture(days, name, frequency, ws[1..], today);
      MulSucc(frequency, |ws[1..]|);
    }
  }

  /** After the end of the period every dot is green or red; before its start
      every dot is gray. */
  lemma WeeklyDotsOutsidePeriod(days: Log, name: string, frequency: int, startDate: int, endDate: int, today: int)
    ensures endDate < today ==> WeeklyDots(days, name, frequency, startDate, endDate, today).gray == 0
    ensures today < startDate ==>
      WeeklyDots(days, name, frequency, startDate, endDate, today) == Dots(0, 0, frequency * WindowCount(startDate, endDate))
  {
    var ws := Windows(startDate, endDate);
    if endDate < today {
      SumDotsPast(days, name, frequency, ws, today);
    }
    if today < startDate {
      SumDotsFuture(days, name, frequency, ws, today);
    }
  }

  /** The per-habit percentage (report.php:282-283): green over all dots. */
  function HabitPercent(d: Dots): (p: int)
    ensures d.Total() <= 0 ==> p == 0
  {
    Percent(d.green, d.Total())
  }

  /** With a non-negative target the per-habit percentage lies in [0, 100]. */
  lemma HabitPercentBounds(days: Log, name: string, frequency: int, startDate: int, endDate: int, today: int)
    requires frequency >= 0
    ensures 0 <= HabitPercent(WeeklyDots(days, name, frequency, startDate, endDate, today)) <= 100
  {
    var d := WeeklyDots(days, name, frequency, startDate, endDate, today);
    SumDotsSigns(days, name, frequency, Windows(startDate, endDate), today);
    if d.Total() > 0 {
      PercentBounds(d.green, d.Total());
    }
  }

  lemma {:induction false} SumDotsSigns(days: Log, name: string, frequency: int, ws: seq<Window>, today: int)
    requires frequency >= 0
    ensures var d := SumDots(days, name, frequency, ws, today); d.green >= 0 && d.red >= 0 && d.gray >= 0
  {
    if ws != [] {
      SumDotsSigns(days, name, frequency, ws[1..], today);
    }
  }

  /** Peeling off the first window of the period: the dots so far plus the
      dots from `weekStart` on are the dots so far, plus this window's, plus
      the dots from the next window on. */
  lemma WeeklyDotsStep(acc: Dots, days: Log, name: string, frequency: int, weekStart: int, endDate: int, today: int)
    requires weekStart <= endDate
    ensures var weekEnd := Min(weekStart + 6, endDate);
      acc.Plus(WeeklyDots(days, name, frequency, weekStart, endDate, today))
      == acc.Plus(WindowDots(Completions(days, name, weekStart, weekEnd), frequency, Window(weekStart, weekEnd), today))
            .Plus(WeeklyDots(days, name, frequency, weekStart + 7, endDate, today))
  {
    var weekEnd := Min(weekStart + 6, endDate);
    assert Windows(weekStart, endDate) == [Window(weekStart, weekEnd)] + Windows(weekStart + 7, endDate);
  }

  /** The inner loop of `calculateWeeklyDots`: count, day by day, the days
      of [weekStart, weekEnd] on which the habit is marked done. */
  method CountWeekCompletions(days: Log, habitName: string, weekStart: int, weekEnd: int)
    returns (weekCompletions: int)
    ensures weekCompletions == Completions(days, habitName, weekStart, weekEnd)
  {
    weekCompletions := 0;
    var checkDate := weekStart;
    while checkDate <= weekEnd
      invariant weekStart <= checkDate
      invariant checkDate <= weekEnd + 1 || checkDate == weekStart
      invariant weekCompletions == Completions(days, habitName, weekStart, checkDate - 1)
      decreases weekEnd - checkDate + 1
    {
      if checkDate in days && habitName in days[checkDate] && days[checkDate][habitName] {
        weekCompletions := weekCompletions + 1;
      }
      checkDate := checkDate + 1;
    }
  }

  /** The body of the window loop of `calculateWeeklyDots`: add one window's
      dots to the running counts according to where the window lies
      relative to today. */
  method AddWindowDots(greenDots: int, redDots: int, grayDots: int, weekCompletions: int, frequency: int,
                       weekStart: int, weekEnd: int, currentDate: int)
    returns (green: int, red: int, gray: int)
    ensures Dots(green, red, gray)
         == Dots(greenDots, redDots, grayDots).Plus(WindowDots(weekCompletions, frequency, Window(weekStart, weekEnd), currentDate))
  {
    green, red, gray := greenDots, redDots, grayDots;
    if weekEnd < currentDate {
      green := green + Min(weekCompletions, frequency);
      red := red + Max(0, frequency - weekCompletions);
    } else if weekStart > currentDate {
      gray := gray + frequency;
    } else {
      var daysRemaining := Abs(currentDate - weekEnd);
      var maxPossible := weekCompletions + daysRemaining;
      green := green + Min(weekCompletions, frequency);
      var impossibleToRecover := Max(0, frequency - maxPossible);
      var stillAchievable := Max(0, Min(daysRemaining, frequency - weekCompletions));
      red := red + impossibleToRecover;
      gray := gray + stillAchievable;
    }
  }

  /** `calculateWeeklyDots`: walk the windows from the start date, count
      each window's completions day by day, and add its dots. */
  method CalculateWeeklyDots(days: Log, habitName: string, frequency: int, startDate: int, endDate: int, currentDate: int)
    returns (dots: Dots)
    ensures dots == WeeklyDots(days, habitName, frequency, startDate, endDate, currentDate)
  {
    var greenDots, redDots, grayDots := 0, 0, 0;
    var weekStart := startDate;
    while weekStart <= endDate
      invariant Dots(greenDots, redDots, grayDots).Plus(WeeklyDots(days, habitName, frequency, weekStart, endDate, currentDate))
             == WeeklyDots(days, habitName, frequency, startDate, endDate, currentDate)
      decreases endDate - weekStart + 1
    {
      var weekEnd := weekStart + 6;
      if weekEnd > endDate {
        weekEnd := endDate;
      }

      var weekCompletions := CountWeekCompletions(days, habitName, weekStart, weekEnd);

      WeeklyDotsStep(Dots(greenDots, redDots, grayDots), days, habitName, frequency, weekStart, endDate, currentDate);
      greenDots, redDots, grayDots := AddWindowDots(greenDots, redDots, grayDots, weekCompletions, frequency,
                                                    weekStart, weekEnd, currentDate);
      weekStart := weekStart + 7;
    }
    dots := Dots(greenDots, redDots, grayDots);
  }

  // ---------------------------------------------------------------------------
  // Period statistics
  // ---------------------------------------------------------------------------

  /** No later column shares the name of column i. */
  predicate IsLastWithName(cols: seq<Habit>, i: int)
    requires 0 <= i < |cols|
  {
    forall j :: i < j < |cols| ==> cols[j].name != cols[i].name
  }

  /** `$habitFrequencies`: each name's frequency, a later column with the
      same name overriding an earlier one. */
  function FrequencyMap(cols: seq<Habit>): (m: map<string, int>)
    ensures m.Keys == NameSet(cols)
    ensures forall i :: 0 <= i < |cols| ==> cols[i].name in m
    ensures forall i :: 0 <= i < |cols| && IsLastWithName(cols, i) ==> m[cols[i].name] == cols[i].frequency
  {
    if cols == [] then map[]
    else
      var init, h := cols[..|cols| - 1], cols[|cols| - 1];
      assert cols == init + [h];
      NameSetAppend(init, h);
      assert forall i :: 0 <= i < |init| && IsLastWithName(cols, i) ==> IsLastWithName(init, i);
      FrequencyMap(init)[h.name := h.frequency]
  }

  /** With unique names every habit's own frequency is the one recorded. */
  lemma FrequencyMapUnique(cols: seq<Habit>, i: int)
    requires UniqueNames(cols) && 0 <= i < |cols|
    ensures FrequencyMap(cols)[cols[i].name] == cols[i].frequency
  {
    assert IsLastWithName(cols, i);
  }

  /** Every recorded frequency is some column's frequency. */
  lemma {:induction false} FrequencyMapFrom(cols: seq<Habit>, n: string)
    requires n in FrequencyMap(cols)
    ensures exists i :: 0 <= i < |cols| && FrequencyMap(cols)[n] == cols[i].frequency
  {
    var init, h := cols[..|cols| - 1], cols[|cols| - 1];
    if n != h.name {
      FrequencyMapFrom(init, n);
      var i :| 0 <= i < |init| && FrequencyMap(init)[n] == init[i].frequency;
      assert cols[i] == init[i];
    }
  }

  /** The sum over the name list (duplicates counted each time) of the
      expected completions over `days` days. */
  function TotalExpected(names: seq<string>, frequencies: map<string, int>, days: int): int
    requires forall i :: 0 <= i < |names| ==> names[i] in frequencies
  {
    if names == [] then 0
    else
      TotalExpected(names[..|names| - 1], frequencies, days)
        + ExpectedCompletions(days, frequencies[names[|names| - 1]])
  }

  /** Expectations grow with the number of days: what is expected so far
      never exceeds what the whole period expects (non-negative targets). */
  lemma {:induction false} TotalExpectedMonotone(names: seq<string>, frequencies: map<string, int>, days1: int, days2: int)
    requires forall i :: 0 <= i < |names| ==> names[i] in frequencies && frequencies[names[i]] >= 0
    requires days1 <= days2
    ensures TotalExpected(names, frequencies, days1) <= TotalExpected(names, frequencies, days2)
  {
    if names != [] {
      TotalExpectedMonotone(names[..|names| - 1], frequencies, days1, days2);
      ExpectedMonotone(days1, days2, frequencies[names[|names| - 1]]);
    }
  }

  /** Each name's expected completions over `days` days. */
  function ExpectedPerName(names: set<string>, frequencies: map<string, int>, days: int): map<string, int>
    requires names <= frequencies.Keys
  {
    map n | n in names :: ExpectedCompletions(days, frequencies[n])
  }

  /** Each name's truthy entries inside the period. */
  function CompletionsPerName(days: Log, names: set<string>, startDate: int, endDate: int): map<string, int>
  {
    map n | n in names :: PeriodCompletions(days, n, startDate, endDate)
  }

  /** The statistics of `calculateReportStats`. */
  datatype ReportStats = ReportStats(
    trackingDays: int,
    elapsedDays: int,
    daysRemaining: int,
    habitStats: map<string, int>,
    habitExpected: map<string, int>,
    habitElapsedExpected: map<string, int>,
    habitFrequencies: map<string, int>,
    totalChecks: int,
    totalPossible: int,
    totalElapsedPossible: int,
    progressPercent: int)

  /** What `calculateReportStats` computes, as one value. */
  ghost function ReportStatsOf(doc: Doc, today: int): ReportStats
  {
    var trackingDays := TrackingDays(doc.startDate, doc.endDate);
    var elapsedDays := ElapsedDays(doc.startDate, doc.endDate, today);
    var names := NameSet(doc.columns);
    var frequencies := FrequencyMap(doc.columns);
    var counts := CompletionsPerName(doc.days, names, doc.startDate, doc.endDate);
    var totalChecks := SumValues(counts);
    var totalPossible := TotalExpected(Names(doc.columns), frequencies, trackingDays);
    ReportStats(trackingDays, elapsedDays, DaysRemaining(doc.endDate, today), counts,
                ExpectedPerName(names, frequencies, trackingDays),
                ExpectedPerName(names, frequencies, elapsedDays), frequencies, totalChecks,
                totalPossible, TotalExpected(Names(doc.columns), frequencies, elapsedDays),
                Percent(totalChecks, totalPossible))
  }

  /** Adding a date to the dates looked at adds at most that date. */
  lemma DoneDatesAdd(days: Log, name: string, startDate: int, endDate: int, dates: set<int>, d: int)
    requires d !in dates
    ensures |DoneDates(days, name, startDate, endDate, dates + {d})|
         == |DoneDates(days, name, startDate, endDate, dates)|
            + (if d in days && startDate <= d <= endDate && IsDone(days, d, name) then 1 else 0)
  {
    var before := DoneDates(days, name, startDate, endDate, dates);
    if d in days && startDate <= d <= endDate && IsDone(days, d, name) {
      assert DoneDates(days, name, startDate, endDate, dates + {d}) == before + {d};
    } else {
      assert DoneDates(days, name, startDate, endDate, dates + {d}) == before;
    }
  }

  /** One more column extends the name list and records its frequency. */
  lemma CollectStep(cols: seq<Habit>, i: int)
    requires 0 <= i < |cols|
    ensures Names(cols[..i + 1]) == Names(cols[..i]) + [cols[i].name]
    ensures FrequencyMap(cols[..i + 1]) == FrequencyMap(cols[..i])[cols[i].name := cols[i].frequency]
  {
    assert cols[..i + 1][..i] == cols[..i];
  }

  /** The first loop of `calculateReportStats`: the names in order and the
      name-to-frequency map. */
  method CollectHabits(columns: seq<Habit>) returns (habitNames: seq<string>, habitFrequencies: map<string, int>)
    ensures habitNames == Names(columns)
    ensures habitFrequencies == FrequencyMap(columns)
  {
    habitNames, habitFrequencies := [], map[];
    var i := 0;
    while i < |columns|
      invariant 0 <= i <= |columns|
      invariant habitNames == Names(columns[..i])
      invariant habitFrequencies == FrequencyMap(columns[..i])
    {
      var habit := columns[i];
      CollectStep(columns, i);
      habitNames := habitNames + [habit.name];
      habitFrequencies := habitFrequencies[habit.name := habit.frequency];
      i := i + 1;
    }
    assert columns[..i] == columns;
  }

  /** The counts after crediting every name of `credited` whose entry is truthy. */
  function Credited(counts: map<string, int>, habits: DayLog, credited: set<string>): (m: map<string, int>)
    ensures m.Keys == counts.Keys
  {
    map n | n in counts :: counts[n] + (if n in credited && n in habits && habits[n] then 1 else 0)
  }

  /** Crediting one more entry adds one to that name's count when it is
      truthy and registered, and changes nothing otherwise. */
  lemma CreditedStep(counts: map<string, int>, habits: DayLog, credited: set<string>, habit: string,
                     before: map<string, int>)
    requires habit in habits && habit !in credited
    requires before == Credited(counts, habits, credited)
    ensures Credited(counts, habits, credited + {habit})
         == if habits[habit] && habit in before then before[habit := before[habit] + 1] else before
  {
  }

  /** The registered names of `credited` whose entry is truthy. */
  function Credits(counts: map<string, int>, habits: DayLog, credited: set<string>): set<string>
  {
    set n | n in credited && n in habits && habits[n] && n in counts
  }

  /** Crediting one more entry credits one more name exactly when the entry
      is truthy and registered. */
  lemma CreditsStep(counts: map<string, int>, habits: DayLog, credited: set<string>, habit: string)
    requires habit in habits && habit !in credited
    ensures |Credits(counts, habits, credited + {habit})|
         == |Credits(counts, habits, credited)| + (if habits[habit] && habit in counts then 1 else 0)
  {
    if habits[habit] && habit in counts {
      assert Credits(counts, habits, credited + {habit}) == Credits(counts, habits, credited) + {habit};
    } else {
      assert Credits(counts, habits, credited + {habit}) == Credits(counts, habits, credited);
    }
  }

  /** Crediting nothing changes nothing. */
  lemma CreditedNone(counts: map<string, int>, habits: DayLog)
    ensures Credited(counts, habits, {}) == counts
    ensures Credits(counts, habits, {}) == {}
  {
  }

  /** Removing one credited entry takes back its credit from the sum. */
  lemma SumCreditedLess(counts: map<string, int>, habits: DayLog, credited: set<string>, habit: string)
    requires habit in credited && credited <= habits.Keys
    ensures SumValues(Credited(counts, habits, credited))
         == SumValues(Credited(counts, habits, credited - {habit})) + if habits[habit] && habit in counts then 1 else 0
  {
    var rest := credited - {habit};
    assert rest + {habit} == credited;
    var before := Credited(counts, habits, rest);
    var after := Credited(counts, habits, credited);
    CreditedStep(counts, habits, rest, habit, before);
    if habits[habit] && habit in counts {
      assert after == before[habit := before[habit] + 1];
      SumValuesIncrement(before, habit);
    } else {
      assert after == before;
    }
  }

  /** Removing one entry takes back its credit from the names credited. */
  lemma CreditsLess(counts: map<string, int>, habits: DayLog, credited: set<string>, habit: string)
    requires habit in credited && credited <= habits.Keys
    ensures |credited - {habit}| < |credited|
    ensures |Credits(counts, habits, credited)|
         == |Credits(counts, habits, credited - {habit})| + if habits[habit] && habit in counts then 1 else 0
  {
    var rest := credited - {habit};
    assert rest + {habit} == credited;
    CreditsStep(counts, habits, rest, habit);
  }

  /** Crediting adds to the sum exactly the number of names credited. */
  lemma {:induction false} SumCredited(counts: map<string, int>, habits: DayLog, credited: set<string>)
    requires credited <= habits.Keys
    ensures SumValues(Credited(counts, habits, credited)) == SumValues(counts) + |Credits(counts, habits, credited)|
    decreases |credited|
  {
    if credited == {} {
      CreditedNone(counts, habits);
    } else {
      var x := Pick(credited);
      SumCreditedLess(counts, habits, credited, x);
      CreditsLess(counts, habits, credited, x);
      SumCredited(counts, habits, credited - {x});
    }
  }

  /** One entry of a date: a truthy entry for a registered name counts once
      for that name and once in the total. */
  method CreditEntry(habits: DayLog, habit: string, habitStats: map<string, int>, totalChecks: int)
    returns (stats: map<string, int>, total: int)
    requires habit in habits
    ensures stats == if habits[habit] && habit in habitStats then habitStats[habit := habitStats[habit] + 1] else habitStats
    ensures total == totalChecks + if habits[habit] && habit in habitStats then 1 else 0
  {
    stats, total := habitStats, totalChecks;
    if habits[habit] && habit in stats {
      stats := stats[habit := stats[habit] + 1];
      total := total + 1;
    }
  }

  /** One turn of the inner counting loop: taking `habit` off the entries
      still to visit credits it. */
  lemma CountDayStep(habitStats: map<string, int>, habits: DayLog, todo: set<string>, habit: string,
                     stats: map<string, int>)
    requires habit in todo && todo <= habits.Keys
    requires stats == Credited(habitStats, habits, habits.Keys - todo)
    ensures Credited(habitStats, habits, habits.Keys - (todo - {habit}))
         == if habits[habit] && habit in stats then stats[habit := stats[habit] + 1] else stats
    ensures |Credits(habitStats, habits, habits.Keys - (todo - {habit}))|
         == |Credits(habitStats, habits, habits.Keys - todo)| + if habits[habit] && habit in stats then 1 else 0
  {
    assert habits.Keys - (todo - {habit}) == (habits.Keys - todo) + {habit};
    CreditedStep(habitStats, habits, habits.Keys - todo, habit, stats);
    CreditsStep(habitStats, habits, habits.Keys - todo, habit);
  }

  /** Before the inner loop nothing is credited. */
  lemma CountDayStart(habitStats: map<string, int>, habits: DayLog)
    ensures Credited(habitStats, habits, habits.Keys - habits.Keys) == habitStats
    ensures |Credits(habitStats, habits, habits.Keys - habits.Keys)| == 0
  {
    assert habits.Keys - habits.Keys == {};
    assert Credits(habitStats, habits, {}) == {};
  }

  /** The inner counting loop of `calculateReportStats` over one date's
      entries: each registered name whose entry is truthy counts once more,
      and so does the total. */
  method CountDay(habits: DayLog, habitStats: map<string, int>, totalChecks: int)
    returns (stats: map<string, int>, total: int)
    requires totalChecks == SumValues(habitStats)
    ensures stats == Credited(habitStats, habits, habits.Keys)
    ensures total == SumValues(stats)
  {
    stats, total := habitStats, totalChecks;
    var todo := habits.Keys;
    CountDayStart(habitStats, habits);
    while todo != {}
      invariant todo <= habits.Keys
      invariant stats == Credited(habitStats, habits, habits.Keys - todo)
      invariant total == totalChecks + |Credits(habitStats, habits, habits.Keys - todo)|
      decreases todo
    {
      // `member` only witnesses that the choice below has a candidate
      ghost var member := Pick(todo);
      var habit :| habit in todo;
      CountDayStep(habitStats, habits, todo, habit, stats);
      stats, total := CreditEntry(habits, habit, stats, total);
      todo := todo - {habit};
    }
    // every entry is now credited, and the sum has grown by the names credited
    assert habits.Keys - todo == habits.Keys;
    SumCredited(habitStats, habits, habits.Keys);
  }

  /** Each name's truthy entries inside the period among the given dates. */
  ghost function SeenCounts(days: Log, names: set<string>, startDate: int, endDate: int, dates: set<int>): map<string, int>
  {
    map n | n in names :: |DoneDates(days, n, startDate, endDate, dates)|
  }

  /** Looking at one more date adds one for each name done on that date,
      when the date lies inside the period. */
  lemma SeenCountsStep(days: Log, names: set<string>, startDate: int, endDate: int, seen: set<int>, date: int,
                       before: map<string, int>, after: map<string, int>)
    requires date !in seen
    requires before == SeenCounts(days, names, startDate, endDate, seen)
    requires after.Keys == before.Keys
    requires forall n :: n in after ==>
      after[n] == before[n] + (if startDate <= date <= endDate && IsDone(days, date, n) then 1 else 0)
    ensures after == SeenCounts(days, names, startDate, endDate, seen + {date})
  {
    forall n | n in names
      ensures after[n] == |DoneDates(days, n, startDate, endDate, seen + {date})|
    {
      DoneDatesAdd(days, n, startDate, endDate, seen, date);
    }
  }

  /** Looking at every date gives the period's completions. */
  lemma SeenCountsAll(days: Log, names: set<string>, startDate: int, endDate: int)
    ensures SeenCounts(days, names, startDate, endDate, days.Keys) == CompletionsPerName(days, names, startDate, endDate)
  {
  }

  /** Before any date is looked at every count is zero. */
  lemma SeenCountsNone(days: Log, names: set<string>, startDate: int, endDate: int)
    ensures SeenCounts(days, names, startDate, endDate, {}) == map n | n in names :: 0
  {
    forall n | n in names
      ensures DoneDates(days, n, startDate, endDate, {}) == {}
    {
    }
  }

  /** One date of the counting loop: a date inside the period has its entries counted. */
  method CountDate(days: Log, date: int, startDate: int, endDate: int, habitStats: map<string, int>, totalChecks: int)
    returns (stats: map<string, int>, total: int)
    requires date in days
    requires totalChecks == SumValues(habitStats)
    ensures stats.Keys == habitStats.Keys
    ensures forall n :: n in stats ==>
      stats[n] == habitStats[n] + (if startDate <= date <= endDate && IsDone(days, date, n) then 1 else 0)
    ensures total == SumValues(stats)
  {
    stats, total := habitStats, totalChecks;
    if startDate <= date && date <= endDate {
      stats, total := CountDay(days[date], habitStats, totalChecks);
    }
  }

  /** The counting loop of `calculateReportStats`: every truthy entry dated
      inside the period, for a registered name, counts once for that name
      and once in the total. */
  method CountCompletions(days: Log, habitNames: seq<string>, startDate: int, endDate: int)
    returns (habitStats: map<string, int>, totalChecks: int)
    ensures habitStats == CompletionsPerName(days, Members(habitNames), startDate, endDate)
    ensures totalChecks == SumValues(habitStats)
  {
    ghost var names := Members(habitNames);
    habitStats := map n | n in Members(habitNames) :: 0;
    totalChecks := 0;
    ZeroSum(habitStats);
    SeenCountsNone(days, names, startDate, endDate);
    var pending := days.Keys;
    ghost var seen: set<int> := {};
    while pending != {}
      invariant seen !! pending && seen + pending == days.Keys
      invariant habitStats == SeenCounts(days, names, startDate, endDate, seen)
      invariant totalChecks == SumValues(habitStats)
      decreases pending
    {
      // `member` only witnesses that the choice below has a candidate
      ghost var member := Pick(pending);
      var date :| date in pending;
      ghost var before := habitStats;
      habitStats, totalChecks := CountDate(days, date, startDate, endDate, habitStats, totalChecks);
      SeenCountsStep(days, names, startDate, endDate, seen, date, before, habitStats);
      seen := seen + {date};
      pending := pending - {date};
    }
    assert seen == days.Keys;
    SeenCountsAll(days, names, startDate, endDate);
  }

  lemma {:induction false} ZeroSum<K>(m: map<K, int>)
    requires forall k :: k in m ==> m[k] == 0
    ensures SumValues(m) == 0
    decreases |m|
  {
    if |m| > 0 {
      var k := Pick(m.Keys);
      assert |m - {k}| < |m|;
      ZeroSum(m - {k});
    }
  }

  /** One more name of the list adds its expectation to the per-name map
      and to the total. */
  lemma ExpectationsStep(names: seq<string>, frequencies: map<string, int>, days: int, i: int)
    requires Members(names) <= frequencies.Keys && 0 <= i < |names|
    ensures names[i] in frequencies
    ensures ExpectedPerName(Members(names[..i + 1]), frequencies, days)
         == ExpectedPerName(Members(names[..i]), frequencies, days)[names[i] := ExpectedCompletions(days, frequencies[names[i]])]
    ensures TotalExpected(names[..i + 1], frequencies, days)
         == TotalExpected(names[..i], frequencies, days) + ExpectedCompletions(days, frequencies[names[i]])
  {
    assert names[i] in Members(names);
    assert names[..i + 1] == names[..i] + [names[i]];
    assert names[..i + 1][..i] == names[..i];
    assert Members(names[..i + 1]) == Members(names[..i]) + {names[i]};
  }

  /** The expectation loop of `calculateReportStats`: per name, the expected
      completions over the period and so far, and their totals. */
  method SumExpectations(habitNames: seq<string>, habitFrequencies: map<string, int>, trackingDays: int, elapsedDays: int)
    returns (habitExpected: map<string, int>, habitElapsedExpected: map<string, int>,
             totalPossible: int, totalElapsedPossible: int)
    requires Members(habitNames) <= habitFrequencies.Keys
    ensures habitExpected == ExpectedPerName(Members(habitNames), habitFrequencies, trackingDays)
    ensures habitElapsedExpected == ExpectedPerName(Members(habitNames), habitFrequencies, elapsedDays)
    ensures totalPossible == TotalExpected(habitNames, habitFrequencies, trackingDays)
    ensures totalElapsedPossible == TotalExpected(habitNames, habitFrequencies, elapsedDays)
  {
    habitExpected, habitElapsedExpected := map[], map[];
    totalPossible, totalElapsedPossible := 0, 0;
    var i := 0;
    while i < |habitNames|
      invariant 0 <= i <= |habitNames|
      invariant habitExpected == ExpectedPerName(Members(habitNames[..i]), habitFrequencies, trackingDays)
      invariant habitElapsedExpected == ExpectedPerName(Members(habitNames[..i]), habitFrequencies, elapsedDays)
      invariant totalPossible == TotalExpected(habitNames[..i], habitFrequencies, trackingDays)
      invariant totalElapsedPossible == TotalExpected(habitNames[..i], habitFrequencies, elapsedDays)
    {
      var name := habitNames[i];
      ExpectationsStep(habitNames, habitFrequencies, trackingDays, i);
      ExpectationsStep(habitNames, habitFrequencies, elapsedDays, i);
      var freq := habitFrequencies[name];
      var expected := ExpectedCompletions(trackingDays, freq);
      var elapsedExpected := ExpectedCompletions(elapsedDays, freq);
      habitExpected := habitExpected[name := expected];
      habitElapsedExpected := habitElapsedExpected[name := elapsedExpected];
      totalPossible := totalPossible + expected;
      totalElapsedPossible := totalElapsedPossible + elapsedExpected;
      i := i + 1;
    }
    assert habitNames[..i] == habitNames;
  }

  /** `calculateReportStats`: the period's length, elapsed and remaining
      days, per-habit completions inside the period, per-habit and total
      expectations, and the overall percentage (not clamped at 100). */
  method CalculateReportStats(doc: Doc, today: int) returns (stats: ReportStats)
    ensures stats == ReportStatsOf(doc, today)
  {
    var startDate, endDate := doc.startDate, doc.endDate;
    var trackingDays := Abs(endDate - startDate) + 1;
    var daysRemaining;
    if today > endDate {
      daysRemaining := 0;
    } else {
      daysRemaining := Max(0, Abs(endDate - today) + 1);
    }
    var elapsedDays;
    if today < startDate {
      elapsedDays := 0;
    } else if today > endDate {
      elapsedDays := trackingDays;
    } else {
      elapsedDays := Abs(today - startDate) + 1;
    }

    var habitNames, habitFrequencies := CollectHabits(doc.columns);
    var habitStats, totalChecks := CountCompletions(doc.days, habitNames, startDate, endDate);
    var habitExpected, habitElapsedExpected, totalPossible, totalElapsedPossible :=
      SumExpectations(habitNames, habitFrequencies, trackingDays, elapsedDays);
    var progressPercent := if totalPossible > 0 then RoundDiv(100 * totalChecks, totalPossible) else 0;

    assert trackingDays == TrackingDays(startDate, endDate);
    assert elapsedDays == ElapsedDays(startDate, endDate, today);
    assert daysRemaining == DaysRemaining(endDate, today);
    assert Members(habitNames) == NameSet(doc.columns);
    assert progressPercent == Percent(totalChecks, totalPossible);
    stats := ReportStats(trackingDays, elapsedDays, daysRemaining, habitStats, habitExpected,
                         habitElapsedExpected, habitFrequencies, totalChecks, totalPossible,
                         totalElapsedPossible, progressPercent);
  }

  /** Each registered habit's count is its completions inside the period,
      and the total is their sum. */
  lemma ReportCounts(doc: Doc, today: int, n: string)
    ensures var stats := ReportStatsOf(doc, today);
      stats.habitStats.Keys == NameSet(doc.columns)
      && stats.totalChecks == SumValues(stats.habitStats)
      && (n in stats.habitStats ==> stats.habitStats[n] == PeriodCompletions(doc.days, n, doc.startDate, doc.endDate))
  {
  }

  /** What is expected so far never exceeds the period's expectation when
      every target is non-negative. */
  lemma ElapsedExpectationBounded(doc: Doc, today: int)
    requires forall i :: 0 <= i < |doc.columns| ==> doc.columns[i].frequency >= 0
    ensures var stats := ReportStatsOf(doc, today);
      stats.totalElapsedPossible <= stats.totalPossible
  {
    var m := FrequencyMap(doc.columns);
    var names := Names(doc.columns);
    forall i | 0 <= i < |names| ensures names[i] in m && m[names[i]] >= 0 {
      FrequencyMapFrom(doc.columns, names[i]);
    }
    TotalExpectedMonotone(names, m, ElapsedDays(doc.startDate, doc.endDate, today),
                          TrackingDays(doc.startDate, doc.endDate));
  }
}
