/** The tracking page: the period header with its progress bar, the
    checkbox handler that edits the completion log in place, and the grid
    of checkboxes, one row per day of the period. */
module Tracker {
  import opened Rounding
  import opened HabitData

  // ---------------------------------------------------------------------------
  // The period header
  // ---------------------------------------------------------------------------

  /** What `calculateTrackingInfo` reports besides the dates themselves. */
  datatype TrackingInfo = TrackingInfo(trackingDays: int, daysRemaining: int, progressPercent: int)

  /** `calculateTrackingInfo`: once the period is over nothing remains and
      the bar is full; otherwise the bar shows the share of days gone by,
      rounded, and capped at 100. */
  function CalculateTrackingInfo(startDate: int, endDate: int, today: int): (info: TrackingInfo)
    ensures info.trackingDays == TrackingDays(startDate, endDate)
    ensures info.daysRemaining == DaysRemaining(endDate, today)
    ensures today > endDate ==> info.progressPercent == 100
    ensures info.progressPercent <= 100
  {
    var trackingDays := TrackingDays(startDate, endDate);
    if today > endDate then
      TrackingInfo(trackingDays, 0, 100)
    else
      var daysRemaining := Max(0, Abs(endDate - today) + 1);
      TrackingInfo(trackingDays, daysRemaining, Min(100, RoundDiv(100 * (trackingDays - daysRemaining), trackingDays)))
  }

  /** Inside the period the days gone by before today are what the bar
      measures: it lies in [0, 100], and it is full only when at least
      99.5% of the period has gone by (which takes a period of 200 days or
      more, as today itself still remains). */
  lemma ProgressInPeriod(startDate: int, endDate: int, today: int)
    requires startDate <= today <= endDate
    ensures var p := CalculateTrackingInfo(startDate, endDate, today).progressPercent;
      0 <= p <= 100
      && (p == 100 <==> 200 * (today - startDate) >= 199 * TrackingDays(startDate, endDate))
  {
    var td := TrackingDays(startDate, endDate);
    assert td - DaysRemaining(endDate, today) == today - startDate;
    ShareOfPeriod(today - startDate, td);
  }

  /** The rounded percentage of k days out of td, for 0 <= k < td. */
  lemma ShareOfPeriod(k: int, td: int)
    requires 0 <= k < td
    ensures var r := RoundDiv(100 * k, td);
      0 <= r <= 100 && (r == 100 <==> 200 * k >= 199 * td)
  {
    var r := RoundDiv(100 * k, td);
    RoundDivMonotone(100 * k, 100 * td, td);
    RoundDivUnique(100 * td, td, 100);
    if r < 100 {
      MulUpTo(td, r, 99);
    }
  }

  /** The cap at 100 never takes effect: whenever the period is not over,
      at least today remains, so the rounded share never exceeds 100. */
  lemma CapNeverBinds(startDate: int, endDate: int, today: int)
    requires today <= endDate
    ensures var info := CalculateTrackingInfo(startDate, endDate, today);
      RoundDiv(100 * (info.trackingDays - info.daysRemaining), info.trackingDays) <= 100
  {
    var info := CalculateTrackingInfo(startDate, endDate, today);
    var td := info.trackingDays;
    RoundDivMonotone(100 * (td - info.daysRemaining), 100 * td, td);
    RoundDivUnique(100 * td, td, 100);
  }

  /** Before the start there is no lower bound: the bar goes negative as
      soon as the days still to wait reach half a percent of the period. */
  lemma ProgressBeforeStart(startDate: int, endDate: int, today: int)
    requires today < startDate <= endDate
    ensures var p := CalculateTrackingInfo(startDate, endDate, today).progressPercent;
      p <= 0 && (p < 0 <==> 200 * (startDate - today) >= TrackingDays(startDate, endDate))
  {
    var td := TrackingDays(startDate, endDate);
    assert td - DaysRemaining(endDate, today) == today - startDate;
    ShareBeforeStart(startDate - today, td);
  }

  /** The rounded percentage of -k days out of td, for k > 0. */
  lemma ShareBeforeStart(k: int, td: int)
    requires k > 0 && td > 0
    ensures var r := RoundDiv(-100 * k, td);
      r <= 0 && (r < 0 <==> 200 * k >= td)
  {
    var r := RoundDiv(-100 * k, td);
    if r <= -1 {
      MulUpTo(td, r, -1);
    } else {
      MulUpTo(td, 0, r);
    }
  }

  /** The bar never goes back as the days pass. */
  lemma ProgressMonotone(startDate: int, endDate: int, today1: int, today2: int)
    requires today1 <= today2
    ensures CalculateTrackingInfo(startDate, endDate, today1).progressPercent
         <= CalculateTrackingInfo(startDate, endDate, today2).progressPercent
  {
    if today2 <= endDate {
      var td := TrackingDays(startDate, endDate);
      var n1 := 100 * (td - DaysRemaining(endDate, today1));
      var n2 := 100 * (td - DaysRemaining(endDate, today2));
      RoundDivMonotone(n1, n2, td);
    }
  }

  // ---------------------------------------------------------------------------
  // The checkbox handler
  // ---------------------------------------------------------------------------

  /** Ticking a box: the date's entries gain the habit, stored as `true`. */
  function Check(days: Log, day: int, column: string): (r: Log)
    ensures r.Keys == days.Keys + {day}
    ensures forall d, c :: IsSet(r, d, c) <==> (d == day && c == column) || IsSet(days, d, c)
    ensures IsDone(r, day, column)
    ensures forall d, c :: IsSet(days, d, c) && (d != day || c != column) ==> IsSet(r, d, c) && r[d][c] == days[d][c]
    ensures forall d :: d in days && d != day ==> r[d] == days[d]
  {
    days[day := DayOf(days, day)[column := true]]
  }

  /** Unticking a box: the habit leaves the date's entries, and a date left
      with no entries leaves the log; an absent date stays absent. */
  function Uncheck(days: Log, day: int, column: string): (r: Log)
    ensures forall d, c :: IsSet(r, d, c) <==> IsSet(days, d, c) && (d != day || c != column)
    ensures forall d, c :: IsSet(r, d, c) ==> IsSet(days, d, c) && r[d][c] == days[d][c]
    ensures forall d :: d != day ==> (d in r <==> d in days)
    ensures forall d :: d in days && d != day ==> r[d] == days[d]
    ensures day in r <==> day in days && days[day] - {column} != map[]
  {
    if day in days then
      var entries := days[day] - {column};
      assert forall c :: c in days[day] && c != column ==> c in entries;
      if entries == map[] then days - {day} else days[day := entries]
    else
      days
  }

  /** What a saved request does to the log. */
  function Update(days: Log, day: int, column: string, checked: bool): Log
  {
    if checked then Check(days, day, column) else Uncheck(days, day, column)
  }

  /** Either edit keeps the log free of empty dates. */
  lemma UpdateKeepsNoEmptyDates(days: Log, day: int, column: string, checked: bool)
    requires NoEmptyDates(days)
    ensures NoEmptyDates(Update(days, day, column, checked))
  {
    var r := Update(days, day, column, checked);
    forall d | d in r
      ensures r[d] != map[]
    {
      if checked {
        assert column in r[day];
      }
    }
  }

  /** After an edit the box reads as requested and every other box and
      every stored value reads as before. */
  lemma UpdateSetsOneBox(days: Log, day: int, column: string, checked: bool)
    ensures IsSet(Update(days, day, column, checked), day, column) == checked
    ensures forall d, c :: d != day || c != column ==>
      IsSet(Update(days, day, column, checked), d, c) == IsSet(days, d, c)
  {
  }

  /** Ticking a box that was empty and then unticking it restores the log
      exactly, provided the log had no empty dates to begin with. */
  lemma CheckThenUncheck(days: Log, day: int, column: string)
    requires NoEmptyDates(days) && !IsSet(days, day, column)
    ensures Uncheck(Check(days, day, column), day, column) == days
  {
    var r := Uncheck(Check(days, day, column), day, column);
    if day in days {
      assert Check(days, day, column)[day] - {column} == days[day];
    }
    assert r.Keys == days.Keys;
  }

  /** Unticking a box that was ticked and then ticking it again restores
      the log exactly. */
  lemma UncheckThenCheck(days: Log, day: int, column: string)
    requires IsSet(days, day, column) && days[day][column]
    ensures Check(Uncheck(days, day, column), day, column) == days
  {
    var r := Check(Uncheck(days, day, column), day, column);
    assert r[day] == days[day];
    assert r.Keys == days.Keys;
  }

  /** Repeating a request changes nothing more. */
  lemma UpdateIdempotent(days: Log, day: int, column: string, checked: bool)
    ensures Update(Update(days, day, column, checked), day, column, checked) == Update(days, day, column, checked)
  {
    if checked {
      CheckIdempotent(days, day, column);
    } else {
      UncheckIdempotent(days, day, column);
    }
  }

  lemma CheckIdempotent(days: Log, day: int, column: string)
    ensures Check(Check(days, day, column), day, column) == Check(days, day, column)
  {
    var once := Check(days, day, column);
    assert once[day][column := true] == once[day];
  }

  lemma UncheckIdempotent(days: Log, day: int, column: string)
    ensures Uncheck(Uncheck(days, day, column), day, column) == Uncheck(days, day, column)
  {
    var once := Uncheck(days, day, column);
    if day in once {
      assert once[day] - {column} == once[day];
    }
    assert Uncheck(once, day, column).Keys == once.Keys;
  }

  /** `handleCheckboxUpdate`: a request naming an empty day or an empty
      habit (PHP `empty`, so "0" too) is ignored and nothing is saved;
      otherwise the box is ticked or unticked in place and the document is
      saved. The day arrives already parsed: `None` stands for an empty one. */
  method HandleCheckboxUpdate(doc: Document, day: Option<int>, column: string, checked: bool) returns (saved: bool)
    modifies doc
    ensures saved <==> day.Some? && !IsEmptyString(column)
    ensures !saved ==> doc.Value() == old(doc.Value())
    ensures saved ==> doc.days == Update(old(doc.days), day.value, column, checked)
    ensures doc.columns == old(doc.columns)
    ensures doc.startDate == old(doc.startDate) && doc.endDate == old(doc.endDate)
  {
    if day.None? || IsEmptyString(column) {
      return false;
    }
    var d := day.value;
    if checked {
      var entries := if d in doc.days then doc.days[d] else map[];
      doc.days := doc.days[d := entries[column := true]];
    } else if d in doc.days {
      var entries := doc.days[d] - {column};
      doc.days := doc.days[d := entries];
      if entries == map[] {
        doc.days := doc.days - {d};
      }
    }
    saved := true;
  }

  // ---------------------------------------------------------------------------
  // The grid
  // ---------------------------------------------------------------------------

  /** One row of the grid: its date, whether it is today's row, and one box
      per habit in list order. */
  datatype GridRow = GridRow(date: int, isToday: bool, checked: seq<bool>)

  /** The boxes of one row: a box is ticked when an entry exists for that
      date and habit, whatever value is stored. */
  method BuildRow(doc: Doc, date: int, today: int) returns (row: GridRow)
    ensures row.date == date && row.isToday == (date == today)
    ensures |row.checked| == |doc.columns|
    ensures forall j :: 0 <= j < |doc.columns| ==> row.checked[j] == IsSet(doc.days, date, doc.columns[j].name)
  {
    var checked := [];
    var j := 0;
    while j < |doc.columns|
      invariant 0 <= j <= |doc.columns|
      invariant |checked| == j
      invariant forall k :: 0 <= k < j ==> checked[k] == IsSet(doc.days, date, doc.columns[k].name)
    {
      var columnName := doc.columns[j].name;
      checked := checked + [date in doc.days && columnName in doc.days[date]];
      j := j + 1;
    }
    row := GridRow(date, date == today, checked);
  }

  /** The grid body: one row per tracked day, row i dated i days after the
      start; when the period runs forwards the last row is its end. */
  method BuildGrid(doc: Doc, today: int) returns (rows: seq<GridRow>)
    ensures |rows| == TrackingDays(doc.startDate, doc.endDate)
    ensures forall i :: 0 <= i < |rows| ==>
      rows[i].date == doc.startDate + i && rows[i].isToday == (rows[i].date == today)
      && |rows[i].checked| == |doc.columns|
    ensures forall i, j :: 0 <= i < |rows| && 0 <= j < |doc.columns| ==>
      rows[i].checked[j] == IsSet(doc.days, doc.startDate + i, doc.columns[j].name)
    ensures doc.startDate <= doc.endDate ==> rows[|rows| - 1].date == doc.endDate
  {
    var trackingDays := TrackingDays(doc.startDate, doc.endDate);
    rows := [];
    var i := 0;
    while i < trackingDays
      invariant 0 <= i <= trackingDays
      invariant |rows| == i
      invariant forall k :: 0 <= k < i ==>
        rows[k].date == doc.startDate + k && rows[k].isToday == (rows[k].date == today)
        && |rows[k].checked| == |doc.columns|
      invariant forall k, j :: 0 <= k < i && 0 <= j < |doc.columns| ==>
        rows[k].checked[j] == IsSet(doc.days, doc.startDate + k, doc.columns[j].name)
    {
      var row := BuildRow(doc, doc.startDate + i, today);
      rows := rows + [row];
      i := i + 1;
    }
  }
}
