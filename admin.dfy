/** The admin page: looking habits up by name, the statistics panel, and the
    request handlers that edit the habit list, the log and the tracking
    period before the document is saved. */
module Admin {
  import opened Rounding
  import opened HabitData
  import Report
  import Tracker

  // ---------------------------------------------------------------------------
  // Looking a habit up by name
  // ---------------------------------------------------------------------------

  /** Position i holds the first habit called `name`. */
  predicate FirstMatch(cols: seq<Habit>, name: string, i: int)
  {
    0 <= i < |cols| && cols[i].name == name && forall j :: 0 <= j < i ==> cols[j].name != name
  }

  /** The position of the first habit called `name`, if any. */
  function FirstIndex(cols: seq<Habit>, name: string): (r: Option<nat>)
    ensures r.None? <==> name !in Names(cols)
    ensures r.Some? ==> FirstMatch(cols, name, r.value)
  {
    if |cols| == 0 then None
    else if cols[0].name == name then Some(0)
    else
      var rest := FirstIndex(cols[1..], name);
      assert Names(cols) == [cols[0].name] + Names(cols[1..]);
      match rest
      case None => None
      case Some(i) => Some(i + 1)
  }

  /** `getHabitByName`: the first habit with that name, or nothing. */
  function GetHabitByName(cols: seq<Habit>, name: string): (r: Option<Habit>)
    ensures r.None? <==> name !in NameSet(cols)
    ensures r.Some? ==> r.value.name == name
    ensures r.Some? ==> exists i :: FirstMatch(cols, name, i) && r.value == cols[i]
  {
    match FirstIndex(cols, name)
    case None => None
    case Some(i) => Some(cols[i])
  }

  /** With unique names the lookup finds the one habit of that name. */
  lemma GetHabitByNameUnique(cols: seq<Habit>, i: int)
    requires UniqueNames(cols) && 0 <= i < |cols|
    ensures GetHabitByName(cols, cols[i].name) == Some(cols[i])
  {
    var r := GetHabitByName(cols, cols[i].name);
    assert cols[i].name in Names(cols);
    var k :| FirstMatch(cols, cols[i].name, k) && r.value == cols[k];
    assert !(k < i) && !(i < k);
  }

  // ---------------------------------------------------------------------------
  // The statistics panel
  // ---------------------------------------------------------------------------

  /** What `calculateStats` hands to the page. */
  datatype AdminStats = AdminStats(
    habitsCount: int,
    trackingDays: int,
    daysWithData: int,
    totalChecks: int,
    startDate: int,
    endDate: int,
    columns: seq<Habit>)

  /** Each date's number of entries. */
  function EntrySizes(days: Log): (m: map<int, int>)
    ensures m.Keys == days.Keys
  {
    map d | d in days :: |days[d]|
  }

  /** All entries of the log, over every date and whatever their value. */
  ghost function EntryCount(days: Log): int
  {
    SumValues(EntrySizes(days))
  }

  /** `calculateStats`: counts over the whole log, not only the period.
      Since no date is kept without entries, there are at least as many
      entries as dates. */
  ghost function CalculateStats(doc: Doc): (s: AdminStats)
    ensures s.habitsCount == |doc.columns| && s.daysWithData == |doc.days|
    ensures s.trackingDays >= 1
    ensures NoEmptyDates(doc.days) ==> s.daysWithData <= s.totalChecks
  {
    EntriesAtLeastDates(doc.days);
    AdminStats(|doc.columns|, TrackingDays(doc.startDate, doc.endDate), |doc.days|,
               EntryCount(doc.days), doc.startDate, doc.endDate, doc.columns)
  }

  lemma EntriesAtLeastDates(days: Log)
    ensures NoEmptyDates(days) ==> |days| <= EntryCount(days)
  {
    if NoEmptyDates(days) {
      var m := EntrySizes(days);
      forall d | d in m
        ensures m[d] >= 1
      {
        assert days[d] != map[];
      }
      SumValuesAtLeastSize(m);
      assert |m| == |m.Keys| == |days.Keys| == |days|;
    }
  }

  /** Ticking an empty box adds one entry to the total. */
  lemma EntryCountCheck(days: Log, day: int, column: string)
    requires !IsSet(days, day, column)
    ensures EntryCount(Tracker.Check(days, day, column)) == EntryCount(days) + 1
  {
    var entries := DayOf(days, day)[column := true];
    assert Tracker.Check(days, day, column) == days[day := entries];
    assert |entries| == |DayOf(days, day)| + 1;
    if day in days {
      EntryCountGrow(days, day, entries);
    } else {
      EntryCountAdd(days, day, entries);
    }
  }

  /** A date whose entries grow by one adds one to the total. */
  lemma EntryCountGrow(days: Log, day: int, entries: DayLog)
    requires day in days && |entries| == |days[day]| + 1
    ensures EntryCount(days[day := entries]) == EntryCount(days) + 1
  {
    var m := EntrySizes(days);
    assert EntrySizes(days[day := entries]) == m[day := m[day] + 1];
    SumValuesIncrement(m, day);
  }

  /** A new date adds its entries to the total. */
  lemma EntryCountAdd(days: Log, day: int, entries: DayLog)
    requires day !in days
    ensures EntryCount(days[day := entries]) == EntryCount(days) + |entries|
  {
    var m := EntrySizes(days);
    assert EntrySizes(days[day := entries]) == m[day := |entries|];
    SumValuesInsert(m, day, |entries|);
  }

  /** Unticking a ticked box removes one entry from the total. */
  lemma EntryCountUncheck(days: Log, day: int, column: string)
    requires IsSet(days, day, column)
    ensures EntryCount(Tracker.Uncheck(days, day, column)) == EntryCount(days) - 1
  {
    var r := Tracker.Uncheck(days, day, column);
    var entries := days[day] - {column};
    assert |entries| == |days[day]| - 1;
    if entries == map[] {
      assert r == days - {day};
      assert r[day := days[day]] == days;
      EntryCountAdd(r, day, days[day]);
    } else {
      assert r == days[day := entries];
      assert r[day := days[day]] == days;
      EntryCountGrow(r, day, days[day]);
    }
  }

  /** An empty log has no entries. */
  lemma EntryCountEmpty()
    ensures EntryCount(map[]) == 0
  {
    assert EntrySizes(map[]) == map[];
  }

  // ---------------------------------------------------------------------------
  // Adding a habit
  // ---------------------------------------------------------------------------

  /** `max(1, min(7, $frequency))`: a weekly target between once and daily. */
  function Clamp(frequency: int): (f: int)
    ensures 1 <= f <= 7
    ensures 1 <= frequency <= 7 ==> f == frequency
    ensures frequency < 1 ==> f == 1
    ensures frequency > 7 ==> f == 7
  {
    Max(1, Min(7, frequency))
  }

  /** The characters PHP `trim` strips by default: space, tab, newline,
      carriage return, NUL and vertical tab. */
  predicate IsBlank(c: char)
  {
    c == ' ' || c == '\t' || c == '\n' || c == '\r' || c == '\0' || c == '\U{000B}'
  }

  /** Leading blanks removed: the longest suffix that does not start with one. */
  function TrimLeft(s: string): (r: string)
    ensures |r| <= |s| && r == s[|s| - |r|..]
    ensures forall i :: 0 <= i < |s| - |r| ==> IsBlank(s[i])
    ensures r != [] ==> !IsBlank(r[0])
    decreases |s|
  {
    if s != [] && IsBlank(s[0]) then TrimLeft(s[1..]) else s
  }

  /** Trailing blanks removed: the longest prefix that does not end with one. */
  function TrimRight(s: string): (r: string)
    ensures |r| <= |s| && r == s[..|r|]
    ensures forall i :: |r| <= i < |s| ==> IsBlank(s[i])
    ensures r != [] ==> !IsBlank(r[|r| - 1])
    decreases |s|
  {
    if s != [] && IsBlank(s[|s| - 1]) then TrimRight(s[..|s| - 1]) else s
  }

  /** PHP `trim`. */
  function Trim(s: string): (r: string)
    ensures |r| <= |s|
    ensures r != [] ==> !IsBlank(r[0]) && !IsBlank(r[|r| - 1])
  {
    TrimRight(TrimLeft(s))
  }

  /** Blanks only: what both ends of a trimmed string are made of. */
  predicate AllBlank(s: string)
  {
    forall i :: 0 <= i < |s| ==> IsBlank(s[i])
  }

  /** A string that neither starts nor ends with a blank. */
  predicate Unpadded(s: string)
  {
    s == [] || (!IsBlank(s[0]) && !IsBlank(s[|s| - 1]))
  }

  /** Trimming removes exactly the blank padding around the text: whatever
      blanks surround an unpadded string, trimming gives that string back. */
  lemma TrimPadding(lead: string, text: string, trail: string)
    requires AllBlank(lead) && AllBlank(trail) && Unpadded(text)
    ensures Trim(lead + text + trail) == text
  {
    var s := lead + text + trail;
    var l := TrimLeft(s);
    var k := |s| - |l|;
    if text == [] {
      assert AllBlank(s) by {
        forall i | 0 <= i < |s|
          ensures IsBlank(s[i])
        {
          if i < |lead| {
            assert s[i] == lead[i];
          } else {
            assert s[i] == trail[i - |lead|];
          }
        }
      }
      assert l == [];
    } else {
      assert s[|lead|] == text[0];
      assert forall i :: 0 <= i < |lead| ==> s[i] == lead[i];
      assert k == |lead|;
      assert l == text + trail;
      var r := TrimRight(l);
      assert forall i :: |text| <= i < |l| ==> l[i] == trail[i - |text|];
      assert l[|text| - 1] == text[|text| - 1];
      assert |r| == |text|;
      assert r == l[..|text|] == text;
    }
  }

  /** Trimming twice trims once. */
  lemma TrimIdempotent(s: string)
    ensures Trim(Trim(s)) == Trim(s)
  {
    var t := Trim(s);
    TrimPadding([], t, []);
    assert [] + t + [] == t;
  }

  /** The name `add_habit` stores: the request's name, trimmed. */
  predicate AddAccepted(cols: seq<Habit>, habitName: string)
  {
    !IsEmptyString(Trim(habitName)) && Trim(habitName) !in Names(cols)
  }

  /** Appending a new name keeps the names unique and adds exactly that name. */
  lemma AppendKeepsUnique(cols: seq<Habit>, h: Habit)
    requires UniqueNames(cols) && h.name !in NameSet(cols)
    ensures UniqueNames(cols + [h])
    ensures NameSet(cols + [h]) == NameSet(cols) + {h.name}
  {
    NameSetAppend(cols, h);
    var r := cols + [h];
    forall i, j | 0 <= i < j < |r|
      ensures r[i].name != r[j].name
    {
      if j == |cols| {
        assert Names(cols)[i] == cols[i].name;
      }
    }
  }

  /** `add_habit`: a trimmed, truthy, new name is appended with its target
      clamped to 1..7; anything else leaves the document alone. */
  method AddHabit(doc: Document, habitName: string, frequency: int) returns (saved: bool)
    modifies doc
    ensures saved <==> AddAccepted(old(doc.columns), habitName)
    ensures saved ==> doc.columns == old(doc.columns) + [Habit(Trim(habitName), Clamp(frequency))]
    ensures !saved ==> doc.columns == old(doc.columns)
    ensures UniqueNames(old(doc.columns)) ==> UniqueNames(doc.columns)
    ensures doc.days == old(doc.days)
    ensures doc.startDate == old(doc.startDate) && doc.endDate == old(doc.endDate)
  {
    var name := Trim(habitName);
    var f := Clamp(frequency);
    var habitNames := Names(doc.columns);
    saved := false;
    if !IsEmptyString(name) && name !in habitNames {
      if UniqueNames(doc.columns) {
        AppendKeepsUnique(doc.columns, Habit(name, f));
      }
      doc.columns := doc.columns + [Habit(name, f)];
      saved := true;
    }
  }

  // ---------------------------------------------------------------------------
  // Changing a habit's weekly target
  // ---------------------------------------------------------------------------

  /** The list after `update_habit_frequency`: the first habit with that name
      gets the new target; every other position is untouched. */
  function WithFrequency(cols: seq<Habit>, name: string, frequency: int): (r: seq<Habit>)
    ensures |r| == |cols|
    ensures forall i :: 0 <= i < |cols| ==>
      r[i] == if FirstMatch(cols, name, i) then Habit(name, frequency) else cols[i]
    ensures name !in Names(cols) ==> r == cols
  {
    match FirstIndex(cols, name)
    case None => cols
    case Some(k) =>
      assert forall i :: FirstMatch(cols, name, i) ==> i == k;
      cols[k := Habit(name, frequency)]
  }

  /** Changing a target keeps the names, in order, and so keeps them unique. */
  lemma WithFrequencyKeepsNames(cols: seq<Habit>, name: string, frequency: int)
    ensures Names(WithFrequency(cols, name, frequency)) == Names(cols)
    ensures UniqueNames(cols) ==> UniqueNames(WithFrequency(cols, name, frequency))
  {
    var r := WithFrequency(cols, name, frequency);
    assert forall i :: 0 <= i < |r| ==> r[i].name == cols[i].name;
    assert Names(r) == Names(cols);
  }

  /** After the change the habit reads back with the new target. */
  lemma WithFrequencyReadsBack(cols: seq<Habit>, name: string, frequency: int)
    requires name in Names(cols)
    ensures GetHabitByName(WithFrequency(cols, name, frequency), name) == Some(Habit(name, frequency))
  {
    var r := WithFrequency(cols, name, frequency);
    var k := FirstIndex(cols, name).value;
    assert FirstMatch(r, name, k) by {
      assert r[k] == Habit(name, frequency);
      assert forall j :: 0 <= j < k ==> r[j] == cols[j];
    }
    var g := GetHabitByName(r, name);
    var i :| FirstMatch(r, name, i) && g.value == r[i];
    assert !(i < k) && !(k < i);
  }

  /** `update_habit_frequency`: walk the list and rewrite the first habit of
      that name, then stop; the document is saved whether or not one matched. */
  method UpdateHabitFrequency(doc: Document, habitName: string, frequency: int)
    modifies doc
    ensures doc.columns == WithFrequency(old(doc.columns), habitName, Clamp(frequency))
    ensures doc.days == old(doc.days)
    ensures doc.startDate == old(doc.startDate) && doc.endDate == old(doc.endDate)
  {
    var f := Clamp(frequency);
    var i := 0;
    while i < |doc.columns|
      invariant 0 <= i <= |doc.columns|
      invariant doc.columns == old(doc.columns)
      invariant forall j :: 0 <= j < i ==> doc.columns[j].name != habitName
      invariant doc.days == old(doc.days)
      invariant doc.startDate == old(doc.startDate) && doc.endDate == old(doc.endDate)
    {
      if doc.columns[i].name == habitName {
        assert FirstMatch(doc.columns, habitName, i);
        doc.columns := doc.columns[i := Habit(habitName, f)];
        return;
      }
      i := i + 1;
    }
  }

  // ---------------------------------------------------------------------------
  // Removing a habit
  // ---------------------------------------------------------------------------

  /** `array_values(array_filter(...))`: the habits not called `name`, in order. */
  function Without(cols: seq<Habit>, name: string): (r: seq<Habit>)
    ensures |r| <= |cols|
    ensures forall h :: h in r <==> h in cols && h.name != name
  {
    if |cols| == 0 then []
    else (if cols[0].name == name then [] else [cols[0]]) + Without(cols[1..], name)
  }

  /** Filtering a concatenation filters each part: the survivors keep their order. */
  lemma {:induction false} WithoutAppend(a: seq<Habit>, b: seq<Habit>, name: string)
    ensures Without(a + b, name) == Without(a, name) + Without(b, name)
  {
    if |a| > 0 {
      var head := if a[0].name == name then [] else [a[0]];
      assert (a + b)[0] == a[0];
      assert (a + b)[1..] == a[1..] + b;
      assert Without(a + b, name) == head + Without(a[1..] + b, name);
      WithoutAppend(a[1..], b, name);
      assert Without(a, name) == head + Without(a[1..], name);
    } else {
      assert a + b == b;
    }
  }

  /** Filtering out a name that is not there changes nothing. */
  lemma {:induction false} WithoutAbsent(cols: seq<Habit>, name: string)
    requires name !in Names(cols)
    ensures Without(cols, name) == cols
  {
    if |cols| > 0 {
      assert Names(cols) == [cols[0].name] + Names(cols[1..]);
      WithoutAbsent(cols[1..], name);
    }
  }

  /** The filter removes exactly that name from the set of names and keeps
      names unique. */
  lemma WithoutNames(cols: seq<Habit>, name: string)
    ensures NameSet(Without(cols, name)) == NameSet(cols) - {name}
    ensures UniqueNames(cols) ==> UniqueNames(Without(cols, name))
  {
    var r := Without(cols, name);
    forall n
      ensures n in NameSet(r) <==> n in NameSet(cols) && n != name
    {
      if n in NameSet(r) {
        var i :| 0 <= i < |r| && Names(r)[i] == n;
        assert r[i] in cols;
        var j :| 0 <= j < |cols| && cols[j] == r[i];
        assert Names(cols)[j] == n;
      }
      if n in NameSet(cols) && n != name {
        var j :| 0 <= j < |cols| && Names(cols)[j] == n;
        assert cols[j] in r;
        var i :| 0 <= i < |r| && r[i] == cols[j];
        assert Names(r)[i] == n;
      }
    }
    if UniqueNames(cols) {
      WithoutUnique(cols, name);
    }
  }

  lemma {:induction false} WithoutUnique(cols: seq<Habit>, name: string)
    requires UniqueNames(cols)
    ensures UniqueNames(Without(cols, name))
  {
    if |cols| > 0 {
      var rest := cols[1..];
      assert UniqueNames(rest) by {
        forall i, j | 0 <= i < j < |rest|
          ensures rest[i].name != rest[j].name
        {
          assert rest[i] == cols[i + 1] && rest[j] == cols[j + 1];
        }
      }
      WithoutUnique(rest, name);
      var tail := Without(rest, name);
      if cols[0].name != name {
        var r := [cols[0]] + tail;
        forall i, j | 0 <= i < j < |r|
          ensures r[i].name != r[j].name
        {
          if i == 0 {
            assert r[j] in tail;
            assert r[j] in rest;
            var k :| 0 <= k < |rest| && rest[k] == r[j];
            assert cols[k + 1] == r[j];
          } else {
            assert r[i] == tail[i - 1] && r[j] == tail[j - 1];
          }
        }
      }
    }
  }

  /** The log with `name` unset on the dates outside `pending` and those dates
      dropped if that left them empty; dates in `pending` are as in `days`. */
  function PartlyPurged(days: Log, name: string, pending: set<int>): Log
  {
    map d | d in days && (d in pending || days[d] - {name} != map[]) ::
      if d in pending then days[d] else days[d] - {name}
  }

  /** The log after `remove_habit`: the habit's entry is gone from every date,
      and every date left with no entries is gone. */
  function PurgeHabit(days: Log, name: string): (r: Log)
    ensures forall d, c :: IsSet(r, d, c) <==> IsSet(days, d, c) && c != name
    ensures forall d, c :: IsSet(r, d, c) ==> IsSet(days, d, c) && r[d][c] == days[d][c]
    ensures forall d :: d in r <==> d in days && days[d] - {name} != map[]
    ensures NoEmptyDates(r)
  {
    var r := map d | d in days && days[d] - {name} != map[] :: days[d] - {name};
    assert forall d, c :: IsSet(days, d, c) && c != name ==> c in days[d] - {name};
    r
  }

  /** Before the walk over the dates nothing is purged. */
  lemma PurgeStart(days: Log, name: string)
    ensures PartlyPurged(days, name, days.Keys) == days
  {
  }

  /** Unsetting the entry on one pending date is `Tracker.Uncheck` on that date. */
  lemma PurgeStep(days: Log, name: string, pending: set<int>, d: int, current: Log)
    requires pending <= days.Keys && d in pending
    requires current == PartlyPurged(days, name, pending)
    ensures PartlyPurged(days, name, pending - {d}) == Tracker.Uncheck(current, d, name)
  {
    var next := PartlyPurged(days, name, pending - {d});
    var u := Tracker.Uncheck(current, d, name);
    assert current[d] == days[d];
    forall e
      ensures e in next <==> e in u
    {
    }
    forall e | e in next
      ensures next[e] == u[e]
    {
      if e == d {
        assert u == current[d := days[d] - {name}];
      }
    }
  }

  /** When no date is pending the purge is complete. */
  lemma PurgeDone(days: Log, name: string)
    ensures PartlyPurged(days, name, {}) == PurgeHabit(days, name)
  {
  }

  /** Removing a habit leaves the other habits' completion counts as they were. */
  lemma PurgeKeepsOthers(days: Log, name: string, other: string, startDate: int, endDate: int)
    requires other != name
    ensures Report.PeriodCompletions(PurgeHabit(days, name), other, startDate, endDate)
         == Report.PeriodCompletions(days, other, startDate, endDate)
  {
    var r := PurgeHabit(days, name);
    assert Report.DoneDates(r, other, startDate, endDate, r.Keys)
        == Report.DoneDates(days, other, startDate, endDate, days.Keys);
  }

  /** After removal the habit has no completions left anywhere. */
  lemma PurgeClearsHabit(days: Log, name: string, startDate: int, endDate: int)
    ensures forall d :: !IsSet(PurgeHabit(days, name), d, name)
    ensures Report.PeriodCompletions(PurgeHabit(days, name), name, startDate, endDate) == 0
  {
    var r := PurgeHabit(days, name);
    assert Report.DoneDates(r, name, startDate, endDate, r.Keys) == {};
  }

  /** `remove_habit`: when the name is on the list, drop every habit of that
      name and walk the dates unsetting its entry, dropping dates left empty. */
  method RemoveHabit(doc: Document, habitName: string) returns (saved: bool)
    modifies doc
    ensures saved <==> habitName in Names(old(doc.columns))
    ensures saved ==> doc.columns == Without(old(doc.columns), habitName)
    ensures saved ==> doc.days == PurgeHabit(old(doc.days), habitName)
    ensures !saved ==> doc.columns == old(doc.columns) && doc.days == old(doc.days)
    ensures doc.startDate == old(doc.startDate) && doc.endDate == old(doc.endDate)
  {
    saved := false;
    var habitNames := Names(doc.columns);
    if habitName in habitNames {
      doc.columns := Without(doc.columns, habitName);
      ghost var days0 := doc.days;
      var pending := doc.days.Keys;
      PurgeStart(days0, habitName);
      while pending != {}
        invariant pending <= days0.Keys
        invariant doc.days == PartlyPurged(days0, habitName, pending)
        invariant doc.columns == Without(old(doc.columns), habitName)
        invariant doc.startDate == old(doc.startDate) && doc.endDate == old(doc.endDate)
        decreases |pending|
      {
        // `w` only witnesses that the choice below has a candidate
        ghost var w := Pick(pending);
        var d :| d in pending;
        PurgeStep(days0, habitName, pending, d, doc.days);
        doc.days := Tracker.Uncheck(doc.days, d, habitName);
        pending := pending - {d};
      }
      PurgeDone(days0, habitName);
      saved := true;
    }
  }

  // ---------------------------------------------------------------------------
  // The tracking period, resetting and importing
  // ---------------------------------------------------------------------------

  /** The last day of a period of `numberOfDays` days starting at `startDate`. */
  function EndDateFor(startDate: int, numberOfDays: int): (endDate: int)
    requires numberOfDays > 0
    ensures startDate <= endDate
    ensures TrackingDays(startDate, endDate) == numberOfDays
  {
    startDate + numberOfDays - 1
  }

  /** `update_settings`: with a start date and a positive length the period
      becomes exactly that many days from that date; otherwise nothing changes.
      `startDate` is None for a missing or falsy request value. */
  method UpdateSettings(doc: Document, startDate: Option<int>, numberOfDays: int) returns (saved: bool)
    modifies doc
    ensures saved <==> startDate.Some? && numberOfDays > 0
    ensures saved ==> doc.startDate == startDate.value && doc.startDate <= doc.endDate
    ensures saved ==> TrackingDays(doc.startDate, doc.endDate) == numberOfDays
    ensures !saved ==> doc.startDate == old(doc.startDate) && doc.endDate == old(doc.endDate)
    ensures doc.columns == old(doc.columns) && doc.days == old(doc.days)
  {
    saved := false;
    if startDate.Some? && numberOfDays > 0 {
      doc.startDate := startDate.value;
      doc.endDate := EndDateFor(startDate.value, numberOfDays);
      saved := true;
    }
  }

  /** `reset_data`: the log is emptied; habits and period stay. */
  method ResetData(doc: Document)
    modifies doc
    ensures doc.days == map[]
    ensures doc.columns == old(doc.columns)
    ensures doc.startDate == old(doc.startDate) && doc.endDate == old(doc.endDate)
    ensures EntryCount(doc.days) == 0
  {
    doc.days := map[];
    EntryCountEmpty();
  }

  /** A decoded upload: the `columns` and `days` keys may be missing. */
  datatype Decoded = Decoded(columns: Option<seq<Column>>, days: Option<Log>, startDate: int, endDate: int)

  /** An upload: whether it arrived without error, and its content when that
      decoded to a truthy value. */
  datatype Upload = Upload(uploadOk: bool, decoded: Option<Decoded>)

  /** `import_data` stores the upload only when a file arrived cleanly and
      decoded to a value with both `columns` and `days`. */
  predicate ImportAccepted(upload: Option<Upload>)
  {
    upload.Some? && upload.value.uploadOk && upload.value.decoded.Some?
    && upload.value.decoded.value.columns.Some? && upload.value.decoded.value.days.Some?
  }

  /** The stored document an accepted upload becomes. */
  function Imported(upload: Option<Upload>): Stored
    requires ImportAccepted(upload)
  {
    var v := upload.value.decoded.value;
    Stored(v.columns.value, v.days.value, v.startDate, v.endDate)
  }

  /** `import_data`: an accepted upload replaces the stored document wholesale,
      and the document then reads as loading it gives (legacy columns
      migrated); a rejected one leaves the document as it was. */
  method ImportData(doc: Document, upload: Option<Upload>) returns (saved: bool)
    modifies doc
    ensures saved <==> ImportAccepted(upload)
    ensures saved ==> doc.Value() == Loaded(Imported(upload))
    ensures !saved ==> doc.Value() == old(doc.Value())
  {
    saved := false;
    if upload.Some? && upload.value.uploadOk && upload.value.decoded.Some? {
      var v := upload.value.decoded.value;
      if v.columns.Some? && v.days.Some? {
        var d := Loaded(Stored(v.columns.value, v.days.value, v.startDate, v.endDate));
        doc.columns := d.columns;
        doc.days := d.days;
        doc.startDate := d.startDate;
        doc.endDate := d.endDate;
        saved := true;
      }
    }
  }
}
