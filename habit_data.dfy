/** The tracking document shared by the three pages: the habit list, the
    sparse completion log and the tracking period, as `loadData` hands them
    over after the legacy-shape migration. Dates are day numbers. */
module HabitData {
  import opened Rounding

  datatype Option<T> = None | Some(value: T)

  /** A habit as every page reads it: a name and a weekly target. */
  datatype Habit = Habit(name: string, frequency: int)

  /** A column as it sits in the stored file: a bare name (the legacy shape)
      or a record whose `frequency` key may be missing. */
  datatype Column = Bare(name: string) | Record(name: string, frequency: Option<int>)

  /** One date's entries: habit name to the stored value (normally `true`). */
  type DayLog = map<string, bool>

  /** The completion log: date to that date's entries. */
  type Log = map<int, DayLog>

  /** The document after loading. */
  datatype Doc = Doc(columns: seq<Habit>, days: Log, startDate: int, endDate: int)

  /** The document as stored in the file. */
  datatype Stored = Stored(columns: seq<Column>, days: Log, startDate: int, endDate: int)

  /** The frequency a habit gets when none is recorded: daily. */
  const DefaultFrequency: int := 7

  // ---------------------------------------------------------------------------
  // Column accessors and the legacy migration
  // ---------------------------------------------------------------------------

  /** `getHabitName`: a bare column is its own name. */
  function HabitName(c: Column): string
  {
    match c
    case Bare(n) => n
    case Record(n, _) => n
  }

  /** `getHabitFrequency`: bare columns and records without a frequency are daily. */
  function HabitFrequency(c: Column): int
  {
    match c
    case Bare(_) => DefaultFrequency
    case Record(_, f) => if f.Some? then f.value else DefaultFrequency
  }

  /** The migration looks at the first column only. */
  predicate IsLegacy(cols: seq<Column>)
  {
    |cols| > 0 && cols[0].Bare?
  }

  /** The migration in `loadData`: when the first column is a bare name,
      every column becomes a record with that name and frequency 7;
      otherwise the list is left as it is. */
  function Migrate(cols: seq<Column>): (r: seq<Column>)
    ensures |r| == |cols|
    ensures forall i :: 0 <= i < |r| ==> HabitName(r[i]) == HabitName(cols[i])
    ensures IsLegacy(cols) ==> forall i :: 0 <= i < |r| ==> r[i] == Record(HabitName(cols[i]), Some(DefaultFrequency))
    ensures !IsLegacy(cols) ==> r == cols
  {
    if IsLegacy(cols) then
      seq(|cols|, i requires 0 <= i < |cols| => Record(HabitName(cols[i]), Some(DefaultFrequency)))
    else
      cols
  }

  /** Each column as the pages read it, through `getHabitName` and `getHabitFrequency`. */
  function AsHabits(cols: seq<Column>): (r: seq<Habit>)
    ensures |r| == |cols|
    ensures forall i :: 0 <= i < |r| ==> r[i] == Habit(HabitName(cols[i]), HabitFrequency(cols[i]))
  {
    seq(|cols|, i requires 0 <= i < |cols| => Habit(HabitName(cols[i]), HabitFrequency(cols[i])))
  }

  /** A legacy list is a list of bare names throughout. */
  predicate AllBare(cols: seq<Column>)
  {
    forall i :: 0 <= i < |cols| ==> cols[i].Bare?
  }

  /** Migrating a legacy list changes nothing a page can observe: a bare name
      already reads as frequency 7, which is what the migration writes. */
  lemma MigrationInvisible(cols: seq<Column>)
    requires IsLegacy(cols) ==> AllBare(cols)
    ensures AsHabits(Migrate(cols)) == AsHabits(cols)
  {
    var a, b := AsHabits(Migrate(cols)), AsHabits(cols);
    forall i | 0 <= i < |cols|
      ensures a[i] == b[i]
    {
      if IsLegacy(cols) {
        assert cols[i].Bare?;
      }
    }
  }

  /** Loading twice migrates once. */
  lemma MigrateIdempotent(cols: seq<Column>)
    ensures Migrate(Migrate(cols)) == Migrate(cols)
    ensures !IsLegacy(Migrate(cols))
  {
  }

  /** `loadData`: an unreadable or undecodable file yields an empty document
      whose period is today only; otherwise the stored document, migrated. */
  function LoadData(file: Option<Stored>, today: int): (d: Doc)
    ensures file.None? ==> d == Doc([], map[], today, today)
    ensures file.Some? ==> |d.columns| == |file.value.columns| && d.days == file.value.days
    ensures file.Some? ==> d.startDate == file.value.startDate && d.endDate == file.value.endDate
    ensures file.Some? ==> forall i :: 0 <= i < |d.columns| ==> d.columns[i].name == HabitName(file.value.columns[i])
    ensures file.Some? && IsLegacy(file.value.columns) ==>
      forall i :: 0 <= i < |d.columns| ==> d.columns[i].frequency == DefaultFrequency
    ensures file.Some? && !IsLegacy(file.value.columns) ==> d.columns == AsHabits(file.value.columns)
  {
    match file
    case None => Doc([], map[], today, today)
    case Some(s) => Loaded(s)
  }

  /** What the pages read from a stored document: its columns migrated and
      read through the accessors, everything else as stored. */
  function Loaded(s: Stored): (d: Doc)
    ensures |d.columns| == |s.columns| && d.days == s.days
    ensures d.startDate == s.startDate && d.endDate == s.endDate
    ensures forall i :: 0 <= i < |d.columns| ==> d.columns[i].name == HabitName(s.columns[i])
    ensures IsLegacy(s.columns) ==> forall i :: 0 <= i < |d.columns| ==> d.columns[i].frequency == DefaultFrequency
    ensures !IsLegacy(s.columns) ==> d.columns == AsHabits(s.columns)
  {
    Doc(AsHabits(Migrate(s.columns)), s.days, s.startDate, s.endDate)
  }

  // ---------------------------------------------------------------------------
  // The habit list
  // ---------------------------------------------------------------------------

  /** `getHabitNames`: the names, in list order. */
  function Names(cols: seq<Habit>): (r: seq<string>)
    ensures |r| == |cols|
    ensures forall i :: 0 <= i < |cols| ==> r[i] == cols[i].name
  {
    seq(|cols|, i requires 0 <= i < |cols| => cols[i].name)
  }

  /** The distinct entries of a list of names. */
  function Members(names: seq<string>): set<string>
  {
    set n | n in names
  }

  /** The distinct habit names. */
  function NameSet(cols: seq<Habit>): set<string>
  {
    Members(Names(cols))
  }

  /** Appending a habit adds its name. */
  lemma NameSetAppend(cols: seq<Habit>, h: Habit)
    ensures NameSet(cols + [h]) == NameSet(cols) + {h.name}
  {
    assert Names(cols + [h]) == Names(cols) + [h.name];
  }

  /** Names are unique within the list (what adding a habit maintains). */
  predicate UniqueNames(cols: seq<Habit>)
  {
    forall i, j :: 0 <= i < j < |cols| ==> cols[i].name != cols[j].name
  }

  // ---------------------------------------------------------------------------
  // The completion log
  // ---------------------------------------------------------------------------

  /** `isset($data['days'][$d][$name])`: an entry exists, whatever its value. */
  predicate IsSet(days: Log, d: int, name: string)
  {
    d in days && name in days[d]
  }

  /** An entry exists and is truthy: what the report counts as a completion. */
  predicate IsDone(days: Log, d: int, name: string)
  {
    IsSet(days, d, name) && days[d][name]
  }

  /** The log's invariant: no date is kept with no entries. */
  predicate NoEmptyDates(days: Log)
  {
    forall d :: d in days ==> days[d] != map[]
  }

  /** A date's entries, empty when the date is absent. */
  function DayOf(days: Log, d: int): DayLog
  {
    if d in days then days[d] else map[]
  }

  /** PHP `empty` on a request string: "" and "0" both count as empty. */
  predicate IsEmptyString(s: string)
  {
    s == "" || s == "0"
  }

  // ---------------------------------------------------------------------------
  // The tracking period
  // ---------------------------------------------------------------------------

  /** `$startDate->diff($endDate)->days + 1`: the interval's length counting
      both ends; `diff()->days` is unsigned, so reversed bounds count too. */
  function TrackingDays(startDate: int, endDate: int): (n: int)
    ensures n >= 1
    ensures startDate <= endDate ==> n == endDate - startDate + 1
    ensures startDate > endDate ==> n == startDate - endDate + 1
  {
    Abs(endDate - startDate) + 1
  }

  /** Days left in the period, today included; none once the period is over. */
  function DaysRemaining(endDate: int, today: int): (n: int)
    ensures n >= 0
    ensures n == 0 <==> today > endDate
    ensures today <= endDate ==> n == endDate - today + 1
  {
    if today > endDate then 0 else Max(0, Abs(endDate - today) + 1)
  }

  // ---------------------------------------------------------------------------
  // Sums over maps
  // ---------------------------------------------------------------------------

  /** Some member of a non-empty set (the sum below does not depend on which). */
  ghost function Pick<T>(s: set<T>): (x: T)
    requires s != {}
    ensures x in s
  {
    var x :| x in s; x
  }

  /** The sum of a map's values. */
  ghost function SumValues<K>(m: map<K, int>): int
    decreases |m|
  {
    if |m| == 0 then 0
    else
      var k := Pick(m.Keys);
      m[k] + SumValues(m - {k})
  }

  /** The sum can be split at any key, not only the one the definition picks. */
  lemma {:induction false} SumValuesRemove<K>(m: map<K, int>, k: K)
    requires k in m
    ensures SumValues(m) == m[k] + SumValues(m - {k})
    decreases |m|
  {
    var p := Pick(m.Keys);
    if p != k {
      assert |m - {p}| == |m| - 1;
      SumValuesRemove(m - {p}, k);
      assert |m - {k}| == |m| - 1;
      SumValuesRemove(m - {k}, p);
      assert m - {p} - {k} == m - {k} - {p};
    }
  }

  /** Adding one to a value adds one to the sum. */
  lemma SumValuesIncrement<K>(m: map<K, int>, k: K)
    requires k in m
    ensures SumValues(m[k := m[k] + 1]) == SumValues(m) + 1
  {
    var m' := m[k := m[k] + 1];
    SumValuesRemove(m', k);
    SumValuesRemove(m, k);
    assert m' - {k} == m - {k};
  }

  /** Adding a key adds its value to the sum. */
  lemma SumValuesInsert<K>(m: map<K, int>, k: K, v: int)
    requires k !in m
    ensures SumValues(m[k := v]) == SumValues(m) + v
  {
    SumValuesRemove(m[k := v], k);
    assert m[k := v] - {k} == m;
  }

  /** A sum of values each at least one is at least the number of keys. */
  lemma {:induction false} SumValuesAtLeastSize<K>(m: map<K, int>)
    requires forall k :: k in m ==> m[k] >= 1
    ensures SumValues(m) >= |m|
    decreases |m|
  {
    if |m| > 0 {
      var k := Pick(m.Keys);
      assert |m - {k}| == |m| - 1;
      SumValuesAtLeastSize(m - {k});
    }
  }

  // ---------------------------------------------------------------------------
  // The document as the handlers change it in place
  // ---------------------------------------------------------------------------

  /** The loaded `$data` array that a request handler updates in place and
      then saves. */
  class Document {
    var columns: seq<Habit>
    var days: Log
    var startDate: int
    var endDate: int

    constructor (d: Doc)
      ensures Value() == d
    {
      columns := d.columns;
      days := d.days;
      startDate := d.startDate;
      endDate := d.endDate;
    }

    /** The current contents, as a value. */
    function Value(): Doc
      reads this
    {
      Doc(columns, days, startDate, endDate)
    }
  }
}
