# Habit tracker: a verified model

This project models the core of a small habit tracker. Its data is one JSON
document holding three things:

- the habit list (`columns`), each habit a name and a weekly target;
- a sparse completion log (`days`): date, then habit name, then a flag;
- the tracking period (`startDate`, `endDate`).

Three pages read and edit the document:

- **The tracking page** (`index.php`). It shows:
  - the period header: days in the period, days remaining, and a progress percentage;
  - a grid of checkboxes, one row per day of the period.

  Its handler ticks or unticks one box in place. Unticking drops a date once
  it has no entries left.
- **The report page** (`report.php`). It computes:
  - period-scoped statistics: completions per habit, and expected completions
    prorated from the weekly target over the whole period and over the days
    elapsed;
  - overall progress;
  - per-habit weekly dots over 7-day windows anchored at the period's start.
    Green dots are targets met. Red dots are targets that can no longer be met.
    Gray dots are targets still open.
- **The admin page** (`admin.php`). It shows a statistics panel. Its handlers:
  - add a habit (trimmed, unique, target clamped to 1..7);
  - change a habit's target;
  - remove a habit, together with its log entries;
  - set the period;
  - reset the log;
  - import a whole document.

All three pages load the document the same way. If the first column is a bare
string, which is the legacy shape, every column becomes a record with target 7.

The project has five modules:

- `Rounding` (`rounding.dfy`): PHP's `round(n / d)` on exact integers, ties
  going away from zero, with `abs`, `min` and `max`.
- `HabitData` (`habit_data.dfy`):
  - the document: `Column`, `Habit`, `Doc`, and `Log` (a map from day number to
    a map from habit name to flag);
  - loading and the legacy migration;
  - `isset` and truthiness on the log;
  - the period's length;
  - sums over maps;
  - the `Document` class, which stands for the `$data` array a handler updates
    in place.
- `Report` (`report.dfy`): `report.php`. The weekly dots and the statistics
  are methods with the loops of the source. Each is proved equal to a
  specification function, and the properties are lemmas about those functions.
- `Tracker` (`tracker.dfy`): `index.php`. It covers the period header, the
  checkbox handler (a method that takes the `Document` and modifies it, proved against the pure `Check` and
  `Uncheck`), and the grid.
- `Admin` (`admin.dfy`): lookup by name, the statistics panel, and the six
  handlers. Each handler is a method that takes the `Document` and modifies it, proved against a pure
  description of the new document.

Dates are integer day numbers. "Today" is always a parameter.

In several places the code's behaviour is looser than a documented 0..100
percentage or a validated period would suggest. The model follows the code:

- Before the period starts, the tracking page's progress is at most 0. It is
  negative exactly when 200 * (start - today) >= trackingDays
  (`Tracker.ProgressBeforeStart`).
- Inside the period the progress is 100 exactly when
  200 * (today - start) >= 199 * trackingDays (`Tracker.ProgressInPeriod`).
  A period of 200 days or more therefore shows 100 on its last day, and one
  of 400 days or more shows 100 before its last day.
- Overall report progress is above 100 once 200 * checks >= 201 * expected
  (`Report.PercentOverHundred`). Checks that exceed expectations by less than
  that still round to 100.
- A period whose end precedes its start is not rejected. Its length is
  |end - start| + 1 because the date difference is unsigned.
- Rejected admin requests (an empty or duplicate name, a missing start date, a
  malformed import) report no error. They leave the document as it was.

## Model

| member | source | states |
|---|---|---|
| Rounding.RoundDiv | report.php:39 | `round(n / d)` for d > 0: the result is within half of n/d, a tie rounds away from zero, and the sign follows n |
| Rounding.RoundDivUnique | report.php:164 | any integer within the rounding bracket of n/d is `round(n / d)`, so the bracket defines the rounding |
| Rounding.RoundDivMonotone | report.php:164 | rounding n/d is monotone in n |
| HabitData.Migrate | report.php:18-22 | when the first column is a bare name, every column becomes a record with that name and target 7; otherwise the list is unchanged; only column 0 decides |
| HabitData.AsHabits | report.php:27-33 | each column reads as its name and its target, which is 7 for a bare name or a record without one |
| HabitData.MigrationInvisible | report.php:18-33 | on a legacy list (all bare names) migrating changes nothing the pages read |
| HabitData.MigrateIdempotent | admin.php:18-22 | migrating twice is migrating once, and a migrated list is never legacy |
| HabitData.LoadData | index.php:14-27 | a missing or undecodable file gives an empty document whose period is today only; otherwise the stored log and dates, with the columns' names kept and all targets 7 for a legacy list |
| HabitData.Loaded | admin.php:13-25 | what a stored document reads as after loading: same length and names, log and dates as stored, targets 7 if legacy, the columns as read otherwise |
| HabitData.Names | admin.php:27-31 | `getHabitNames`: the i-th name is the i-th column's name |
| HabitData.TrackingDays | report.php:106 | the period counts both ends, at least 1, and reversed bounds count too because `diff()->days` is unsigned |
| HabitData.DaysRemaining | report.php:108-112 | zero exactly when today is past the end; otherwise the days from today to the end, both counted |
| Report.ExpectedCompletions | report.php:35-40 | `round(days / 7 * frequency)`: within 3/7 of the exact value, so the nearest integer and never a tie |
| Report.ExpectedOneWeek | report.php:35-40 | one week expects exactly the weekly target; no days expect none |
| Report.ExpectedMonotone | report.php:35-40 | more days never expect fewer completions, for a non-negative target |
| Report.Percent | report.php:164 | `round(part / whole * 100)`: the nearest integer to 100 * part / whole, a tie going away from zero, and 0 when whole is not positive |
| Report.PercentBounds | report.php:183-185 | for 0 <= part <= whole the percentage lies in 0..100, is 100 when part equals whole and 0 when part is 0 |
| Report.PercentOverHundred | report.php:164 | when checks exceed the possible total by half a percent or more, overall progress is over 100 |
| Report.ElapsedDays | report.php:115-121 | 0 before the start, the whole period after the end, never more than the period |
| Report.ElapsedMonotone | report.php:115-121 | elapsed days never decrease as today advances |
| Report.ElapsedAndRemaining | report.php:106-121 | inside the period, elapsed days plus days remaining is the period plus one (today counts in both) |
| Report.Windows | report.php:48-54 | the weeks of the dots: week i starts 7i days after the start and is cut at the end date |
| Report.WindowCountIsCeiling | report.php:49-89 | the number of weeks is the period's length divided by 7, rounded up |
| Report.WindowsPartition | report.php:48-89 | the weeks lie inside the period in order without overlap, and every day of the period lies in week (d - start) div 7 |
| Report.Completions | report.php:57-65 | counting truthy entries day by day over [lo, hi] gives at most one per day |
| Report.CompletionsSplit | report.php:57-65 | counting over a range is counting over two adjacent parts |
| Report.PeriodCompletionsByDay | report.php:137-147 | counting the log's dates inside the period gives the same number as walking the period day by day |
| Report.WindowDots | report.php:67-86 | one week's dots always total the target; green never exceeds the week's completions; no colour is negative |
| Report.ElapsedWindow | report.php:68-71 | a finished week has no gray; green plus red is the target; all green exactly when completions reach the target |
| Report.FutureWindow | report.php:72-74 | a week not yet started is all gray |
| Report.CurrentWindow | report.php:75-86 | in the current week red appears exactly when completions plus the days after today fall short of the target; gray never exceeds the days after today; all green exactly when the target is met |
| Report.WeeklyDotsTotal | report.php:42-96 | a habit's dots total its target times the number of weeks |
| Report.WindowsCountPeriod | report.php:49-89 | the weeks' completion counts add up to the period's completions |
| Report.GreenAtMostCompletions | report.php:70 | green dots never exceed the habit's completions in the period |
| Report.WeeklyDotsOutsidePeriod | report.php:68-74 | after the period there is no gray; before it everything is gray |
| Report.HabitPercent | report.php:282-283 | the per-habit percentage is 0 when there are no dots |
| Report.HabitPercentBounds | report.php:282-283 | the per-habit percentage lies in 0..100 for a non-negative target |
| Report.WeeklyDotsStep | report.php:48-89 | the dots from a week onwards are that week's dots plus the dots from the next week onwards |
| Report.CountWeekCompletions | report.php:57-65 | the inner loop counts the week's completions |
| Report.AddWindowDots | report.php:67-86 | the three branches add exactly one week's dots to the running totals |
| Report.CalculateWeeklyDots | report.php:42-96 | the loop over weeks yields the habit's weekly dots |
| Report.FrequencyMap | report.php:124-130 | the target map has exactly the habits' names as keys, and a duplicated name keeps the target of its last occurrence |
| Report.FrequencyMapUnique | report.php:129 | with unique names each habit's own target is in the map |
| Report.FrequencyMapFrom | report.php:129 | every target in the map is some column's target |
| Report.TotalExpectedMonotone | report.php:150-162 | total expected completions never decrease with more days |
| Report.CollectHabits | report.php:124-130 | the loop collects the names in order and the target map |
| Report.CreditEntry | report.php:141-144 | a truthy entry for a listed habit adds one to that habit and one to the total; anything else changes nothing |
| Report.CountDay | report.php:140-145 | one date's entries credit every truthy listed habit once, and the total stays the sum of the per-habit counts |
| Report.SumCredited | report.php:140-145 | crediting a set of entries raises the sum of the counts by the number credited |
| Report.CountDate | report.php:137-146 | a date inside the period adds one for each habit done that day; a date outside adds nothing |
| Report.CountCompletions | report.php:133-147 | every listed habit's count is its completions inside the period, and the total is their sum |
| Report.SumExpectations | report.php:150-162 | expected and elapsed-expected completions per name, and their totals summed over the list with duplicates |
| Report.CalculateReportStats | report.php:98-181 | the method's result is the statistics as specified field by field (`ReportStatsOf`) |
| Report.ReportCounts | report.php:133-147 | the per-habit counts have exactly the habit names as keys, each is the habit's completions in the period, and the total is their sum |
| Report.ElapsedExpectationBounded | report.php:150-162 | expectations to date never exceed expectations for the whole period |
| Tracker.CalculateTrackingInfo | index.php:39-68 | period length and days remaining as defined; 100% once the period is over; never above 100% |
| Tracker.ProgressInPeriod | index.php:55-58 | inside the period the progress lies in 0..100 and is 100 exactly when 200 * (today - start) >= 199 * length |
| Tracker.ProgressBeforeStart | index.php:55-58 | before the start the progress is at most 0, and negative exactly when the start is at least half a percent of the period away |
| Tracker.CapNeverBinds | index.php:57 | before the end date the `min(100, ...)` cap never changes the value |
| Tracker.ProgressMonotone | index.php:52-58 | progress never decreases as today advances |
| Tracker.Check | index.php:84-85 | ticking sets exactly the one entry to true and keeps every other entry and date |
| Tracker.Uncheck | index.php:86-91 | unticking removes exactly the one entry, drops the date when it becomes empty, and keeps everything else |
| Tracker.UpdateKeepsNoEmptyDates | index.php:84-91 | no edit leaves a date without entries |
| Tracker.UpdateSetsOneBox | index.php:84-91 | after an edit the box reads as requested and every other box reads as before |
| Tracker.CheckThenUncheck | index.php:84-91 | ticking an empty box and unticking it restores the log exactly |
| Tracker.UncheckThenCheck | index.php:84-91 | unticking a box that holds `true` and ticking it again restores the log exactly |
| Tracker.UpdateIdempotent | index.php:84-91 | repeating an edit changes nothing more |
| Tracker.HandleCheckboxUpdate | index.php:74-94 | a missing or PHP-empty day or column leaves the document unsaved and unchanged; otherwise only the log changes, by that edit |
| Tracker.BuildRow | index.php:236-248 | one row marks today and shows, per column, whether the entry is set |
| Tracker.BuildGrid | index.php:230-250 | one row per day of the period, row i dated start + i; a cell is checked exactly when the entry is set; the last row is the end date |
| Admin.FirstIndex | admin.php:33-40 | the position of the first habit with that name, or none exactly when the name is absent |
| Admin.GetHabitByName | admin.php:33-40 | the first habit with that name; nothing exactly when no habit has it |
| Admin.GetHabitByNameUnique | admin.php:33-40 | with unique names the lookup returns the habit itself |
| Admin.CalculateStats | admin.php:46-63 | counts over the whole log; the period is at least one day; when no date is empty there are at least as many checks as dates with data |
| Admin.EntriesAtLeastDates | admin.php:52-53 | without empty dates the entry total is at least the number of dates |
| Admin.EntryCountCheck | admin.php:53 | ticking an empty box raises the panel's check total by one |
| Admin.EntryCountUncheck | admin.php:53 | unticking a set box lowers the panel's check total by one |
| Admin.Clamp | admin.php:77 | the target is forced into 1..7: unchanged inside, 1 below, 7 above |
| Admin.TrimLeft | admin.php:75 | the longest suffix not starting with a blank; what it drops is blanks only |
| Admin.TrimRight | admin.php:75 | the longest prefix not ending with a blank; what it drops is blanks only |
| Admin.Trim | admin.php:75 | `trim`: the result neither starts nor ends with a blank |
| Admin.TrimPadding | admin.php:75 | trimming any blank padding around an unpadded string gives that string back |
| Admin.TrimIdempotent | admin.php:75 | trimming twice is trimming once |
| Admin.AppendKeepsUnique | admin.php:79-80 | appending a new name keeps the names unique and adds exactly that name |
| Admin.AddHabit | admin.php:74-83 | a trimmed name that is truthy and not on the list is appended last with the clamped target; otherwise nothing changes; the log and period never change |
| Admin.WithFrequency | admin.php:89-94 | exactly the first habit with that name gets the new target; every other position is unchanged; no match, no change |
| Admin.WithFrequencyKeepsNames | admin.php:89-94 | changing a target keeps the names in order and keeps them unique |
| Admin.WithFrequencyReadsBack | admin.php:85-96 | after the change the lookup by name gives the habit with its new target |
| Admin.UpdateHabitFrequency | admin.php:85-96 | the loop rewrites the first match with the clamped target and stops; the log and period never change |
| Admin.Without | admin.php:102-104 | exactly the habits with other names survive |
| Admin.WithoutAppend | admin.php:102-104 | filtering respects concatenation, so survivors keep their order |
| Admin.WithoutAbsent | admin.php:102-104 | filtering out an absent name changes nothing |
| Admin.WithoutNames | admin.php:102-104 | removal takes exactly that name out of the set of names and keeps names unique |
| Admin.PurgeHabit | admin.php:105-110 | every entry of the habit is gone, every other entry keeps its value, a date is kept exactly when it still has entries, and no date is left empty |
| Admin.PurgeStep | admin.php:106-109 | one pass of the loop body on one date is unticking that habit on that date |
| Admin.PurgeKeepsOthers | admin.php:105-110 | every other habit's completions in any period are unchanged |
| Admin.PurgeClearsHabit | admin.php:105-110 | the removed habit has no entry and no completion left |
| Admin.RemoveHabit | admin.php:98-113 | if the name is listed, the columns are filtered and the log purged by walking its dates; otherwise nothing changes |
| Admin.EndDateFor | admin.php:119-121 | the end date makes the period exactly the requested number of days, with start <= end |
| Admin.UpdateSettings | admin.php:115-126 | with a start date and a positive length the period is set to exactly that many days; otherwise nothing changes |
| Admin.ResetData | admin.php:128-131 | the log is emptied, so the check total is 0; habits and period are kept |
| Admin.ImportData | admin.php:140-147 | a clean upload that decodes to a value with `columns` and `days` replaces the document, which then reads as loading it gives; anything else leaves the document unchanged |

## Left out

- File and JSON I/O (`file_get_contents`, `file_put_contents`, `json_decode`, `json_encode`) is not modelled. The stored document is a value handed in, and a handler's saved result is the `Document`'s new state.
- HTTP dispatch (`$_POST`, `$_FILES`, `header`, `exit`), the export download (admin.php:133-138), HTML rendering and the client scripts are not modelled. The client scripts include the end-date preview and the checkbox-name split on `_`.
- Date parsing and formatting, time zones, and `new DateTime('now')` are not modelled. Dates are day numbers and today is a parameter. A start date that does not parse is not modelled either.
- The weekday names of `formatDateWithDay` are not modelled. They need a calendar.
- Rounding is done on exact rationals, not PHP floats. Float artefacts at exact halves are not modelled.
- PHP's loose `in_array` comparison is modelled as exact string equality. Numeric strings such as "1" and "01" therefore count as different names.
- PHP turns numeric-string array keys into integers. This is not modelled: habit names stay strings.
- `intval` parsing of request values is not modelled. The handlers take the resulting integer.
- A missing or PHP-empty request value is `None`. A start date of "0" counts as missing.
- HabitData.Migrate: a column list whose first column is a bare name and a later column is a record is not modelled as the source handles it. The source stores that whole record as the new record's name. `getHabitName` on the tracking and report pages (index.php:29-32, report.php:27-29) then fails, because it must return a string. The model keeps the record's name with target 7. A list whose first column is a record is modelled: each column is read through its own shape.
- Admin.ImportData: the modelled upload (`Decoded`) always carries a start and an end date. The source also accepts an upload without them, because admin.php:143 tests only `columns` and `days`, and the pages then read the dates from a missing key; that case is not modelled. Entries whose values are not booleans are not modelled either.
- Admin.CalculateStats: it is a specification function, not a loop. `array_sum(array_map('count', ...))` is a sum over a map.
- The `Document` holds the columns as the pages read them (name and target). The source keeps a record without a target as it is through every save. Only `update_habit_frequency` on that habit (admin.php:91) adds one. The admin list (admin.php:239 and admin.php:247) and the export (admin.php:133-136) therefore show no target for it. The model writes target 7 on the first save.
- Admin.GetHabitByName: for a record stored without a target, `getHabitByName` returns the record without one; the model returns target 7.
- Report.CountCompletions and Report.CountDay visit dates and entries in an unspecified order, not PHP's insertion order. The counts do not depend on order.
- Two requests that race to read, modify and write the file are not modelled; the last writer wins.
- `calculateHabitProgress` (report.php:183-185) is the same formula as the overall progress, so `Report.Percent` models both.
