# cliftin, modelled in Dafny

cliftin is a read-only command-line tool for reporting on the SQLite store of a
workout-tracking app. It lists and shows workouts, programs and exercises. It
reads the store's Core Data tables (`ZWORKOUTRESULT`, `ZWORKOUTPLAN`,
`ZEXERCISEINFORMATION`, …) and renders the results as plain-text tables or
JSON.

This project models the tool's core:

- the repositories that turn query rows into summaries and detail trees
  (workouts, programs, exercises);
- the id-or-name selector resolution;
- unit handling (the kg-to-lb conversion and the unit-preference resolution);
- Apple-epoch date ranges;
- exercise-name formatting;
- RPE normalisation;
- the JSON weight wrappers;
- the text table renderer;
- the command-level logic of `exercises`, `workouts list`/`show` and
  `programs show`.

How the model stands in for the database:

- Each SQL query becomes an input sequence of rows in the query's own
  `ORDER BY` order. A row holds the columns the query selects, plus the
  columns that its `WHERE` clauses and joins compare, with SQL `NULL`
  as `None`. The one added column beyond those is the exercise id beside
  each exercise result, and it appears only in the corrected input of the
  last-performed snapshot (see "## Findings").
- `WHERE` and `HAVING` clauses become filters over those rows.
- `LIMIT` becomes `SqlLimit`: a negative limit means no limit, as in SQLite.
- Helpers whose code is not modelled are passed in as function parameters:
  - the local-midnight clock (`dayStart`);
  - display-to-kg conversion;
  - the equipment and muscle label formatters;
  - number-to-text;
  - `withWeightUnit`.

Modules and files:

| file | module | what it holds |
|---|---|---|
| `strings.dfy` | `Strings` | string helpers: case mapping, split/join, trim, padding, decimal digits |
| `base.dfy` | `Base` | `Option`, `Result`, the error messages, filter, limit and flatten helpers |
| `rpe.dfy` | `Rpe` | RPE sentinel normalisation |
| `units.dfy` | `Units` | unit preference, kg→display conversion, unit resolution |
| `time.dfy` | `Time` | Apple-epoch seconds, local date parsing and date ranges |
| `names.dfy` | `Names` | exercise display names |
| `selectors.dfy` | `Selectors` | id-or-name selector resolution |
| `output.dfy` | `Output` | the text table renderer |
| `workouts_repo.dfy` | `Workouts` | `listWorkouts`, `getWorkoutDetail` |
| `programs_repo.dfy` | `Programs` | `listPrograms`, `resolveProgramSelector`, `getProgramDetail` |
| `exercises_repo.dfy` | `Exercises` | exercise selector, list, history, detail, last-performed snapshot |
| `json_weight.dfy` | `JsonWeight` | JSON serialisers that wrap weights with their unit |
| `exercises_cmd.dfy` | `ExercisesCommand` | the `exercises` command's muscles cell, history flags and dispatch |
| `workouts_cmd.dfy` | `WorkoutsCommand` | the `workouts list` and `workouts show` commands |
| `programs_show.dfy` | `ProgramsShow` | the `programs show` command: argument checks and table rows |

Where the code holds a loop that updates state, the model is a `method` with
loop invariants. These are:

- building the `Map`s in `getWorkoutDetail` and `getProgramDetail`;
- the width loop in `renderTable`;
- the date-range computation;
- the in-place sort in `listExercises`.

Each such method is proved equal to a specification function, and the
properties are proved about that function.

## Model

| member | source | states |
|---|---|---|
| Rpe.NormalizeRpe | src/lib/rpe.ts:1-5 | the sentinel 16 and a missing RPE both become null; any other value is kept; the result is never 16 |
| Rpe.NormalizeRpeIdempotent | src/lib/rpe.ts:3-5 | normalising twice is the same as normalising once |
| Units.NormalizeUnitPreference | src/lib/units.ts:9-16 | null or empty means unknown; otherwise imperial iff the trimmed lower-cased token is an imperial token, and metric iff it is not imperial but is a metric token |
| Units.ImperialWinsOverMetric | src/lib/units.ts:9-16 | a token that mentions both "imperial" and "metric" resolves to imperial, because the imperial test comes first |
| Units.WhitespaceOnlyIsUnknown | src/lib/units.ts:9-16 | a non-empty, whitespace-only value resolves to unknown |
| Units.Round2Close | src/lib/units.ts:18-22 | `Number(x.toFixed(2))` lands on a hundredth within half a hundredth of x |
| Units.Round2OfHundredths | src/lib/units.ts:18-22 | rounding a value that is already a whole number of hundredths leaves it unchanged |
| Units.ConvertKgToDisplayWeight | src/lib/units.ts:5-22 | null stays null; metric and unknown keep the kg value; imperial multiplies by 2.2 and rounds to two decimals |
| Units.ImperialWeightClose | src/lib/units.ts:18-22 | the imperial display weight is within 0.005 of kg × 2.2 |
| Units.ConvertKgToDisplayVolume | src/lib/units.ts:24-28 | the same conversion for set volumes |
| Units.ResolveGlobalWeightUnit | src/lib/units.ts:30-37 | no settings row means unknown; otherwise the normalised unit of that row |
| Units.ResolveProgramWeightUnit | src/lib/units.ts:39-63 | a known global unit wins; otherwise imperial iff some equipment row of the program is imperial, metric iff none is imperial and some row is metric, and unknown otherwise |
| Units.ProgramUnitFromEquipment | src/lib/units.ts:43-62 | with no global unit, the program's unit is unknown or is the unit of one of its equipment rows |
| Units.ResolveExerciseWeightUnit | src/lib/units.ts:65-80 | a known global unit wins; otherwise the exercise equipment's unit, or unknown when the exercise has no equipment row |
| Time.AppleSecondsToIso | src/lib/time.ts:1-14 | null stays null; otherwise the instant is (seconds + 978307200) × 1000 ms |
| Time.AppleSecondsRoundTrip | src/lib/time.ts:9-31 | converting Apple seconds to an instant and back is the identity, in both directions |
| Time.DateToAppleSecondsMonotonic | src/lib/time.ts:29-31 | the conversion to Apple seconds keeps the order of instants, in both directions |
| Time.ParseLocalDate | src/lib/time.ts:16-27 | accepts exactly the strings shaped `dddd-dd-dd` and returns their year, month and day; anything else is an invalid-date error naming the input |
| Time.DateRangeToAppleSeconds | src/lib/time.ts:33-63 | the imperative range computation equals the `DateRange` specification function |
| Time.OnOverridesFromTo | src/lib/time.ts:34-43 | `--on` ignores `--from`/`--to` and spans that local day, from midnight to midnight + 86399.999 s, or fails on a malformed date |
| Time.SingleBound | src/lib/time.ts:45-56 | a lone `--from` gives only a lower bound at midnight, and a lone `--to` only an upper bound at end of day; none gives no bounds |
| Time.RangeErrorExactly | src/lib/time.ts:45-60 | the inverted-range error happens exactly when both bounds are given, both are well formed and from's midnight is after to's end of day |
| Time.SameDayIsValid | src/lib/time.ts:45-60 | `--from X --to X` is never an inverted range |
| Time.RangeNeverInverted | src/lib/time.ts:33-63 | a successful range with both bounds has from ≤ to |
| Names.FormatExerciseDisplayName | src/lib/names.ts:21-25 | null or empty names show as "(unnamed)"; user-created names are kept verbatim; built-in names are formatted |
| Names.CapitalizePart | src/lib/names.ts:11 | a hyphen part keeps its length, upper-cases its first letter and lower-cases the rest |
| Names.NoUnderscoreInFormattedName | src/lib/names.ts:3-19 | a formatted name never contains an underscore |
| Names.WordsOfFormattedName | src/lib/names.ts:3-19 | for a name without spaces, the formatted name splits on spaces into one formatted word per underscore-separated word, with the last one wrapped in parentheses iff it is "assisted" or "weighted" in any case |
| Names.SpaceCountOfFormattedName | src/lib/names.ts:3-19 | for a name without spaces, the formatted name has one space fewer than it has underscore-separated words |
| Names.HyphenPartsOfFormattedWord | src/lib/names.ts:9-12 | a formatted word splits on hyphens into the capitalised hyphen parts of the original |
| Names.FormatTwoWords | src/lib/names.ts:3-19 | `a_b` formats as the formatted `a`, a space, and `b` in its last-word form |
| Names.FormatThreeWords | src/lib/names.ts:3-19 | `a_b_c` formats as the formatted `a` and `b` and the last-word form of `c`, joined by spaces |
| Names.BarbellCurl | test/lib/names.test.ts:7 | "barbell_curl" formats as "Barbell Curl" |
| Names.PullUpWeighted | test/lib/names.test.ts:8 | "pull_up_weighted" formats as "Pull Up (Weighted)" |
| Names.IsoLateralChestPress | test/lib/names.test.ts:9 | "iso-lateral_chest_press" formats as "Iso-Lateral Chest Press" |
| Names.BenchPressName | test/commands/exercises.list.test.ts:17 | "bench_press" formats as "Bench Press" |
| Names.SquatName | test/commands/exercises.list.test.ts:16 | "squat" formats as "Squat" |
| Selectors.AsIdName | src/lib/repositories/selectors.ts:14-15 | one candidate per row, with its id, and its name or "(unnamed)" |
| Selectors.ResolveIdOrName | src/lib/repositories/selectors.ts:17-51 | digits parse as the id. Otherwise: a unique case-insensitive exact match wins; several exact matches are ambiguous and list them; with no exact match the same holds for substring matches. No-records fails exactly when neither tier matches |
| Selectors.ResolveOptional | src/lib/repositories/workouts.ts:40-48 | an absent or empty selector filters nothing; otherwise the resolved id, or the resolution's own error |
| Selectors.ResolvedIdIsCandidate | src/lib/repositories/selectors.ts:24-43 | a resolved non-numeric selector names a row that matched it |
| Selectors.ExactImpliesPartial | src/lib/repositories/selectors.ts:27-40 | every exact match is also a substring match |
| Selectors.UniqueExactWins | src/lib/repositories/selectors.ts:30 | one exact match decides, whatever the substring matches |
| Selectors.AmbiguityListsCandidates | src/lib/repositories/selectors.ts:32-48 | an ambiguity error lists exactly the rows of the tier that was ambiguous, in order, and more than one |
| Output.ToText | src/lib/output.ts:1-5 | null shows as empty, booleans as true/false, numbers as decimal and text as itself |
| Output.Widths | src/lib/output.ts:11-22 | one width per column of the first row, each the column's `ColumnWidth` |
| Output.RenderTable | src/lib/output.ts:7-29 | the imperative width loop renders the `RenderTableText` specification; no rows give "(no rows)" |
| Output.ColumnWidthIsMax | src/lib/output.ts:13-22 | a column's width is the maximum of its header length and of every cell's text length, and is attained |
| Output.LineCount | src/lib/output.ts:24-28 | a rendered table has a header, a separator and one body line per row, body line i rendering row i |
| Output.LinesHaveEqualLength | src/lib/output.ts:24-28 | every line of the table has the same length: the widths plus two per gap |
| Output.SeparatorIsDashes | src/lib/output.ts:25 | the separator line holds only dashes and spaces |
| Output.RenderSplitsIntoLines | src/lib/output.ts:28 | when no header or cell holds a newline, splitting the rendered text on newlines gives back exactly the table's lines |
| Workouts.RoutineName | src/lib/repositories/workouts.ts:60 | the routine name recorded on the result wins over the planned routine's name |
| Workouts.ListWorkoutsResult | src/lib/repositories/workouts.ts:24-62 | the listed workouts are the first `limit` rows, or all, that pass the program, routine and date filters, each summarised from its row |
| Workouts.ListWorkoutsDescending | src/lib/repositories/workouts.ts:53-61 | start-descending input rows give summaries whose dates descend |
| Workouts.IsoDateRoundTrip | src/lib/repositories/workouts.ts:56 | a summary's date gives back the row's start date |
| Workouts.WorkoutDetailOf | src/lib/repositories/workouts.ts:64-143 | a missing workout is exactly the not-found error naming the id; otherwise there is one entry per exercise-result row |
| Workouts.GroupSetsByExercise | src/lib/repositories/workouts.ts:112-127 | the grouping loop builds a map whose entry for every exercise result is that result's sets, in order, converted |
| Workouts.GetWorkoutDetail | src/lib/repositories/workouts.ts:64-143 | the imperative detail computation equals the `WorkoutDetailOf` specification |
| Workouts.SetsForIsFilter | src/lib/repositories/workouts.ts:112-132 | an exercise's sets are the set rows that point at it, in order, each with normalised RPE and converted weight and volume |
| Workouts.WorkoutDetailShape | src/lib/repositories/workouts.ts:129-141 | one entry per exercise row, in order, with its own sets; the id and routine name come from the workout row |
| Workouts.NoSetsMeansEmpty | src/lib/repositories/workouts.ts:132 | an exercise with no set rows gets an empty set list |
| Programs.IsActive | src/lib/repositories/programs.ts:39 | the selected program decides activity when there is one; otherwise `ZISCURRENT = 1` does |
| Programs.ListPrograms | src/lib/repositories/programs.ts:15-43 | one summary per non-deleted plan, in order, with its id, activity and name or "(unnamed)" |
| Programs.AtMostOneActive | src/lib/repositories/programs.ts:36-42 | with a selected program and distinct ids, at most one listed program is active |
| Programs.FilterKeepsDistinctIds | src/lib/repositories/programs.ts:32 | dropping soft-deleted plans keeps ids distinct |
| Programs.ResolveProgramSelector | src/lib/repositories/programs.ts:45-88 | active mode picks the selected program, else the single current plan, else fails with the count; otherwise the selector is required, resolved by id or name, and a soft-deleted plan is refused |
| Programs.ActiveResolution | src/lib/repositories/programs.ts:58-72 | with no selected program, active mode succeeds iff exactly one plan is current, and returns that plan |
| Programs.ProgramRowOf | src/lib/repositories/programs.ts:100-113 | the found plan has the id and is not soft-deleted; not found means no such plan is live |
| Programs.ProgramDetailOf | src/lib/repositories/programs.ts:90-253 | the detail fails exactly when the program row is missing, and then with not-found naming the id |
| Programs.GroupSetsByConfig | src/lib/repositories/programs.ts:159-178 | the grouping loop maps each exercise configuration to its set configurations, in order |
| Programs.GroupExercisesByRoutine | src/lib/repositories/programs.ts:195-223 | the grouping loop maps each routine to its planned exercises, in order |
| Programs.GroupRoutinesByWeek | src/lib/repositories/programs.ts:225-236 | the grouping loop maps each week to its routines, in order |
| Programs.GetProgramDetail | src/lib/repositories/programs.ts:90-253 | the imperative detail computation equals the `ProgramDetailOf` specification |
| Programs.SetsByConfigIsFilter | src/lib/repositories/programs.ts:159-178 | a configuration's sets are the set rows pointing at it, in order, converted |
| Programs.FallbackShape | src/lib/repositories/programs.ts:200-209 | with no explicit sets, an exercise gets max(planned sets, 1) copies of its planned reps, time and converted weight |
| Programs.ExplicitSetsWin | src/lib/repositories/programs.ts:200-209 | explicit set rows replace the fallback sets |
| Programs.ExercisesByRoutineIsFilter | src/lib/repositories/programs.ts:195-223 | a routine's exercises are the configuration rows of that routine, in order |
| Programs.RoutinesByWeekIsFilter | src/lib/repositories/programs.ts:225-236 | a week's routines are the routine rows of that week, in order |
| Programs.ProgramDetailShape | src/lib/repositories/programs.ts:238-252 | the summary is the program row's summary and there is one week per week id, in order |
| Exercises.SelectorCandidates | src/lib/repositories/exercises.ts:50-58 | one candidate per row with its id and display name |
| Exercises.ResolveExerciseSelector | src/lib/repositories/exercises.ts:60-93 | digits parse as the id. Otherwise raw or display names of non-deleted exercises, lower-cased against the trimmed lower-cased selector: a unique exact match wins, several are ambiguous; then the same for substrings; no-records exactly when neither tier matches |
| Exercises.ResolvedExerciseIsVisibleMatch | src/lib/repositories/exercises.ts:67-87 | a resolved name selector names a non-deleted exercise that matched it |
| Exercises.SoftDeletedNeverMatches | src/lib/repositories/exercises.ts:67 | soft-deleted exercises are in neither tier |
| Exercises.SelectorCaseAndSpaceIgnored | src/lib/repositories/exercises.ts:63 | selectors that agree after lower-casing and trimming resolve alike |
| Exercises.DisplayNameSelects | test/commands/exercises.show.test.ts:98 | with squat, bench_press and bench, "Bench Press" selects bench_press by its display name |
| Exercises.PrefixIsAmbiguous | test/commands/exercises.show.test.ts:90-95 | with the same exercises, "ben" is ambiguous and lists "1001:Bench Press" then "1002:Bench" |
| Exercises.AmbiguousSubstring | src/lib/repositories/exercises.ts:81-89 | no exact match and several substring matches give the ambiguity error listing them |
| Exercises.ListExercises | src/lib/repositories/exercises.ts:95-180 | the result is a permutation of the summaries of the listed rows, sorted by the requested key (name by default) |
| Exercises.SortSummaries | src/lib/repositories/exercises.ts:155-179 | the in-place sort leaves the array sorted by the key and a permutation of what it held |
| Exercises.InsertAt | src/lib/repositories/exercises.ts:155-179 | one insertion step extends the sorted prefix by one and permutes the array |
| Exercises.ListedExactly | src/lib/repositories/exercises.ts:99-141 | kept rows are non-deleted and pass the equipment, muscle and name filters, and every such row is listed |
| Exercises.TimesPerformedFirstIsMost | src/lib/repositories/exercises.ts:157-160 | sorted by times performed, the first exercise has the most |
| Exercises.NeverPerformedLast | src/lib/repositories/exercises.ts:162-170 | sorted by last performed, never-performed exercises come last |
| Exercises.CompareFlip | src/lib/repositories/exercises.ts:155-179 | each sort comparator is antisymmetric |
| Exercises.LeTransitive | src/lib/repositories/exercises.ts:155-179 | each sort order is transitive |
| Exercises.ExerciseHistoryResult | src/lib/repositories/exercises.ts:182-249 | history fails exactly when the date range, program or routine fails. Otherwise it is the first `limit` rows, or all, that pass the `WHERE`/`HAVING` bounds, with bounds in kg, each converted to the exercise's unit |
| Exercises.UnfilteredHistory | src/lib/repositories/exercises.ts:182-249 | without filters every history row is returned |
| Exercises.LatestHistory | src/lib/repositories/exercises.ts:318-320 | the latest entry exists iff there is history, and is the first row converted |
| Exercises.LatestIsFirst | src/lib/repositories/exercises.ts:295 | history with limit 1 is the first row alone, or empty |
| Exercises.SliceEnd | src/lib/repositories/exercises.ts:305 | the end index of `slice(0, end)`, also for negative ends |
| Exercises.ExerciseDetailOf | src/lib/repositories/exercises.ts:251-312 | a missing exercise is exactly the not-found error. Otherwise the totals are the routine and workout counts; recent routines are the first `historyLimit` (default 3) names or "(unnamed)"; the last entry exists iff there is history |
| Exercises.DefaultRecentRoutines | src/lib/repositories/exercises.ts:254 | by default at most three recent routines, and all of them when there are no more |
| Exercises.FindEntry | src/lib/repositories/exercises.ts:323 | corrected lookup: `find` stops at the first row with the exercise id, and finds none exactly when no row has it |
| Exercises.SnapshotIsLatestEntry | src/lib/repositories/exercises.ts:314-327 | corrected snapshot: null without history, the not-found error when the latest workout is missing; otherwise it exists iff that workout holds an entry for the exercise, and it is that workout's detail and its first entry for the exercise |
| Exercises.FindAsWrittenNeverMatches | src/lib/repositories/exercises.ts:323 | as written the lookup `entry.exerciseId` is always undefined, so `find` never matches |
| Exercises.SnapshotAsWrittenIsNeverFound | src/lib/repositories/exercises.ts:314-327 | as written the snapshot is always null |
| Exercises.SnapshotCounterexample | src/lib/repositories/exercises.ts:323 | exercise 5 performed in workout 7 has a snapshot in the corrected model but none as written |
| JsonWeight.SerializeHistoryRows | src/lib/json-weight.ts:4-12 | one row per history row, whose top weight is wrapped with the unit |
| JsonWeight.HistoryRoundTrip | src/lib/json-weight.ts:4-12 | unwrapping the serialised rows gives back the rows |
| JsonWeight.ProgramDetailRoundTrip | src/lib/json-weight.ts:14-35 | unwrapping the serialised program tree gives back the tree |
| JsonWeight.ProgramDetailShape | src/lib/json-weight.ts:20-31 | the tree keeps its shape, and every planned weight and set weight is wrapped with the unit |
| JsonWeight.WorkoutDetailRoundTrip | src/lib/json-weight.ts:37-48 | unwrapping the serialised workout gives back the workout |
| JsonWeight.WorkoutSetsKeepVolume | src/lib/json-weight.ts:40-46 | every set keeps id, reps, RPE, time and volume, and only its weight is wrapped |
| ExercisesCommand.FormatMusclesCell | src/commands/exercises.ts:16-25 | the cell starts with the primary muscles or "n/a", and is exactly that when secondary is null or empty |
| ExercisesCommand.MusclesCellLines | src/commands/exercises.ts:16-25 | the cell's lines are the primary followed by the non-empty trimmed comma parts of secondary |
| ExercisesCommand.BlankSecondaryLeavesEmptyLine | src/commands/exercises.ts:18-24 | a secondary made only of commas and blanks leaves a trailing newline and an empty line |
| ExercisesCommand.ToHistoryFilters | src/commands/exercises.ts:67-79 | `--all` removes the limit; otherwise the limit is `--limit` or 100; every other filter is copied |
| ExercisesCommand.NoHistoryFlagsMeansDefault | src/commands/exercises.ts:52-79 | without history flags the filters are the defaults with limit 100 |
| ExercisesCommand.ListFlagsDoNotCount | src/commands/exercises.ts:52-65 | list-only flags do not make history filters |
| ExercisesCommand.ExercisesPlan | src/commands/exercises.ts:114-145 | history flags without a selector are an error; no selector lists, with a sort; a selector shows that exercise |
| ExercisesCommand.DefaultSortIsName | src/commands/exercises.ts:101-104 | the list sorts by name when `--sort` is not given |
| WorkoutsCommand.RoundedMinutes | src/commands/workouts/show.ts:12 | `Math.round(s / 60)` is the whole number of minutes nearest to s, halves going up |
| WorkoutsCommand.RoundedMinutesIsNearest | src/commands/workouts/show.ts:12 | no other whole number of minutes is closer to the duration |
| WorkoutsCommand.FormatDurationMinutes | src/commands/workouts/show.ts:10-13 | a null duration shows "n/a"; otherwise the rounded minutes followed by " minutes" |
| WorkoutsCommand.WorkoutListLimit | src/commands/workouts/list.ts:35 | `--all` removes the limit; otherwise `--limit` or 25 |
| WorkoutsCommand.WorkoutsJson | src/commands/workouts/list.ts:42-50 | each workout's duration becomes `{unit: "seconds", value}` |
| WorkoutsCommand.WorkoutsJsonRoundTrip | src/commands/workouts/list.ts:42-50 | unwrapping the JSON durations gives back the workouts |
| WorkoutsCommand.WorkoutTableRow | src/commands/workouts/list.ts:63-69 | the row's columns are id, program, routine, date and duration, in that order |
| WorkoutsCommand.ShownWorkoutId | src/commands/workouts/show.ts:35-44 | a non-numeric id is refused; a numeric id is used as given |
| WorkoutsCommand.DefaultToLatest | src/commands/workouts/show.ts:39-44 | with no id the latest workout is shown, or "No workouts found." when there are none |
| WorkoutsCommand.ShownWorkoutJsonOf | src/commands/workouts/show.ts:49-59 | the serialised workout with its duration wrapped as seconds |
| ProgramsShow.ShowTarget | src/commands/programs/show.ts:74-84 | a selector together with `--active`/`--current` is the both-given error; neither is the neither-given error; otherwise active mode iff a flag was given |
| ProgramsShow.CheckedSelectorIsPresent | src/commands/programs/show.ts:76-84 | after the argument checks, selector resolution never reports a missing selector |
| ProgramsShow.WeightCell | src/commands/programs/show.ts:48 | the weight cell is null exactly when the set has no weight |
| ProgramsShow.ProgramRowCount | src/commands/programs/show.ts:24-56 | the table has one heading row per exercise plus one row per set |
| ProgramsShow.WeekLabelOnFirstRow | src/commands/programs/show.ts:32 | in a week's rows, only the first row of the first routine's first exercise carries "Week n", and all others are blank |
| ProgramsShow.ExerciseBlockShape | src/commands/programs/show.ts:30-52 | an exercise block is a heading row with the routine label on the routine's first exercise only, `[id ?? configId] name` and null set cells, then one row per set with blank labels, its reps, RPE and time, and a weight that is null iff the set has none and otherwise `<weight> <unit>` |

## Left out

- The database itself is not modelled: SQL execution, joins and the Kysely query builder.
  - Each query's rows are model inputs in the query's `ORDER BY` order.
  - SQL aggregates (`COUNT`, `SUM`, `MAX`, `COALESCE`) arrive as given columns.
- SQLite `lower()` and `LIKE` are modelled as ASCII case mapping and case-insensitive substring tests. `LIKE`'s `%`/`_` wildcards inside user text are not interpreted.
- Strings.Lower, Strings.Upper: case mapping is ASCII-only. JavaScript's `toLowerCase`/`toUpperCase` also map non-ASCII letters, and the model does not.
- Output.Widths, Output.RenderTable: text lengths are counted in code points (one per `char`). JavaScript's `.length` and `padEnd` count UTF-16 code units, so text outside the Basic Multilingual Plane gets widths different from the source's.
- `localeCompare` is modelled as code-point lexicographic order, because locale collation is not available.
- Fractional values are modelled as mathematical reals: weights, volumes, Apple timestamps and unit factors. Durations, reps, RPE, seconds, counts and ids are integers. `Number(x.toFixed(2))` (`Units.Round2`) is modelled as the nearest hundredth with halves rounded away from zero. Binary floating-point error is not modelled.
- `Date`, the local time zone and daylight saving are not modelled.
  - Local midnight of a date is the parameter `dayStart`.
  - `toISOString` is an opaque instant (`Time.Iso`).
  - `dateText` in `WorkoutsCommand.WorkoutTableRow` is the `toISOString` text of a date, which the workouts list puts in its table unformatted.
  - The date-fns `formatWorkoutDate` helper is not modelled. It only feeds the "Date: …" log lines, which are left out.
- These helpers are passed in as parameters, because their code is not part of this model:
  - `withWeightUnit`, `weightUnitLabel`, `convertDisplayWeightToKg`;
  - `formatEquipmentDisplayName`, `formatMuscleLabel`;
  - number-to-text conversion.
- `getExerciseHistoryWithSetsRows` is not part of this model, so neither is the history-with-sets JSON the `exercises` command assembles from it.
- The JSON object assembled by the `exercises`/`exercises show` commands (src/commands/exercises.ts:149-175) is not modelled as a whole. Only its parts are: the detail, the history filters and the weight wrappers.
- The plain-text `log` lines of the `show` commands are not modelled (headings, "Program: …", "Date: …"). The one exception is the duration text, `WorkoutsCommand.FormatDurationMinutes`.
- Of the tables the commands print, the model covers `renderTable` itself, the `workouts list` rows, the `programs show` rows and the muscles cell of the exercise tables. It does not cover the other row builders. Among those are the last-performed set table and the history table of the `exercises` command (src/commands/exercises.ts:200-235) and the set table of `workouts show`.
- The oclif layer is not modelled: argument and flag parsing, `exclusive: ['limit']`, the `--sort` options check, `enableJsonFlag`, config, the init hook, `printJson` and `json-error`.
  - Flags arrive already parsed.
  - The `programs/show.ts` `.replace(/^\n+/, '')` is dropped, because the rendered table never starts with a newline.
- The list and show subcommands duplicate `formatMusclesCell` and `toHistoryFilters` (src/commands/exercises/list.ts:7-16, src/commands/exercises/show.ts:37-49). Those copies are modelled once, in `ExercisesCommand`.
- Dispatch-only commands (`src/commands/workouts.ts`, `src/commands/programs.ts`, `src/commands/exercises/index.ts`, `programs/list.ts`) are not modelled. They only forward to the modelled repository calls.
- Non-numeric cell values in tables: `Output.Cell` has no variant for JavaScript floats, so weights and volumes are shown through the `numberText` parameter as text.
- WorkoutsCommand.WorkoutTableRow: the contract states only the column order. The cell contents are copied fields and a parameterised date text.
- The `?? '(unnamed)'` on the exercise name in src/commands/programs/show.ts:34 is not modelled as a branch, because the repository always supplies a string name there.
- Integer widths: ids, counts and limits are unbounded integers. JavaScript's 2^53 limit is not modelled.

## Findings

| source | as written | input that shows it | evidently intended | confidence | as-written member | corrected member |
|---|---|---|---|---|---|---|
| src/lib/repositories/exercises.ts:323 | `find(entry => entry.exerciseId === exerciseId)`, but the entries built at src/lib/repositories/workouts.ts:129-133 have no `exerciseId` field (src/lib/types.ts:66-70), so the lookup is `undefined` and never matches; the last-performed snapshot is always null | exercise 5 with one history row in workout 7, whose detail has an exercise result for exercise 5 | each exercise result comes with its exercise id (ei.Z_PK) and `find` compares that id (src/commands/workouts/show.ts:68 reads `exercise.exerciseId` too); the corrected model takes that id as an extra input column, `Exercises.IdentifiedResultRow` | not executed | Exercises.SnapshotCounterexample | Exercises.SnapshotIsLatestEntry |
