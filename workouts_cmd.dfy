/** The pure parts of the workout commands (src/commands/workouts/list.ts,
    src/commands/workouts/show.ts): duration text, the list limit, the JSON
    duration wrapper, the table row and the choice of the workout to show. */
module WorkoutsCommand {
  import opened Strings
  import opened Base
  import opened Time
  import opened Output
  import opened Selectors
  import Workouts
  import JsonWeight

  // ---------------------------------------------------------------------------
  // formatDurationMinutes

  /** Math.round(seconds / 60) for a whole number of seconds (halves round up). */
  function RoundedMinutes(seconds: nat): (m: nat)
    ensures 60 * m <= seconds + 30 < 60 * m + 60
  {
    (seconds + 30) / 60
  }

  /** formatDurationMinutes */
  function FormatDurationMinutes(duration: Option<nat>): (r: string)
    ensures duration.None? ==> r == "n/a"
    ensures duration.Some? ==> r == NatToString(RoundedMinutes(duration.value)) + " minutes"
  {
    if duration.None? then "n/a" else NatToString(RoundedMinutes(duration.value)) + " minutes"
  }

  /** The minutes shown are the nearest whole number of minutes. */
  lemma RoundedMinutesIsNearest(seconds: nat, other: nat)
    ensures var m := RoundedMinutes(seconds);
      (if 60 * m >= seconds then 60 * m - seconds else seconds - 60 * m)
      <= (if 60 * other >= seconds then 60 * other - seconds else seconds - 60 * other)
  {
  }

  /** A whole number of minutes is shown as that number, and 3500 s is 58 minutes. */
  lemma WholeMinutes(minutes: nat)
    ensures RoundedMinutes(60 * minutes) == minutes
    ensures RoundedMinutes(3500) == 58
  {
  }

  // ---------------------------------------------------------------------------
  // workouts list

  /** flags.all ? undefined : (flags.limit ?? 25) */
  function WorkoutListLimit(all: bool, limit: Option<int>): (r: Option<int>)
    ensures all ==> r.None?
    ensures !all && limit.Some? ==> r == limit
    ensures !all && limit.None? ==> r == Some(25)
  {
    if all then None else Some(limit.GetOr(25))
  }

  /** The JSON form of a duration. */
  datatype DurationJson = DurationJson(unit: string, value: Option<nat>)

  function SecondsJson(duration: Option<nat>): DurationJson
  {
    DurationJson("seconds", duration)
  }

  datatype WorkoutSummaryJson = WorkoutSummaryJson(
    date: Option<Iso>, duration: DurationJson, id: int, program: Option<string>, routine: Option<string>)

  /** The JSON output of workouts list: duration wrapped as { unit: "seconds", value }. */
  function WorkoutsJson(workouts: seq<Workouts.WorkoutSummary>): (r: seq<WorkoutSummaryJson>)
    ensures |r| == |workouts|
    ensures forall i :: 0 <= i < |r| ==> r[i].duration.unit == "seconds" && r[i].duration.value == workouts[i].duration
  {
    MapSeq(workouts, (w: Workouts.WorkoutSummary) => WorkoutSummaryJson(w.date, SecondsJson(w.duration), w.id, w.program, w.routine))
  }

  function UnwrapSummary(j: WorkoutSummaryJson): Workouts.WorkoutSummary
  {
    Workouts.WorkoutSummary(j.date, j.duration.value, j.id, j.program, j.routine)
  }

  /** Only the duration changes: unwrapping it restores every summary, in order. */
  lemma WorkoutsJsonRoundTrip(workouts: seq<Workouts.WorkoutSummary>)
    ensures MapSeq(WorkoutsJson(workouts), UnwrapSummary) == workouts
  {
  }

  /** One table row of workouts list: id, program, routine, date, duration, in that
      order. `dateText` is the ISO text of a date. */
  function WorkoutTableRow(w: Workouts.WorkoutSummary, dateText: Iso -> string): (row: Row)
    ensures Keys(row) == ["id", "program", "routine", "date", "duration"]
  {
    [("id", Int(w.id)),
     ("program", if w.program.Some? then Text(w.program.value) else Null),
     ("routine", if w.routine.Some? then Text(w.routine.value) else Null),
     ("date", if w.date.Some? then Text(dateText(w.date.value)) else Null),
     ("duration", Text(FormatDurationMinutes(w.duration)))]
  }

  // ---------------------------------------------------------------------------
  // workouts show

  /** The filters of the latest-workout query: limit 1. */
  function LatestFilters(): Workouts.WorkoutFilters
  {
    Workouts.WorkoutFilters(None, Some(1), None, None, None, None)
  }

  /** The workout to show: a given id must be all digits; without one, the latest
      workout (listWorkouts with limit 1), and none is an error. */
  function ShownWorkoutId(workoutId: Option<string>, rows: seq<Workouts.WorkoutRow>, programs: seq<NamedRow>,
                          routines: seq<NamedRow>, dayStart: LocalDate -> real): (r: Result<int>)
    ensures workoutId.Some? && !IsNumeric(workoutId.value) ==> r == Err(WorkoutIdNotNumeric)
    ensures workoutId.Some? && IsNumeric(workoutId.value) ==> r == Ok(DigitsValue(workoutId.value))
  {
    if workoutId.Some? && !IsNumeric(workoutId.value) then Err(WorkoutIdNotNumeric)
    else if workoutId.Some? && workoutId.value != "" then Ok(DigitsValue(workoutId.value))
    else
      var latest :- Workouts.ListWorkouts(LatestFilters(), rows, programs, routines, dayStart);
      if |latest| == 0 then Err(NoWorkoutsFound) else Ok(latest[0].id)
  }

  /** Without an id the first workout row is shown, and no rows is "No workouts found." */
  lemma DefaultToLatest(rows: seq<Workouts.WorkoutRow>, programs: seq<NamedRow>, routines: seq<NamedRow>,
                        dayStart: LocalDate -> real)
    ensures var r := ShownWorkoutId(None, rows, programs, routines, dayStart);
      && (|rows| == 0 ==> r == Err(NoWorkoutsFound))
      && (|rows| > 0 ==> r == Ok(rows[0].id))
  {
    var range := AppleRange(None, None);
    var keep := (row: Workouts.WorkoutRow) => Workouts.ListedRow(row, None, None, range);
    FilterAll(rows, keep);
    assert Filter(rows, row => Workouts.ListedRow(row, None, None, range)) == rows;
  }

  datatype ShownWorkoutJson<W> = ShownWorkoutJson(
    date: Option<Iso>, duration: DurationJson, exercises: seq<JsonWeight.WorkoutExerciseJson<W>>,
    id: int, program: Option<string>, routine: Option<string>)

  /** The JSON output of workouts show: the weight-wrapped detail with its duration
      wrapped as { unit: "seconds", value }. */
  function ShownWorkoutJsonOf<W>(d: JsonWeight.WorkoutDetailJson<W>): (r: ShownWorkoutJson<W>)
    ensures r.duration == DurationJson("seconds", d.duration)
    ensures r.exercises == d.exercises && r.id == d.id && r.date == d.date
    ensures r.program == d.program && r.routine == d.routine
  {
    ShownWorkoutJson(d.date, SecondsJson(d.duration), d.exercises, d.id, d.program, d.routine)
  }
}
