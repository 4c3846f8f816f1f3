/** Workout listing and workout detail (src/lib/repositories/workouts.ts). Each
    query result is an input sequence of rows; the code after the query is modelled. */
module Workouts {
  import opened Strings
  import opened Base
  import opened Rpe
  import opened Units
  import opened Time
  import opened Names
  import opened Selectors

  datatype WorkoutSummary = WorkoutSummary(
    date: Option<Iso>, duration: Option<nat>, id: int, program: Option<string>, routine: Option<string>)

  datatype WorkoutSet = WorkoutSet(
    id: int, reps: Option<int>, rpe: Option<int>, timeSeconds: Option<int>,
    volume: Option<real>, weight: Option<real>)

  /** One exercise result of a workout: its result id, display name and sets. */
  datatype WorkoutExerciseDetail = WorkoutExerciseDetail(
    exerciseResultId: int, name: string, sets: seq<WorkoutSet>)

  datatype WorkoutDetail = WorkoutDetail(
    date: Option<Iso>, duration: Option<nat>, exercises: seq<WorkoutExerciseDetail>,
    id: int, program: Option<string>, routine: Option<string>)

  /** One row of ZWORKOUTRESULT joined with its routine (r) and the routine's plan (p). */
  datatype WorkoutRow = WorkoutRow(
    id: int, startDate: Option<real>, duration: Option<nat>,
    routineNameFromResult: Option<string>, routineNameFromPlan: Option<string>,
    programName: Option<string>, routineId: Option<int>, routinePlanId: Option<int>)

  /** The stored routine name of the result, else the plan routine's name. */
  function RoutineName(row: WorkoutRow): (r: Option<string>)
    ensures row.routineNameFromResult.Some? ==> r == row.routineNameFromResult
    ensures row.routineNameFromResult.None? ==> r == row.routineNameFromPlan
  {
    if row.routineNameFromResult.Some? then row.routineNameFromResult else row.routineNameFromPlan
  }

  // ---------------------------------------------------------------------------
  // listWorkouts

  datatype WorkoutFilters = WorkoutFilters(
    from: Option<string>, limit: Option<int>, on: Option<string>,
    program: Option<string>, routine: Option<string>, to: Option<string>)

  /** Both bounds are inclusive; a row without a start date fails any bound. */
  predicate InRange(startDate: Option<real>, range: AppleRange)
  {
    && (range.from.Some? ==> startDate.Some? && startDate.value >= range.from.value)
    && (range.to.Some? ==> startDate.Some? && startDate.value <= range.to.value)
  }

  /** The WHERE clause: the program filter reads only the routine's own plan column. */
  predicate ListedRow(row: WorkoutRow, programId: Option<int>, routineId: Option<int>, range: AppleRange)
  {
    && (programId.Some? ==> row.routinePlanId == programId)
    && (routineId.Some? ==> row.routineId == routineId)
    && InRange(row.startDate, range)
  }

  function ToSummary(row: WorkoutRow): WorkoutSummary
  {
    WorkoutSummary(AppleSecondsToIso(row.startDate), row.duration, row.id, row.programName, RoutineName(row))
  }

  /** listWorkouts over the joined rows, given in ZSTARTDATE-descending order. The
      date flags are checked first, then the program and routine selectors. */
  function ListWorkouts(filters: WorkoutFilters, rows: seq<WorkoutRow>, programs: seq<NamedRow>,
                        routines: seq<NamedRow>, dayStart: LocalDate -> real): Result<seq<WorkoutSummary>>
  {
    var range :- DateRange(DateFilterInput(filters.from, filters.on, filters.to), dayStart);
    var programId :- ResolveOptional(programs, filters.program);
    var routineId :- ResolveOptional(routines, filters.routine);
    var kept := Filter(rows, row => ListedRow(row, programId, routineId, range));
    Ok(MapSeq(Take(kept, SqlLimit(filters.limit)), ToSummary))
  }

  /** Rows sorted by start date, latest first (rows without one last, as SQLite sorts NULL low). */
  predicate StartDescending(rows: seq<WorkoutRow>)
  {
    forall i, j :: 0 <= i < j < |rows| ==> StartBefore(rows[j].startDate, rows[i].startDate)
  }

  predicate StartBefore(a: Option<real>, b: Option<real>)
  {
    a.None? || (b.Some? && a.value <= b.value)
  }

  /** What listWorkouts promises: at most `limit` summaries, each from a row that passes
      every filter, routine names falling back to the plan's; the result is a prefix
      of the filtered rows, so their order is kept. */
  lemma ListWorkoutsResult(filters: WorkoutFilters, rows: seq<WorkoutRow>, programs: seq<NamedRow>,
                           routines: seq<NamedRow>, dayStart: LocalDate -> real)
    requires ListWorkouts(filters, rows, programs, routines, dayStart).Ok?
    ensures var out := ListWorkouts(filters, rows, programs, routines, dayStart).value;
      var range := DateRange(DateFilterInput(filters.from, filters.on, filters.to), dayStart).value;
      var programId := ResolveOptional(programs, filters.program).value;
      var routineId := ResolveOptional(routines, filters.routine).value;
      var kept := Filter(rows, row => ListedRow(row, programId, routineId, range));
      && (filters.limit.Some? && filters.limit.value >= 0 ==> |out| == Min(filters.limit.value, |kept|))
      && (filters.limit.None? || filters.limit.value < 0 ==> |out| == |kept|)
      && (forall i :: 0 <= i < |out| ==>
            out[i] == ToSummary(kept[i]) && kept[i] in rows && ListedRow(kept[i], programId, routineId, range))
  {
  }

  /** Filtering keeps the order of its input. */
  lemma {:induction false} FilterKeepsDescending(rows: seq<WorkoutRow>, keep: WorkoutRow -> bool)
    requires StartDescending(rows)
    ensures StartDescending(Filter(rows, keep))
  {
    if rows != [] {
      FilterKeepsDescending(rows[1..], keep);
      var rest := Filter(rows[1..], keep);
      forall j | 0 <= j < |rest| ensures StartBefore(rest[j].startDate, rows[0].startDate) {
        assert rest[j] in rows[1..];
      }
    }
  }

  /** Given rows in ZSTARTDATE-descending order, the listed workouts are latest first. */
  lemma ListWorkoutsDescending(filters: WorkoutFilters, rows: seq<WorkoutRow>, programs: seq<NamedRow>,
                               routines: seq<NamedRow>, dayStart: LocalDate -> real)
    requires StartDescending(rows)
    requires ListWorkouts(filters, rows, programs, routines, dayStart).Ok?
    ensures var out := ListWorkouts(filters, rows, programs, routines, dayStart).value;
      forall i, j :: 0 <= i < j < |out| ==> StartBefore(UnIso(out[j].date), UnIso(out[i].date))
  {
    var range := DateRange(DateFilterInput(filters.from, filters.on, filters.to), dayStart).value;
    var programId := ResolveOptional(programs, filters.program).value;
    var routineId := ResolveOptional(routines, filters.routine).value;
    var keep := row => ListedRow(row, programId, routineId, range);
    FilterKeepsDescending(rows, keep);
    var kept := Filter(rows, keep);
    var out := ListWorkouts(filters, rows, programs, routines, dayStart).value;
    forall i, j | 0 <= i < j < |out| ensures StartBefore(UnIso(out[j].date), UnIso(out[i].date)) {
      IsoDateRoundTrip(kept[i].startDate);
      IsoDateRoundTrip(kept[j].startDate);
    }
  }

  /** The reference seconds an ISO date denotes. */
  function UnIso(date: Option<Iso>): Option<real>
  {
    if date.None? then None else Some(DateToAppleSeconds(date.value.unixMillis))
  }

  lemma IsoDateRoundTrip(startDate: Option<real>)
    ensures UnIso(AppleSecondsToIso(startDate)) == startDate
  {
    if startDate.Some? {
      AppleSecondsRoundTrip(startDate.value, 0.0);
    }
  }

  // ---------------------------------------------------------------------------
  // getWorkoutDetail

  /** One exercise result of the workout (er) with its exercise (ei), in er.Z_PK order. */
  datatype ExerciseResultRow = ExerciseResultRow(
    exerciseResultId: int, isUserCreated: Option<int>, exerciseName: Option<string>)

  /** One set result (ZGYMSETRESULT) of those exercise results, in Z_PK order. */
  datatype SetResultRow = SetResultRow(
    id: int, exerciseResultId: Option<int>, reps: Option<int>, rpe: Option<int>,
    weight: Option<real>, timeSeconds: Option<int>, volume: Option<real>)

  /** The three query results getWorkoutDetail reads for one workout id. */
  datatype WorkoutQueries = WorkoutQueries(
    workout: Option<WorkoutRow>, exercises: seq<ExerciseResultRow>, sets: seq<SetResultRow>)

  function ToWorkoutSet(row: SetResultRow, unit: UnitPreference): WorkoutSet
  {
    WorkoutSet(row.id, row.reps, NormalizeRpe(row.rpe), row.timeSeconds,
               ConvertKgToDisplayVolume(row.volume, unit), ConvertKgToDisplayWeight(row.weight, unit))
  }

  /** The sets grouped under one exercise result id, accumulated row by row. */
  function SetsFor(rows: seq<SetResultRow>, exerciseResultId: int, unit: UnitPreference): seq<WorkoutSet>
  {
    if rows == [] then []
    else
      var last := rows[|rows| - 1];
      SetsFor(rows[..|rows| - 1], exerciseResultId, unit)
        + (if last.exerciseResultId == Some(exerciseResultId) then [ToWorkoutSet(last, unit)] else [])
  }

  function ExerciseEntry(row: ExerciseResultRow, setRows: seq<SetResultRow>, unit: UnitPreference): WorkoutExerciseDetail
  {
    WorkoutExerciseDetail(row.exerciseResultId,
      FormatExerciseDisplayName(row.exerciseName, AsBool(row.isUserCreated)),
      SetsFor(setRows, row.exerciseResultId, unit))
  }

  /** The set query is not run when the workout has no exercise results. */
  function SetRowsRead(q: WorkoutQueries): seq<SetResultRow>
  {
    if |q.exercises| == 0 then [] else q.sets
  }

  /** getWorkoutDetail with the global unit. */
  function WorkoutDetailOf(settings: Option<SettingsRow>, q: WorkoutQueries, workoutId: int): (r: Result<WorkoutDetail>)
    ensures r.Err? <==> q.workout.None?
    ensures r.Err? ==> r.error == WorkoutNotFound(workoutId)
    ensures r.Ok? ==> |r.value.exercises| == |q.exercises|
  {
    if q.workout.None? then Err(WorkoutNotFound(workoutId))
    else
      var unit := ResolveGlobalWeightUnit(settings);
      var w := q.workout.value;
      var setRows := SetRowsRead(q);
      var exercises := seq(|q.exercises|, i requires 0 <= i < |q.exercises| => ExerciseEntry(q.exercises[i], setRows, unit));
      Ok(WorkoutDetail(AppleSecondsToIso(w.startDate), w.duration, exercises, w.id, w.programName, RoutineName(w)))
  }

  /** The setsByExercise loop: every set row with a result id is appended to that
      id's list; rows with a null id are skipped. */
  method GroupSetsByExercise(setRows: seq<SetResultRow>, unit: UnitPreference) returns (setsByExercise: map<int, seq<WorkoutSet>>)
    ensures forall k :: MapGet(setsByExercise, k) == SetsFor(setRows, k, unit)
  {
    setsByExercise := map[];
    for i := 0 to |setRows|
      invariant forall k :: MapGet(setsByExercise, k) == SetsFor(setRows[..i], k, unit)
    {
      var row := setRows[i];
      assert setRows[..i + 1][..i] == setRows[..i];
      if row.exerciseResultId.Some? {
        var id := row.exerciseResultId.value;
        var current := MapGet(setsByExercise, id);
        setsByExercise := setsByExercise[id := current + [ToWorkoutSet(row, unit)]];
      }
    }
    assert setRows[..|setRows|] == setRows;
  }

  /** getWorkoutDetail as the source computes it. */
  method GetWorkoutDetail(settings: Option<SettingsRow>, q: WorkoutQueries, workoutId: int) returns (r: Result<WorkoutDetail>)
    ensures r == WorkoutDetailOf(settings, q, workoutId)
  {
    var unit := ResolveGlobalWeightUnit(settings);
    if q.workout.None? {
      return Err(WorkoutNotFound(workoutId));
    }
    var workout := q.workout.value;
    var setRows := SetRowsRead(q);
    var setsByExercise := GroupSetsByExercise(setRows, unit);
    var exercises := seq(|q.exercises|, i requires 0 <= i < |q.exercises| =>
      WorkoutExerciseDetail(q.exercises[i].exerciseResultId,
        FormatExerciseDisplayName(q.exercises[i].exerciseName, AsBool(q.exercises[i].isUserCreated)),
        MapGet(setsByExercise, q.exercises[i].exerciseResultId)));
    assert exercises == seq(|q.exercises|, i requires 0 <= i < |q.exercises| => ExerciseEntry(q.exercises[i], setRows, unit));
    return Ok(WorkoutDetail(AppleSecondsToIso(workout.startDate), workout.duration, exercises,
                            workout.id, workout.programName, RoutineName(workout)));
  }

  // ---------------------------------------------------------------------------
  // Properties of getWorkoutDetail

  /** The set rows that carry one exercise result id, in their order. */
  function SetRowsOf(rows: seq<SetResultRow>, exerciseResultId: int): seq<SetResultRow>
  {
    Filter(rows, (row: SetResultRow) => row.exerciseResultId == Some(exerciseResultId))
  }

  function ConvertSets(rows: seq<SetResultRow>, unit: UnitPreference): seq<WorkoutSet>
  {
    MapSeq(rows, (row: SetResultRow) => ToWorkoutSet(row, unit))
  }

  /** The grouped sets of an exercise result are exactly the set rows carrying its id,
      in their order, each converted; rows with a null id are in no group. */
  lemma {:induction false} SetsForIsFilter(rows: seq<SetResultRow>, exerciseResultId: int, unit: UnitPreference)
    ensures SetsFor(rows, exerciseResultId, unit)
         == ConvertSets(SetRowsOf(rows, exerciseResultId), unit)
  {
    var keep := (row: SetResultRow) => row.exerciseResultId == Some(exerciseResultId);
    if rows != [] {
      var init, last := rows[..|rows| - 1], rows[|rows| - 1];
      SetsForIsFilter(init, exerciseResultId, unit);
      SnocSplit(rows);
      MapFilterSnoc(init, last, keep, (row: SetResultRow) => ToWorkoutSet(row, unit));
    }
  }

  /** One exercise entry per exercise-result row, in order, each with its own sets;
      the routine falls back to the plan routine's name. */
  lemma WorkoutDetailShape(settings: Option<SettingsRow>, q: WorkoutQueries, workoutId: int)
    requires q.workout.Some?
    ensures var d := WorkoutDetailOf(settings, q, workoutId).value;
      var unit := ResolveGlobalWeightUnit(settings);
      && |d.exercises| == |q.exercises|
      && d.routine == RoutineName(q.workout.value)
      && d.id == q.workout.value.id
      && forall i :: 0 <= i < |q.exercises| ==>
           && d.exercises[i].exerciseResultId == q.exercises[i].exerciseResultId
           && d.exercises[i].sets == ConvertSets(SetRowsOf(SetRowsRead(q), q.exercises[i].exerciseResultId), unit)
  {
    var unit := ResolveGlobalWeightUnit(settings);
    forall i | 0 <= i < |q.exercises| {
      SetsForIsFilter(SetRowsRead(q), q.exercises[i].exerciseResultId, unit);
    }
  }

  /** An exercise result with no set rows gets an empty list. */
  lemma NoSetsMeansEmpty(rows: seq<SetResultRow>, exerciseResultId: int, unit: UnitPreference)
    requires forall i :: 0 <= i < |rows| ==> rows[i].exerciseResultId != Some(exerciseResultId)
    ensures SetsFor(rows, exerciseResultId, unit) == []
  {
    SetsForIsFilter(rows, exerciseResultId, unit);
  }
}
