/** The JSON serialisers that wrap each weight field with its unit
    (src/lib/json-weight.ts). withWeightUnit is given as a function `withUnit`
    into an opaque wrapped type W; everything else is copied. */
module JsonWeight {
  import opened Base
  import opened Units
  import opened Time
  import Workouts
  import Programs
  import Exercises

  // ---------------------------------------------------------------------------
  // Exercise history

  datatype HistoryRowJson<W> = HistoryRowJson(
    date: Option<Iso>, routine: Option<string>, sets: nat, topReps: Option<int>,
    topWeight: W, totalReps: int, volume: real, workoutId: int)

  function HistoryRowWithUnit<W>(row: Exercises.ExerciseHistoryRow, unit: UnitPreference,
                                 withUnit: (Option<real>, UnitPreference) -> W): HistoryRowJson<W>
  {
    HistoryRowJson(row.date, row.routine, row.sets, row.topReps, withUnit(row.topWeight, unit),
                   row.totalReps, row.volume, row.workoutId)
  }

  /** serializeExerciseHistoryRowsWithWeightUnits */
  function SerializeHistoryRows<W>(rows: seq<Exercises.ExerciseHistoryRow>, unit: UnitPreference,
                                   withUnit: (Option<real>, UnitPreference) -> W): (r: seq<HistoryRowJson<W>>)
    ensures |r| == |rows|
    ensures forall i :: 0 <= i < |rows| ==> r[i].topWeight == withUnit(rows[i].topWeight, unit)
  {
    MapSeq(rows, (row: Exercises.ExerciseHistoryRow) => HistoryRowWithUnit(row, unit, withUnit))
  }

  /** Reading the weight back out of a wrapped row. */
  function UnwrapHistoryRow<W>(row: HistoryRowJson<W>, value: W -> Option<real>): Exercises.ExerciseHistoryRow
  {
    Exercises.ExerciseHistoryRow(row.date, row.routine, row.sets, row.topReps, value(row.topWeight),
                                 row.totalReps, row.volume, row.workoutId)
  }

  /** Only topWeight changes: when the wrapped weight can be read back, reading
      it back restores every row, in order. */
  lemma HistoryRoundTrip<W>(rows: seq<Exercises.ExerciseHistoryRow>, unit: UnitPreference,
                            withUnit: (Option<real>, UnitPreference) -> W, value: W -> Option<real>)
    requires forall w, u :: value(withUnit(w, u)) == w
    ensures MapSeq(SerializeHistoryRows(rows, unit, withUnit), (j: HistoryRowJson<W>) => UnwrapHistoryRow(j, value)) == rows
  {
  }

  // ---------------------------------------------------------------------------
  // Program detail

  datatype PlannedSetJson<W> = PlannedSetJson(
    id: Option<int>, reps: Option<int>, rpe: Option<int>, timeSeconds: Option<int>, weight: W)

  datatype PlannedExerciseJson<W> = PlannedExerciseJson(
    exerciseConfigId: int, id: Option<int>, name: string, plannedReps: Option<int>,
    plannedSets: Option<int>, plannedTimeSeconds: Option<int>, plannedWeight: W,
    sets: seq<PlannedSetJson<W>>)

  datatype ProgramRoutineJson<W> = ProgramRoutineJson(exercises: seq<PlannedExerciseJson<W>>, id: int, name: Option<string>)

  datatype ProgramWeekJson<W> = ProgramWeekJson(id: int, routines: seq<ProgramRoutineJson<W>>)

  datatype ProgramDetailJson<W> = ProgramDetailJson(program: Programs.ProgramSummary, weeks: seq<ProgramWeekJson<W>>)

  function PlannedSetWithUnit<W>(s: Programs.PlannedSet, unit: UnitPreference,
                                 withUnit: (Option<real>, UnitPreference) -> W): PlannedSetJson<W>
  {
    PlannedSetJson(s.id, s.reps, s.rpe, s.timeSeconds, withUnit(s.weight, unit))
  }

  function PlannedExerciseWithUnit<W>(e: Programs.PlannedExercise, unit: UnitPreference,
                                      withUnit: (Option<real>, UnitPreference) -> W): PlannedExerciseJson<W>
  {
    PlannedExerciseJson(e.exerciseConfigId, e.id, e.name, e.plannedReps, e.plannedSets, e.plannedTimeSeconds,
      withUnit(e.plannedWeight, unit),
      MapSeq(e.sets, (s: Programs.PlannedSet) => PlannedSetWithUnit(s, unit, withUnit)))
  }

  function RoutineWithUnit<W>(r: Programs.ProgramRoutine, unit: UnitPreference,
                              withUnit: (Option<real>, UnitPreference) -> W): ProgramRoutineJson<W>
  {
    ProgramRoutineJson(MapSeq(r.exercises, (e: Programs.PlannedExercise) => PlannedExerciseWithUnit(e, unit, withUnit)),
                       r.id, r.name)
  }

  function WeekWithUnit<W>(w: Programs.ProgramWeek, unit: UnitPreference,
                           withUnit: (Option<real>, UnitPreference) -> W): ProgramWeekJson<W>
  {
    ProgramWeekJson(w.id, MapSeq(w.routines, (r: Programs.ProgramRoutine) => RoutineWithUnit(r, unit, withUnit)))
  }

  /** serializeProgramDetailWithWeightUnits */
  function SerializeProgramDetail<W>(d: Programs.ProgramDetailTree, unit: UnitPreference,
                                     withUnit: (Option<real>, UnitPreference) -> W): (r: ProgramDetailJson<W>)
    ensures r.program == d.program
    ensures |r.weeks| == |d.weeks|
  {
    ProgramDetailJson(d.program, MapSeq(d.weeks, (w: Programs.ProgramWeek) => WeekWithUnit(w, unit, withUnit)))
  }

  function UnwrapPlannedSet<W>(s: PlannedSetJson<W>, value: W -> Option<real>): Programs.PlannedSet
  {
    Programs.PlannedSet(s.id, s.reps, s.rpe, s.timeSeconds, value(s.weight))
  }

  function UnwrapPlannedExercise<W>(e: PlannedExerciseJson<W>, value: W -> Option<real>): Programs.PlannedExercise
  {
    Programs.PlannedExercise(e.exerciseConfigId, e.id, e.name, e.plannedReps, e.plannedSets, e.plannedTimeSeconds,
      value(e.plannedWeight), MapSeq(e.sets, (s: PlannedSetJson<W>) => UnwrapPlannedSet(s, value)))
  }

  function UnwrapRoutine<W>(r: ProgramRoutineJson<W>, value: W -> Option<real>): Programs.ProgramRoutine
  {
    Programs.ProgramRoutine(MapSeq(r.exercises, (e: PlannedExerciseJson<W>) => UnwrapPlannedExercise(e, value)), r.id, r.name)
  }

  function UnwrapWeek<W>(w: ProgramWeekJson<W>, value: W -> Option<real>): Programs.ProgramWeek
  {
    Programs.ProgramWeek(w.id, MapSeq(w.routines, (r: ProgramRoutineJson<W>) => UnwrapRoutine(r, value)))
  }

  function UnwrapProgramDetail<W>(d: ProgramDetailJson<W>, value: W -> Option<real>): Programs.ProgramDetailTree
  {
    Programs.ProgramDetailTree(d.program, MapSeq(d.weeks, (w: ProgramWeekJson<W>) => UnwrapWeek(w, value)))
  }

  lemma PlannedExerciseRoundTrip<W>(e: Programs.PlannedExercise, unit: UnitPreference,
                                    withUnit: (Option<real>, UnitPreference) -> W, value: W -> Option<real>)
    requires forall w, u :: value(withUnit(w, u)) == w
    ensures UnwrapPlannedExercise(PlannedExerciseWithUnit(e, unit, withUnit), value) == e
  {
    var back := UnwrapPlannedExercise(PlannedExerciseWithUnit(e, unit, withUnit), value);
    assert back.sets == e.sets;
  }

  lemma RoutineRoundTrip<W>(r: Programs.ProgramRoutine, unit: UnitPreference,
                            withUnit: (Option<real>, UnitPreference) -> W, value: W -> Option<real>)
    requires forall w, u :: value(withUnit(w, u)) == w
    ensures UnwrapRoutine(RoutineWithUnit(r, unit, withUnit), value) == r
  {
    var back := UnwrapRoutine(RoutineWithUnit(r, unit, withUnit), value);
    forall i | 0 <= i < |r.exercises| ensures back.exercises[i] == r.exercises[i] {
      PlannedExerciseRoundTrip(r.exercises[i], unit, withUnit, value);
    }
    assert back.exercises == r.exercises;
  }

  lemma WeekRoundTrip<W>(w: Programs.ProgramWeek, unit: UnitPreference,
                         withUnit: (Option<real>, UnitPreference) -> W, value: W -> Option<real>)
    requires forall x, u :: value(withUnit(x, u)) == x
    ensures UnwrapWeek(WeekWithUnit(w, unit, withUnit), value) == w
  {
    var back := UnwrapWeek(WeekWithUnit(w, unit, withUnit), value);
    forall i | 0 <= i < |w.routines| ensures back.routines[i] == w.routines[i] {
      RoutineRoundTrip(w.routines[i], unit, withUnit, value);
    }
    assert back.routines == w.routines;
  }

  /** Only plannedWeight and the set weights change: the header is copied and, when
      the wrapped weight can be read back, reading it back restores the whole tree
      (every week, routine, exercise and set, in order). */
  lemma ProgramDetailRoundTrip<W>(d: Programs.ProgramDetailTree, unit: UnitPreference,
                                  withUnit: (Option<real>, UnitPreference) -> W, value: W -> Option<real>)
    requires forall w, u :: value(withUnit(w, u)) == w
    ensures UnwrapProgramDetail(SerializeProgramDetail(d, unit, withUnit), value) == d
  {
    var back := UnwrapProgramDetail(SerializeProgramDetail(d, unit, withUnit), value);
    forall i | 0 <= i < |d.weeks| ensures back.weeks[i] == d.weeks[i] {
      WeekRoundTrip(d.weeks[i], unit, withUnit, value);
    }
    assert back.weeks == d.weeks;
  }

  /** The serialised tree has the same routine, exercise and set counts everywhere,
      and each wrapped weight is the wrapper of the original weight. */
  lemma ProgramDetailShape<W>(d: Programs.ProgramDetailTree, unit: UnitPreference,
                              withUnit: (Option<real>, UnitPreference) -> W)
    ensures var r := SerializeProgramDetail(d, unit, withUnit);
      forall i :: 0 <= i < |d.weeks| ==>
        && r.weeks[i].id == d.weeks[i].id
        && |r.weeks[i].routines| == |d.weeks[i].routines|
        && forall j :: 0 <= j < |d.weeks[i].routines| ==>
             var x, y := r.weeks[i].routines[j], d.weeks[i].routines[j];
             && |x.exercises| == |y.exercises|
             && forall k :: 0 <= k < |y.exercises| ==>
                  && x.exercises[k].plannedWeight == withUnit(y.exercises[k].plannedWeight, unit)
                  && |x.exercises[k].sets| == |y.exercises[k].sets|
                  && forall m :: 0 <= m < |y.exercises[k].sets| ==>
                       x.exercises[k].sets[m].weight == withUnit(y.exercises[k].sets[m].weight, unit)
  {
  }

  // ---------------------------------------------------------------------------
  // Workout detail

  datatype WorkoutSetJson<W> = WorkoutSetJson(
    id: int, reps: Option<int>, rpe: Option<int>, timeSeconds: Option<int>, volume: Option<real>, weight: W)

  datatype WorkoutExerciseJson<W> = WorkoutExerciseJson(
    exerciseResultId: int, name: string, sets: seq<WorkoutSetJson<W>>)

  datatype WorkoutDetailJson<W> = WorkoutDetailJson(
    date: Option<Iso>, duration: Option<nat>, exercises: seq<WorkoutExerciseJson<W>>,
    id: int, program: Option<string>, routine: Option<string>)

  function WorkoutSetWithUnit<W>(s: Workouts.WorkoutSet, unit: UnitPreference,
                                 withUnit: (Option<real>, UnitPreference) -> W): WorkoutSetJson<W>
  {
    WorkoutSetJson(s.id, s.reps, s.rpe, s.timeSeconds, s.volume, withUnit(s.weight, unit))
  }

  function WorkoutExerciseWithUnit<W>(e: Workouts.WorkoutExerciseDetail, unit: UnitPreference,
                                      withUnit: (Option<real>, UnitPreference) -> W): WorkoutExerciseJson<W>
  {
    WorkoutExerciseJson(e.exerciseResultId, e.name,
      MapSeq(e.sets, (s: Workouts.WorkoutSet) => WorkoutSetWithUnit(s, unit, withUnit)))
  }

  /** serializeWorkoutDetailWithWeightUnits */
  function SerializeWorkoutDetail<W>(d: Workouts.WorkoutDetail, unit: UnitPreference,
                                     withUnit: (Option<real>, UnitPreference) -> W): (r: WorkoutDetailJson<W>)
    ensures r.date == d.date && r.duration == d.duration && r.id == d.id
    ensures r.program == d.program && r.routine == d.routine
    ensures |r.exercises| == |d.exercises|
  {
    WorkoutDetailJson(d.date, d.duration,
      MapSeq(d.exercises, (e: Workouts.WorkoutExerciseDetail) => WorkoutExerciseWithUnit(e, unit, withUnit)),
      d.id, d.program, d.routine)
  }

  function UnwrapWorkoutSet<W>(s: WorkoutSetJson<W>, value: W -> Option<real>): Workouts.WorkoutSet
  {
    Workouts.WorkoutSet(s.id, s.reps, s.rpe, s.timeSeconds, s.volume, value(s.weight))
  }

  function UnwrapWorkoutExercise<W>(e: WorkoutExerciseJson<W>, value: W -> Option<real>): Workouts.WorkoutExerciseDetail
  {
    Workouts.WorkoutExerciseDetail(e.exerciseResultId, e.name,
      MapSeq(e.sets, (s: WorkoutSetJson<W>) => UnwrapWorkoutSet(s, value)))
  }

  function UnwrapWorkoutDetail<W>(d: WorkoutDetailJson<W>, value: W -> Option<real>): Workouts.WorkoutDetail
  {
    Workouts.WorkoutDetail(d.date, d.duration,
      MapSeq(d.exercises, (e: WorkoutExerciseJson<W>) => UnwrapWorkoutExercise(e, value)),
      d.id, d.program, d.routine)
  }

  lemma WorkoutExerciseRoundTrip<W>(e: Workouts.WorkoutExerciseDetail, unit: UnitPreference,
                                    withUnit: (Option<real>, UnitPreference) -> W, value: W -> Option<real>)
    requires forall w, u :: value(withUnit(w, u)) == w
    ensures UnwrapWorkoutExercise(WorkoutExerciseWithUnit(e, unit, withUnit), value) == e
  {
    var back := UnwrapWorkoutExercise(WorkoutExerciseWithUnit(e, unit, withUnit), value);
    assert back.sets == e.sets;
  }

  /** Only each set's weight changes (volume included, nothing else is touched):
      reading the wrapped weights back restores the workout detail. */
  lemma WorkoutDetailRoundTrip<W>(d: Workouts.WorkoutDetail, unit: UnitPreference,
                                  withUnit: (Option<real>, UnitPreference) -> W, value: W -> Option<real>)
    requires forall w, u :: value(withUnit(w, u)) == w
    ensures UnwrapWorkoutDetail(SerializeWorkoutDetail(d, unit, withUnit), value) == d
  {
    var back := UnwrapWorkoutDetail(SerializeWorkoutDetail(d, unit, withUnit), value);
    forall i | 0 <= i < |d.exercises| ensures back.exercises[i] == d.exercises[i] {
      WorkoutExerciseRoundTrip(d.exercises[i], unit, withUnit, value);
    }
    assert back.exercises == d.exercises;
  }

  /** Each set keeps its volume and other fields; its weight is the wrapper of the
      original weight. */
  lemma WorkoutSetsKeepVolume<W>(d: Workouts.WorkoutDetail, unit: UnitPreference,
                                 withUnit: (Option<real>, UnitPreference) -> W)
    ensures var r := SerializeWorkoutDetail(d, unit, withUnit);
      forall i :: 0 <= i < |d.exercises| ==>
        && |r.exercises[i].sets| == |d.exercises[i].sets|
        && forall k :: 0 <= k < |d.exercises[i].sets| ==>
             var x, y := r.exercises[i].sets[k], d.exercises[i].sets[k];
             x.volume == y.volume && x.id == y.id && x.reps == y.reps && x.rpe == y.rpe
             && x.timeSeconds == y.timeSeconds && x.weight == withUnit(y.weight, unit)
  {
  }
}
