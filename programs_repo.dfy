/** Program listing, program selection and the program detail tree
    (src/lib/repositories/programs.ts). Query results are input sequences in the
    order their ORDER BY states. */
module Programs {
  import opened Strings
  import opened Base
  import opened Rpe
  import opened Units
  import opened Time
  import opened Names
  import opened Selectors

  datatype ProgramSummary = ProgramSummary(
    dateAdded: Option<Iso>, id: int, isActive: bool, isTemplate: bool, name: string)

  datatype PlannedSet = PlannedSet(
    id: Option<int>, reps: Option<int>, rpe: Option<int>, timeSeconds: Option<int>, weight: Option<real>)

  datatype PlannedExercise = PlannedExercise(
    exerciseConfigId: int, id: Option<int>, name: string, plannedReps: Option<int>,
    plannedSets: Option<int>, plannedTimeSeconds: Option<int>, plannedWeight: Option<real>,
    sets: seq<PlannedSet>)

  datatype ProgramRoutine = ProgramRoutine(exercises: seq<PlannedExercise>, id: int, name: Option<string>)

  datatype ProgramWeek = ProgramWeek(id: int, routines: seq<ProgramRoutine>)

  datatype ProgramDetailTree = ProgramDetailTree(program: ProgramSummary, weeks: seq<ProgramWeek>)

  /** One ZWORKOUTPLAN row. */
  datatype ProgramRow = ProgramRow(
    id: int, name: Option<string>, isCurrent: Option<int>, isTemplate: Option<int>,
    dateAdded: Option<real>, softDeleted: Option<int>)

  /** With a selected-program pointer a program is active iff it is the selected one;
      without one, iff its ZISCURRENT is 1. */
  function IsActive(selected: Option<int>, row: ProgramRow): (r: bool)
    ensures selected.Some? ==> (r <==> row.id == selected.value)
    ensures selected.None? ==> (r <==> row.isCurrent == Some(1))
  {
    if selected.Some? then row.id == selected.value else AsBool(row.isCurrent)
  }

  function ToSummary(selected: Option<int>, row: ProgramRow): ProgramSummary
  {
    ProgramSummary(AppleSecondsToIso(row.dateAdded), row.id, IsActive(selected, row),
                   AsBool(row.isTemplate), row.name.GetOr("(unnamed)"))
  }

  predicate NotSoftDeleted(row: ProgramRow)
  {
    row.softDeleted != Some(1)
  }

  /** listPrograms over the plans (in ZDATEADDED-descending order) and the id the
      selected-program pointer resolves to, if any. */
  function ListPrograms(selected: Option<int>, plans: seq<ProgramRow>): (r: seq<ProgramSummary>)
    ensures var visible := Filter(plans, NotSoftDeleted);
      && |r| == |visible|
      && forall i :: 0 <= i < |r| ==>
           && r[i].id == visible[i].id
           && r[i].isActive == IsActive(selected, visible[i])
           && r[i].name == (if visible[i].name.Some? then visible[i].name.value else "(unnamed)")
  {
    MapSeq(Filter(plans, NotSoftDeleted), row => ToSummary(selected, row))
  }

  /** With a pointer and distinct program ids, at most one listed program is active. */
  lemma AtMostOneActive(selected: int, plans: seq<ProgramRow>)
    requires DistinctIds(plans)
    ensures var r := ListPrograms(Some(selected), plans);
      forall i, j :: 0 <= i < j < |r| ==> !(r[i].isActive && r[j].isActive)
  {
    var visible := Filter(plans, NotSoftDeleted);
    FilterKeepsDistinctIds(plans);
    var r := ListPrograms(Some(selected), plans);
    forall i, j | 0 <= i < j < |r| ensures !(r[i].isActive && r[j].isActive) {
      assert visible[i].id != visible[j].id;
    }
  }

  predicate DistinctIds(plans: seq<ProgramRow>)
  {
    forall i, j :: 0 <= i < j < |plans| ==> plans[i].id != plans[j].id
  }

  lemma {:induction false} FilterKeepsDistinctIds(plans: seq<ProgramRow>)
    requires DistinctIds(plans)
    ensures DistinctIds(Filter(plans, NotSoftDeleted))
  {
    if plans != [] {
      DistinctTail(plans);
      FilterKeepsDistinctIds(plans[1..]);
      var rest := Filter(plans[1..], NotSoftDeleted);
      if NotSoftDeleted(plans[0]) {
        forall j | 0 <= j < |rest| ensures rest[j].id != plans[0].id {
          assert rest[j] in plans[1..];
        }
        assert Filter(plans, NotSoftDeleted) == [plans[0]] + rest;
        DistinctCons(plans[0], rest);
      } else {
        assert Filter(plans, NotSoftDeleted) == rest;
      }
    }
  }

  lemma DistinctTail(plans: seq<ProgramRow>)
    requires DistinctIds(plans) && plans != []
    ensures DistinctIds(plans[1..])
    ensures forall x :: x in plans[1..] ==> x.id != plans[0].id
  {
    forall x | x in plans[1..] ensures x.id != plans[0].id {
      var k :| 0 <= k < |plans[1..]| && plans[1..][k] == x;
      assert plans[k + 1] == x;
    }
  }

  lemma DistinctCons(x: ProgramRow, rest: seq<ProgramRow>)
    requires DistinctIds(rest) && forall j :: 0 <= j < |rest| ==> rest[j].id != x.id
    ensures DistinctIds([x] + rest)
  {
    var v := [x] + rest;
    forall i, j | 0 <= i < j < |v| ensures v[i].id != v[j].id {
      assert v[j] == rest[j - 1];
      if i > 0 {
        assert v[i] == rest[i - 1];
      }
    }
  }

  // ---------------------------------------------------------------------------
  // resolveProgramSelector

  function AsNamedRows(plans: seq<ProgramRow>): seq<NamedRow>
  {
    MapSeq(plans, (p: ProgramRow) => NamedRow(p.id, p.name))
  }

  predicate IsCurrentRow(row: ProgramRow)
  {
    row.isCurrent == Some(1)
  }

  /** resolveProgramSelector. With --active: the pointer if present, else the single
      plan with ZISCURRENT = 1 (soft-deleted plans included). Otherwise a selector is
      required, is resolved by id or name, and must name a plan that is not soft-deleted. */
  function ResolveProgramSelector(selector: Option<string>, activeOnly: bool, selected: Option<int>,
                                  plans: seq<ProgramRow>): (r: Result<int>)
    ensures activeOnly && selected.Some? ==> r == Ok(selected.value)
    ensures activeOnly && selected.None? ==>
      var current := Filter(plans, IsCurrentRow);
      if |current| == 1 then r == Ok(current[0].id) else r == Err(ActiveProgramCount(|current|))
    ensures !activeOnly && (selector.None? || selector == Some("")) ==> r == Err(ProgramSelectorRequired)
    ensures !activeOnly && selector.Some? && selector.value != "" ==>
      var resolved := ResolveIdOrName(AsNamedRows(plans), selector.value);
      && (resolved.Err? ==> r == Err(resolved.error))
      && (resolved.Ok? && (exists p :: p in plans && p.id == resolved.value && NotSoftDeleted(p)) ==> r == resolved)
      && (resolved.Ok? && !(exists p :: p in plans && p.id == resolved.value && NotSoftDeleted(p)) ==>
            r == Err(ProgramSoftDeleted(resolved.value)))
  {
    if activeOnly then
      if selected.Some? then Ok(selected.value)
      else
        var current := Filter(plans, IsCurrentRow);
        if |current| != 1 then Err(ActiveProgramCount(|current|)) else Ok(current[0].id)
    else if selector.None? || selector.value == "" then Err(ProgramSelectorRequired)
    else
      var programId :- ResolveIdOrName(AsNamedRows(plans), selector.value);
      if exists p :: p in plans && p.id == programId && NotSoftDeleted(p) then Ok(programId)
      else Err(ProgramSoftDeleted(programId))
  }

  /** An active resolution without a pointer succeeds exactly when one plan is current,
      and then returns that plan's id. */
  lemma ActiveResolution(plans: seq<ProgramRow>)
    ensures var r := ResolveProgramSelector(None, true, None, plans);
      (r.Ok? <==> |Filter(plans, IsCurrentRow)| == 1)
      && (r.Ok? ==> exists p :: p in plans && p.id == r.value && p.isCurrent == Some(1))
  {
    var current := Filter(plans, IsCurrentRow);
    if |current| == 1 {
      assert current[0] in current;
    }
  }

  // ---------------------------------------------------------------------------
  // getProgramDetail

  /** One routine of the program (the routine query), in Z_FOK_PERIOD, Z_PK order. */
  datatype RoutineRow = RoutineRow(id: int, name: Option<string>, weekId: Option<int>)

  /** One exercise configuration of a routine, in routine, position, config order. */
  datatype ExerciseConfigRow = ExerciseConfigRow(
    routineId: int, exerciseConfigId: Option<int>, plannedSets: Option<int>, plannedReps: Option<int>,
    plannedWeight: Option<real>, plannedTimeSeconds: Option<int>,
    exerciseId: Option<int>, isUserCreated: Option<int>, exerciseName: Option<string>)

  /** One ZSETCONFIGURATION row of those configurations, in ZSETINDEX order. */
  datatype SetConfigRow = SetConfigRow(
    id: int, exerciseConfigId: Option<int>, reps: Option<int>, rpe: Option<int>,
    weight: Option<real>, timeSeconds: Option<int>)

  /** Everything getProgramDetail reads for one program id. `weeks` are the period ids
      in their query order. */
  datatype ProgramQueries = ProgramQueries(
    settings: Option<SettingsRow>, equipment: seq<EquipmentUnitRow>, selected: Option<int>,
    plans: seq<ProgramRow>, weeks: seq<int>, routines: seq<RoutineRow>,
    exercises: seq<ExerciseConfigRow>, sets: seq<SetConfigRow>)

  function ToPlannedSet(row: SetConfigRow, unit: UnitPreference): PlannedSet
  {
    PlannedSet(Some(row.id), row.reps, NormalizeRpe(row.rpe), row.timeSeconds, ConvertKgToDisplayWeight(row.weight, unit))
  }

  /** The explicit sets grouped under one configuration id, accumulated row by row. */
  function SetsByConfig(rows: seq<SetConfigRow>, configId: int, unit: UnitPreference): seq<PlannedSet>
  {
    if rows == [] then []
    else
      var last := rows[|rows| - 1];
      SetsByConfig(rows[..|rows| - 1], configId, unit)
        + (if last.exerciseConfigId == Some(configId) then [ToPlannedSet(last, unit)] else [])
  }

  /** Math.max(plannedSets ?? 1, 1). */
  function FallbackCount(plannedSets: Option<int>): nat
  {
    var n := plannedSets.GetOr(1);
    if n >= 1 then n else 1
  }

  /** The sets synthesised for a configuration without explicit sets. */
  function FallbackSets(row: ExerciseConfigRow, unit: UnitPreference): seq<PlannedSet>
  {
    seq(FallbackCount(row.plannedSets), _ =>
      PlannedSet(None, row.plannedReps, None, row.plannedTimeSeconds, ConvertKgToDisplayWeight(row.plannedWeight, unit)))
  }

  function PlannedSetsOf(row: ExerciseConfigRow, explicitSets: seq<PlannedSet>, unit: UnitPreference): seq<PlannedSet>
  {
    if |explicitSets| > 0 then explicitSets else FallbackSets(row, unit)
  }

  function ToPlannedExercise(row: ExerciseConfigRow, configId: int, explicitSets: seq<PlannedSet>, unit: UnitPreference): PlannedExercise
  {
    PlannedExercise(configId, row.exerciseId,
      FormatExerciseDisplayName(row.exerciseName, AsBool(row.isUserCreated)),
      row.plannedReps, row.plannedSets, row.plannedTimeSeconds,
      ConvertKgToDisplayWeight(row.plannedWeight, unit),
      PlannedSetsOf(row, explicitSets, unit))
  }

  function ExerciseOf(row: ExerciseConfigRow, setRows: seq<SetConfigRow>, unit: UnitPreference): PlannedExercise
    requires row.exerciseConfigId.Some?
  {
    var configId := row.exerciseConfigId.value;
    ToPlannedExercise(row, configId, SetsByConfig(setRows, configId, unit), unit)
  }

  /** The exercises grouped under one routine id, accumulated row by row; rows
      without a configuration are skipped. */
  function ExercisesByRoutine(rows: seq<ExerciseConfigRow>, setRows: seq<SetConfigRow>,
                              routineId: int, unit: UnitPreference): seq<PlannedExercise>
  {
    if rows == [] then []
    else
      var last := rows[|rows| - 1];
      ExercisesByRoutine(rows[..|rows| - 1], setRows, routineId, unit)
        + (if last.exerciseConfigId.Some? && last.routineId == routineId then [ExerciseOf(last, setRows, unit)] else [])
  }

  function ToRoutine(row: RoutineRow, exercises: seq<ExerciseConfigRow>, setRows: seq<SetConfigRow>, unit: UnitPreference): ProgramRoutine
  {
    ProgramRoutine(ExercisesByRoutine(exercises, setRows, row.id, unit), row.id, row.name)
  }

  /** The routines grouped under one week id, accumulated row by row; routines
      without a week are skipped. */
  function RoutinesByWeek(rows: seq<RoutineRow>, exercises: seq<ExerciseConfigRow>, setRows: seq<SetConfigRow>,
                          weekId: int, unit: UnitPreference): seq<ProgramRoutine>
  {
    if rows == [] then []
    else
      var last := rows[|rows| - 1];
      RoutinesByWeek(rows[..|rows| - 1], exercises, setRows, weekId, unit)
        + (if last.weekId == Some(weekId) then [ToRoutine(last, exercises, setRows, unit)] else [])
  }

  /** The program row: the plan with that id that is not soft-deleted. */
  function ProgramRowOf(plans: seq<ProgramRow>, programId: int): (r: Option<ProgramRow>)
    ensures r.Some? ==> r.value in plans && r.value.id == programId && NotSoftDeleted(r.value)
    ensures r.None? ==> forall p :: p in plans && p.id == programId ==> !NotSoftDeleted(p)
  {
    if plans == [] then None
    else if plans[0].id == programId && NotSoftDeleted(plans[0]) then Some(plans[0])
    else ProgramRowOf(plans[1..], programId)
  }

  /** The set query is not run when there are no configuration ids. */
  function SetRowsRead(q: ProgramQueries): seq<SetConfigRow>
  {
    if forall i :: 0 <= i < |q.exercises| ==> q.exercises[i].exerciseConfigId.None? then [] else q.sets
  }

  function ProgramUnit(q: ProgramQueries, programId: int): UnitPreference
  {
    ResolveProgramWeightUnit(q.settings, q.equipment, programId)
  }

  /** getProgramDetail. */
  function ProgramDetailOf(q: ProgramQueries, programId: int): (r: Result<ProgramDetailTree>)
    ensures r.Err? <==> ProgramRowOf(q.plans, programId).None?
    ensures r.Err? ==> r.error == ProgramNotFound(programId)
  {
    var unit := ProgramUnit(q, programId);
    var programRow := ProgramRowOf(q.plans, programId);
    if programRow.None? then Err(ProgramNotFound(programId))
    else
      var setRows := SetRowsRead(q);
      var weeks := MapSeq(q.weeks, (w: int) => ProgramWeek(w, RoutinesByWeek(q.routines, q.exercises, setRows, w, unit)));
      Ok(ProgramDetailTree(ToSummary(q.selected, programRow.value), weeks))
  }

  /** The setsByExerciseConfig loop. */
  method GroupSetsByConfig(setRows: seq<SetConfigRow>, unit: UnitPreference) returns (m: map<int, seq<PlannedSet>>)
    ensures forall k :: MapGet(m, k) == SetsByConfig(setRows, k, unit)
  {
    m := map[];
    for i := 0 to |setRows|
      invariant forall k :: MapGet(m, k) == SetsByConfig(setRows[..i], k, unit)
    {
      var row := setRows[i];
      assert setRows[..i + 1][..i] == setRows[..i];
      if row.exerciseConfigId.Some? {
        var id := row.exerciseConfigId.value;
        var current := MapGet(m, id);
        m := m[id := current + [ToPlannedSet(row, unit)]];
      }
    }
    assert setRows[..|setRows|] == setRows;
  }

  /** The exercisesByRoutine loop, with the fallback sets. */
  method GroupExercisesByRoutine(rows: seq<ExerciseConfigRow>, setRows: seq<SetConfigRow>,
                                 setsByConfig: map<int, seq<PlannedSet>>, unit: UnitPreference)
    returns (m: map<int, seq<PlannedExercise>>)
    requires forall k :: MapGet(setsByConfig, k) == SetsByConfig(setRows, k, unit)
    ensures forall k :: MapGet(m, k) == ExercisesByRoutine(rows, setRows, k, unit)
  {
    m := map[];
    for i := 0 to |rows|
      invariant forall k :: MapGet(m, k) == ExercisesByRoutine(rows[..i], setRows, k, unit)
    {
      var row := rows[i];
      assert rows[..i + 1][..i] == rows[..i];
      if row.exerciseConfigId.Some? {
        var current := MapGet(m, row.routineId);
        var explicitSets := MapGet(setsByConfig, row.exerciseConfigId.value);
        var exercise := ToPlannedExercise(row, row.exerciseConfigId.value, explicitSets, unit);
        m := m[row.routineId := current + [exercise]];
      }
    }
    assert rows[..|rows|] == rows;
  }

  /** The routinesByWeek loop. */
  method GroupRoutinesByWeek(rows: seq<RoutineRow>, exercises: seq<ExerciseConfigRow>, setRows: seq<SetConfigRow>,
                             exercisesByRoutine: map<int, seq<PlannedExercise>>, unit: UnitPreference)
    returns (m: map<int, seq<ProgramRoutine>>)
    requires forall k :: MapGet(exercisesByRoutine, k) == ExercisesByRoutine(exercises, setRows, k, unit)
    ensures forall k :: MapGet(m, k) == RoutinesByWeek(rows, exercises, setRows, k, unit)
  {
    m := map[];
    for i := 0 to |rows|
      invariant forall k :: MapGet(m, k) == RoutinesByWeek(rows[..i], exercises, setRows, k, unit)
    {
      var row := rows[i];
      assert rows[..i + 1][..i] == rows[..i];
      if row.weekId.Some? {
        var current := MapGet(m, row.weekId.value);
        m := m[row.weekId.value := current + [ProgramRoutine(MapGet(exercisesByRoutine, row.id), row.id, row.name)]];
      }
    }
    assert rows[..|rows|] == rows;
  }

  /** getProgramDetail as the source computes it: three grouping loops, then the week tree. */
  method GetProgramDetail(q: ProgramQueries, programId: int) returns (r: Result<ProgramDetailTree>)
    ensures r == ProgramDetailOf(q, programId)
  {
    var unit := ProgramUnit(q, programId);
    var programRow := ProgramRowOf(q.plans, programId);
    if programRow.None? {
      return Err(ProgramNotFound(programId));
    }
    var setRows := SetRowsRead(q);
    var setsByConfig := GroupSetsByConfig(setRows, unit);
    var exercisesByRoutine := GroupExercisesByRoutine(q.exercises, setRows, setsByConfig, unit);
    var routinesByWeek := GroupRoutinesByWeek(q.routines, q.exercises, setRows, exercisesByRoutine, unit);
    var weeks := MapSeq(q.weeks, (w: int) => ProgramWeek(w, MapGet(routinesByWeek, w)));
    assert weeks == MapSeq(q.weeks, (w: int) => ProgramWeek(w, RoutinesByWeek(q.routines, q.exercises, setRows, w, unit)));
    return Ok(ProgramDetailTree(ToSummary(q.selected, programRow.value), weeks));
  }

  // ---------------------------------------------------------------------------
  // Properties of getProgramDetail

  function SetConfigRowsOf(rows: seq<SetConfigRow>, configId: int): seq<SetConfigRow>
  {
    Filter(rows, (row: SetConfigRow) => row.exerciseConfigId == Some(configId))
  }

  /** The explicit sets of a configuration are exactly its set rows, in order, each
      with a normalised RPE and a converted weight. */
  lemma {:induction false} SetsByConfigIsFilter(rows: seq<SetConfigRow>, configId: int, unit: UnitPreference)
    ensures SetsByConfig(rows, configId, unit)
         == MapSeq(SetConfigRowsOf(rows, configId), (row: SetConfigRow) => ToPlannedSet(row, unit))
  {
    if rows != [] {
      var init, last := rows[..|rows| - 1], rows[|rows| - 1];
      SetsByConfigIsFilter(init, configId, unit);
      SnocSplit(rows);
      MapFilterSnoc(init, last, (row: SetConfigRow) => row.exerciseConfigId == Some(configId),
                    (row: SetConfigRow) => ToPlannedSet(row, unit));
    }
  }

  /** Without explicit sets, exactly max(plannedSets ?? 1, 1) sets are synthesised,
      each without id or RPE and with the configuration's reps, time and converted weight. */
  lemma FallbackShape(row: ExerciseConfigRow, setRows: seq<SetConfigRow>, unit: UnitPreference)
    requires row.exerciseConfigId.Some?
    requires forall i :: 0 <= i < |setRows| ==> setRows[i].exerciseConfigId != row.exerciseConfigId
    ensures var sets := ExerciseOf(row, setRows, unit).sets;
      && |sets| == (if row.plannedSets.Some? && row.plannedSets.value >= 1 then row.plannedSets.value else 1)
      && forall i :: 0 <= i < |sets| ==>
           sets[i] == PlannedSet(None, row.plannedReps, None, row.plannedTimeSeconds,
                                 ConvertKgToDisplayWeight(row.plannedWeight, unit))
  {
    var configId := row.exerciseConfigId.value;
    SetsByConfigIsFilter(setRows, configId, unit);
    var f := SetConfigRowsOf(setRows, configId);
    FilterNone(setRows, (r: SetConfigRow) => r.exerciseConfigId == Some(configId));
  }

  /** With explicit sets, those are the exercise's sets and nothing is synthesised. */
  lemma ExplicitSetsWin(row: ExerciseConfigRow, setRows: seq<SetConfigRow>, unit: UnitPreference)
    requires row.exerciseConfigId.Some?
    requires exists i :: 0 <= i < |setRows| && setRows[i].exerciseConfigId == row.exerciseConfigId
    ensures ExerciseOf(row, setRows, unit).sets
         == MapSeq(SetConfigRowsOf(setRows, row.exerciseConfigId.value), (r: SetConfigRow) => ToPlannedSet(r, unit))
  {
    var configId := row.exerciseConfigId.value;
    SetsByConfigIsFilter(setRows, configId, unit);
    var i :| 0 <= i < |setRows| && setRows[i].exerciseConfigId == row.exerciseConfigId;
    assert setRows[i] in SetConfigRowsOf(setRows, configId);
  }

  predicate InRoutine(row: ExerciseConfigRow, routineId: int)
  {
    row.exerciseConfigId.Some? && row.routineId == routineId
  }

  /** A routine's exercises are its configured rows, in query order. */
  lemma {:induction false} ExercisesByRoutineIsFilter(rows: seq<ExerciseConfigRow>, setRows: seq<SetConfigRow>,
                                                      routineId: int, unit: UnitPreference)
    ensures ExercisesByRoutine(rows, setRows, routineId, unit)
         == MapSeq(Filter(rows, (row: ExerciseConfigRow) => InRoutine(row, routineId)),
                   (row: ExerciseConfigRow) => if row.exerciseConfigId.Some? then ExerciseOf(row, setRows, unit)
                                               else ToPlannedExercise(row, 0, [], unit))
  {
    if rows != [] {
      var init, last := rows[..|rows| - 1], rows[|rows| - 1];
      ExercisesByRoutineIsFilter(init, setRows, routineId, unit);
      SnocSplit(rows);
      MapFilterSnoc(init, last, (row: ExerciseConfigRow) => InRoutine(row, routineId),
                    (row: ExerciseConfigRow) => if row.exerciseConfigId.Some? then ExerciseOf(row, setRows, unit)
                                                              else ToPlannedExercise(row, 0, [], unit));
    }
  }

  /** A week's routines are its routine rows, in query order; routines without a week
      belong to no week. */
  lemma {:induction false} RoutinesByWeekIsFilter(rows: seq<RoutineRow>, exercises: seq<ExerciseConfigRow>,
                                                  setRows: seq<SetConfigRow>, weekId: int, unit: UnitPreference)
    ensures RoutinesByWeek(rows, exercises, setRows, weekId, unit)
         == MapSeq(Filter(rows, (row: RoutineRow) => row.weekId == Some(weekId)),
                   (row: RoutineRow) => ToRoutine(row, exercises, setRows, unit))
  {
    if rows != [] {
      var init, last := rows[..|rows| - 1], rows[|rows| - 1];
      RoutinesByWeekIsFilter(init, exercises, setRows, weekId, unit);
      SnocSplit(rows);
      MapFilterSnoc(init, last, (row: RoutineRow) => row.weekId == Some(weekId),
                    (row: RoutineRow) => ToRoutine(row, exercises, setRows, unit));
    }
  }

  /** The weeks appear in query order, one per period id, and the header is the
      program row with the same active rule as listPrograms. */
  lemma ProgramDetailShape(q: ProgramQueries, programId: int)
    requires ProgramRowOf(q.plans, programId).Some?
    ensures var d := ProgramDetailOf(q, programId).value;
      var row := ProgramRowOf(q.plans, programId).value;
      && d.program == ToSummary(q.selected, row)
      && d.program.isActive == IsActive(q.selected, row)
      && d.program.id == programId
      && |d.weeks| == |q.weeks|
      && forall i :: 0 <= i < |q.weeks| ==> d.weeks[i].id == q.weeks[i]
  {
  }
}
