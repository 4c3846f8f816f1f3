/** The table rows of programs show and its selector check
    (src/commands/programs/show.ts). */
module ProgramsShow {
  import opened Strings
  import opened Base
  import opened Output
  import opened Programs

  // ---------------------------------------------------------------------------
  // The selector / --active check

  /** The check before resolution: a selector and --active/--current exclude each
      other, and one of them is required. The result is whether --active applies. */
  function ShowTarget(selector: Option<string>, active: bool, current: bool): (r: Result<bool>)
    ensures var given := selector.Some? && selector.value != "";
      && (given && (active || current) <==> r == Err(SelectorAndActive))
      && (!given && !(active || current) <==> r == Err(SelectorOrActiveRequired))
      && (r.Ok? ==> r.value == (active || current) && (r.value != given))
  {
    var useActive := active || current;
    if selector.Some? && selector.value != "" && useActive then Err(SelectorAndActive)
    else if !(selector.Some? && selector.value != "") && !useActive then Err(SelectorOrActiveRequired)
    else Ok(useActive)
  }

  /** After the check, resolution never complains that the selector is missing. */
  lemma CheckedSelectorIsPresent(selector: Option<string>, active: bool, current: bool,
                                 selected: Option<int>, plans: seq<ProgramRow>)
    requires ShowTarget(selector, active, current).Ok?
    ensures ResolveProgramSelector(selector, ShowTarget(selector, active, current).value, selected, plans)
         != Err(ProgramSelectorRequired)
  {
  }

  // ---------------------------------------------------------------------------
  // buildProgramRows

  /** `[id] name` */
  function Label(id: int, name: string): string
  {
    "[" + IntToString(id) + "] " + name
  }

  function NumberCell(value: Option<int>): Cell
  {
    if value.Some? then Int(value.value) else Null
  }

  /** `${weight} ${unitLabel}`, or null for no weight; `numberText` is the text of a number. */
  function WeightCell(weight: Option<real>, unitLabel: string, numberText: real -> string): (c: Cell)
    ensures c == Null <==> weight.None?
  {
    if weight.None? then Null else Text(numberText(weight.value) + " " + unitLabel)
  }

  /** The heading row of one exercise. */
  function HeadingRow(weekIndex: nat, routineIndex: nat, exerciseIndex: nat,
                      routine: ProgramRoutine, exercise: PlannedExercise): Row
  {
    [("week", Text(if routineIndex == 0 && exerciseIndex == 0 then "Week " + NatToString(weekIndex + 1) else "")),
     ("routine", Text(if exerciseIndex == 0 then Label(routine.id, routine.name.GetOr("(unnamed)")) else "")),
     ("exercise", Text(Label(exercise.id.GetOr(exercise.exerciseConfigId), exercise.name))),
     ("reps", Null), ("rpe", Null), ("timeSeconds", Null), ("weight", Null)]
  }

  /** The row of one planned set. */
  function SetRow(planned: PlannedSet, unitLabel: string, numberText: real -> string): Row
  {
    [("week", Text("")), ("routine", Text("")), ("exercise", Text("")),
     ("reps", NumberCell(planned.reps)), ("rpe", NumberCell(planned.rpe)), ("timeSeconds", NumberCell(planned.timeSeconds)),
     ("weight", WeightCell(planned.weight, unitLabel, numberText))]
  }

  function ExerciseRows(weekIndex: nat, routineIndex: nat, exerciseIndex: nat, routine: ProgramRoutine,
                        exercise: PlannedExercise, unitLabel: string, numberText: real -> string): (r: seq<Row>)
    ensures |r| == 1 + |exercise.sets| && forall k :: 0 <= k < |r| ==> |r[k]| == 7
  {
    [HeadingRow(weekIndex, routineIndex, exerciseIndex, routine, exercise)]
      + MapSeq(exercise.sets, (s: PlannedSet) => SetRow(s, unitLabel, numberText))
  }

  function RoutineRows(weekIndex: nat, routineIndex: nat, routine: ProgramRoutine,
                       unitLabel: string, numberText: real -> string): seq<Row>
  {
    Flatten(seq(|routine.exercises|, k requires 0 <= k < |routine.exercises| =>
      ExerciseRows(weekIndex, routineIndex, k, routine, routine.exercises[k], unitLabel, numberText)))
  }

  function WeekRows(weekIndex: nat, week: ProgramWeek, unitLabel: string, numberText: real -> string): seq<Row>
  {
    Flatten(seq(|week.routines|, j requires 0 <= j < |week.routines| =>
      RoutineRows(weekIndex, j, week.routines[j], unitLabel, numberText)))
  }

  /** buildProgramRows */
  function BuildProgramRows(weeks: seq<ProgramWeek>, unitLabel: string, numberText: real -> string): seq<Row>
  {
    Flatten(seq(|weeks|, i requires 0 <= i < |weeks| => WeekRows(i, weeks[i], unitLabel, numberText)))
  }

  // ---------------------------------------------------------------------------
  // Row counts

  /** One heading row plus one row per set, for each exercise. */
  function ExercisesRowCount(exercises: seq<PlannedExercise>): nat
  {
    if exercises == [] then 0 else 1 + |exercises[0].sets| + ExercisesRowCount(exercises[1..])
  }

  function RoutinesRowCount(routines: seq<ProgramRoutine>): nat
  {
    if routines == [] then 0 else ExercisesRowCount(routines[0].exercises) + RoutinesRowCount(routines[1..])
  }

  function WeeksRowCount(weeks: seq<ProgramWeek>): nat
  {
    if weeks == [] then 0 else RoutinesRowCount(weeks[0].routines) + WeeksRowCount(weeks[1..])
  }

  lemma {:induction false} ExerciseBlocksLength(blocks: seq<seq<Row>>, exercises: seq<PlannedExercise>)
    requires |blocks| == |exercises|
    requires forall k :: 0 <= k < |blocks| ==> |blocks[k]| == 1 + |exercises[k].sets|
    ensures TotalLength(blocks) == ExercisesRowCount(exercises)
  {
    if blocks != [] {
      ExerciseBlocksLength(blocks[1..], exercises[1..]);
    }
  }

  lemma {:induction false} RoutineBlocksLength(blocks: seq<seq<Row>>, routines: seq<ProgramRoutine>)
    requires |blocks| == |routines|
    requires forall j :: 0 <= j < |blocks| ==> |blocks[j]| == ExercisesRowCount(routines[j].exercises)
    ensures TotalLength(blocks) == RoutinesRowCount(routines)
  {
    if blocks != [] {
      RoutineBlocksLength(blocks[1..], routines[1..]);
    }
  }

  lemma {:induction false} WeekBlocksLength(blocks: seq<seq<Row>>, weeks: seq<ProgramWeek>)
    requires |blocks| == |weeks|
    requires forall i :: 0 <= i < |blocks| ==> |blocks[i]| == RoutinesRowCount(weeks[i].routines)
    ensures TotalLength(blocks) == WeeksRowCount(weeks)
  {
    if blocks != [] {
      WeekBlocksLength(blocks[1..], weeks[1..]);
    }
  }

  lemma RoutineRowsLength(weekIndex: nat, routineIndex: nat, routine: ProgramRoutine,
                          unitLabel: string, numberText: real -> string)
    ensures |RoutineRows(weekIndex, routineIndex, routine, unitLabel, numberText)| == ExercisesRowCount(routine.exercises)
  {
    var blocks := seq(|routine.exercises|, k requires 0 <= k < |routine.exercises| =>
      ExerciseRows(weekIndex, routineIndex, k, routine, routine.exercises[k], unitLabel, numberText));
    FlattenLength(blocks);
    ExerciseBlocksLength(blocks, routine.exercises);
  }

  lemma WeekRowsLength(weekIndex: nat, week: ProgramWeek, unitLabel: string, numberText: real -> string)
    ensures |WeekRows(weekIndex, week, unitLabel, numberText)| == RoutinesRowCount(week.routines)
  {
    var blocks := seq(|week.routines|, j requires 0 <= j < |week.routines| =>
      RoutineRows(weekIndex, j, week.routines[j], unitLabel, numberText));
    forall j | 0 <= j < |blocks| ensures |blocks[j]| == ExercisesRowCount(week.routines[j].exercises) {
      RoutineRowsLength(weekIndex, j, week.routines[j], unitLabel, numberText);
    }
    FlattenLength(blocks);
    RoutineBlocksLength(blocks, week.routines);
  }

  /** The table has one heading row per exercise and one row per planned set. */
  lemma ProgramRowCount(weeks: seq<ProgramWeek>, unitLabel: string, numberText: real -> string)
    ensures |BuildProgramRows(weeks, unitLabel, numberText)| == WeeksRowCount(weeks)
  {
    var blocks := seq(|weeks|, i requires 0 <= i < |weeks| => WeekRows(i, weeks[i], unitLabel, numberText));
    forall i | 0 <= i < |blocks| ensures |blocks[i]| == RoutinesRowCount(weeks[i].routines) {
      WeekRowsLength(i, weeks[i], unitLabel, numberText);
    }
    FlattenLength(blocks);
    WeekBlocksLength(blocks, weeks);
  }

  // ---------------------------------------------------------------------------
  // Labels

  function WeekCell(row: Row): Cell
  {
    Lookup(row, "week")
  }

  predicate BlankWeek(row: Row)
  {
    WeekCell(row) == Text("")
  }

  lemma {:induction false} FlattenBlank(blocks: seq<seq<Row>>)
    requires forall i, k :: 0 <= i < |blocks| && 0 <= k < |blocks[i]| ==> BlankWeek(blocks[i][k])
    ensures forall p :: 0 <= p < |Flatten(blocks)| ==> BlankWeek(Flatten(blocks)[p])
  {
    if blocks != [] {
      FlattenBlank(blocks[1..]);
      var rest := Flatten(blocks[1..]);
      assert Flatten(blocks) == blocks[0] + rest;
      forall p | 0 <= p < |Flatten(blocks)| ensures BlankWeek(Flatten(blocks)[p]) {
        if p < |blocks[0]| {
          assert Flatten(blocks)[p] == blocks[0][p];
        } else {
          assert Flatten(blocks)[p] == rest[p - |blocks[0]|];
        }
      }
    }
  }

  /** Every set row, and every heading row but the week's first, has a blank week cell. */
  lemma ExerciseRowsWeekCells(weekIndex: nat, routineIndex: nat, exerciseIndex: nat, routine: ProgramRoutine,
                              exercise: PlannedExercise, unitLabel: string, numberText: real -> string)
    ensures var rows := ExerciseRows(weekIndex, routineIndex, exerciseIndex, routine, exercise, unitLabel, numberText);
      && WeekCell(rows[0]) == Text(if routineIndex == 0 && exerciseIndex == 0 then "Week " + NatToString(weekIndex + 1) else "")
      && forall p :: 1 <= p < |rows| ==> BlankWeek(rows[p])
  {
  }

  lemma RoutineRowsWeekCells(weekIndex: nat, routineIndex: nat, routine: ProgramRoutine,
                             unitLabel: string, numberText: real -> string)
    ensures var rows := RoutineRows(weekIndex, routineIndex, routine, unitLabel, numberText);
      forall p :: 0 <= p < |rows| ==> (BlankWeek(rows[p]) <==> !(p == 0 && routineIndex == 0))
  {
    var blocks := seq(|routine.exercises|, k requires 0 <= k < |routine.exercises| =>
      ExerciseRows(weekIndex, routineIndex, k, routine, routine.exercises[k], unitLabel, numberText));
    forall k | 0 <= k < |blocks| {
      ExerciseRowsWeekCells(weekIndex, routineIndex, k, routine, routine.exercises[k], unitLabel, numberText);
    }
    if blocks != [] {
      FlattenBlank(blocks[1..]);
      var rows := Flatten(blocks);
      assert rows == blocks[0] + Flatten(blocks[1..]);
      forall p | 0 <= p < |rows| ensures BlankWeek(rows[p]) <==> !(p == 0 && routineIndex == 0) {
        if p < |blocks[0]| {
          assert rows[p] == blocks[0][p];
          if p == 0 {
            LabelIsNotBlank(weekIndex);
          }
        } else {
          assert rows[p] == Flatten(blocks[1..])[p - |blocks[0]|];
        }
      }
    }
  }

  lemma LabelIsNotBlank(weekIndex: nat)
    ensures "Week " + NatToString(weekIndex + 1) != ""
  {
    assert |"Week " + NatToString(weekIndex + 1)| >= 5;
  }

  /** Only the first row of a week carries its "Week n" label, and only when the
      week's first routine has an exercise; every other row's week cell is blank. */
  lemma WeekLabelOnFirstRow(weekIndex: nat, week: ProgramWeek, unitLabel: string, numberText: real -> string)
    ensures var rows := WeekRows(weekIndex, week, unitLabel, numberText);
      && (forall p :: 0 <= p < |rows| ==>
            (BlankWeek(rows[p]) <==> !(p == 0 && |week.routines| > 0 && |week.routines[0].exercises| > 0)))
      && (|week.routines| > 0 && |week.routines[0].exercises| > 0 ==>
            WeekCell(rows[0]) == Text("Week " + NatToString(weekIndex + 1)))
  {
    var blocks := seq(|week.routines|, j requires 0 <= j < |week.routines| =>
      RoutineRows(weekIndex, j, week.routines[j], unitLabel, numberText));
    forall j | 0 <= j < |blocks| {
      RoutineRowsWeekCells(weekIndex, j, week.routines[j], unitLabel, numberText);
    }
    if blocks != [] {
      FlattenBlank(blocks[1..]);
      var rows := Flatten(blocks);
      assert rows == blocks[0] + Flatten(blocks[1..]);
      RoutineRowsLength(weekIndex, 0, week.routines[0], unitLabel, numberText);
      forall p | 0 <= p < |rows|
        ensures BlankWeek(rows[p]) <==> !(p == 0 && |week.routines[0].exercises| > 0)
      {
        if p < |blocks[0]| {
          assert rows[p] == blocks[0][p];
        } else {
          assert rows[p] == Flatten(blocks[1..])[p - |blocks[0]|];
        }
      }
      if |week.routines[0].exercises| > 0 {
        var ex := week.routines[0].exercises[0];
        ExerciseRowsWeekCells(weekIndex, 0, 0, week.routines[0], ex, unitLabel, numberText);
        assert rows[0] == blocks[0][0];
      }
    }
  }

  /** Each exercise block is its heading row, with the routine label on the
      routine's first exercise only, the `[id ?? configId] name` label and no
      values, followed by one row per set with blank labels and the set's
      reps, RPE, time and weight. */
  lemma ExerciseBlockShape(weekIndex: nat, routineIndex: nat, exerciseIndex: nat, routine: ProgramRoutine,
                           exercise: PlannedExercise, unitLabel: string, numberText: real -> string)
    ensures var rows := ExerciseRows(weekIndex, routineIndex, exerciseIndex, routine, exercise, unitLabel, numberText);
      && |rows| == 1 + |exercise.sets|
      && rows[0][1].1 == Text(if exerciseIndex == 0 then Label(routine.id, routine.name.GetOr("(unnamed)")) else "")
      && rows[0][2].1 == Text(Label(if exercise.id.Some? then exercise.id.value else exercise.exerciseConfigId, exercise.name))
      && rows[0][3].1 == Null && rows[0][4].1 == Null && rows[0][5].1 == Null && rows[0][6].1 == Null
      && forall m :: 0 <= m < |exercise.sets| ==>
           && rows[1 + m][1].1 == Text("") && rows[1 + m][2].1 == Text("")
           && rows[1 + m][3].1 == NumberCell(exercise.sets[m].reps)
           && rows[1 + m][4].1 == NumberCell(exercise.sets[m].rpe)
           && rows[1 + m][5].1 == NumberCell(exercise.sets[m].timeSeconds)
           && (rows[1 + m][6].1 == Null <==> exercise.sets[m].weight.None?)
           && (exercise.sets[m].weight.Some? ==>
                 rows[1 + m][6].1 == Text(numberText(exercise.sets[m].weight.value) + " " + unitLabel))
  {
    var rows: seq<Row> := ExerciseRows(weekIndex, routineIndex, exerciseIndex, routine, exercise, unitLabel, numberText);
    ExerciseRowsParts(weekIndex, routineIndex, exerciseIndex, routine, exercise, unitLabel, numberText);
    HeadingRowShape(weekIndex, routineIndex, exerciseIndex, routine, exercise);
    forall m | 0 <= m < |exercise.sets|
      ensures && rows[1 + m][1].1 == Text("") && rows[1 + m][2].1 == Text("")
              && rows[1 + m][3].1 == NumberCell(exercise.sets[m].reps)
              && rows[1 + m][4].1 == NumberCell(exercise.sets[m].rpe)
              && rows[1 + m][5].1 == NumberCell(exercise.sets[m].timeSeconds)
              && (rows[1 + m][6].1 == Null <==> exercise.sets[m].weight.None?)
              && (exercise.sets[m].weight.Some? ==>
                    rows[1 + m][6].1 == Text(numberText(exercise.sets[m].weight.value) + " " + unitLabel))
    {
      SetRowShape(exercise.sets[m], unitLabel, numberText);
    }
  }

  lemma ExerciseRowsParts(weekIndex: nat, routineIndex: nat, exerciseIndex: nat, routine: ProgramRoutine,
                          exercise: PlannedExercise, unitLabel: string, numberText: real -> string)
    ensures var rows := ExerciseRows(weekIndex, routineIndex, exerciseIndex, routine, exercise, unitLabel, numberText);
      && rows[0] == HeadingRow(weekIndex, routineIndex, exerciseIndex, routine, exercise)
      && forall m :: 0 <= m < |exercise.sets| ==> rows[1 + m] == SetRow(exercise.sets[m], unitLabel, numberText)
  {
  }

  lemma HeadingRowShape(weekIndex: nat, routineIndex: nat, exerciseIndex: nat,
                        routine: ProgramRoutine, exercise: PlannedExercise)
    ensures var row := HeadingRow(weekIndex, routineIndex, exerciseIndex, routine, exercise);
      && row[1].1 == Text(if exerciseIndex == 0 then Label(routine.id, routine.name.GetOr("(unnamed)")) else "")
      && row[2].1 == Text(Label(if exercise.id.Some? then exercise.id.value else exercise.exerciseConfigId, exercise.name))
      && row[3].1 == Null && row[4].1 == Null && row[5].1 == Null && row[6].1 == Null
  {
  }

  lemma SetRowShape(planned: PlannedSet, unitLabel: string, numberText: real -> string)
    ensures var row := SetRow(planned, unitLabel, numberText);
      && row[1].1 == Text("") && row[2].1 == Text("") && row[3].1 == NumberCell(planned.reps)
      && row[4].1 == NumberCell(planned.rpe) && row[5].1 == NumberCell(planned.timeSeconds)
      && (row[6].1 == Null <==> planned.weight.None?)
      && (planned.weight.Some? ==> row[6].1 == Text(numberText(planned.weight.value) + " " + unitLabel))
  {
  }
}
