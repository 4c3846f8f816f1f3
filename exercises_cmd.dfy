/** The pure helpers of the exercise commands (src/commands/exercises.ts,
    src/commands/exercises/list.ts, src/commands/exercises/show.ts): the muscles
    cell, the history-flag test, the history filters and the no-selector guard. */
module ExercisesCommand {
  import opened Strings
  import opened Base
  import opened Exercises

  // ---------------------------------------------------------------------------
  // formatMusclesCell

  predicate NonEmpty(part: string)
  {
    |part| > 0
  }

  /** The secondary muscles, one per comma-separated part: trimmed, empties dropped. */
  function MusclesLines(secondary: string): (lines: seq<string>)
    ensures forall k :: 0 <= k < |lines| ==> |lines[k]| > 0
  {
    Filter(MapSeq(Split(secondary, ','), Trim), NonEmpty)
  }

  /** formatMusclesCell: the primary muscles (or "n/a"), then the secondary ones
      on their own lines. */
  function FormatMusclesCell(primary: Option<string>, secondary: Option<string>): (r: string)
    ensures var p := primary.GetOr("n/a"); |p| <= |r| && r[..|p|] == p
    ensures secondary.None? || secondary == Some("") ==> r == primary.GetOr("n/a")
  {
    var p := primary.GetOr("n/a");
    if secondary.None? || secondary.value == "" then p
    else p + "\n" + Join("\n", MusclesLines(secondary.value))
  }

  /** The lines of a muscles cell are the primary muscles followed by the secondary
      ones, each non-empty, trimmed and free of commas. */
  lemma MusclesCellLines(primary: Option<string>, secondary: string)
    requires secondary != ""
    requires '\n' !in primary.GetOr("n/a") && '\n' !in secondary
    requires |MusclesLines(secondary)| >= 1
    ensures Split(FormatMusclesCell(primary, Some(secondary)), '\n') == [primary.GetOr("n/a")] + MusclesLines(secondary)
    ensures forall k :: 0 <= k < |MusclesLines(secondary)| ==>
      var line := MusclesLines(secondary)[k];
      && |line| > 0 && ',' !in line && !IsWhitespace(line[0]) && !IsWhitespace(line[|line| - 1])
  {
    var p := primary.GetOr("n/a");
    var lines := MusclesLines(secondary);
    MusclesLinesLack(secondary);
    LinesSplitBack(p, lines);
  }

  /** A first line and further lines, none holding a line break, joined by line
      breaks split back into the same lines. */
  lemma LinesSplitBack(p: string, lines: seq<string>)
    requires '\n' !in p && |lines| >= 1
    requires forall k :: 0 <= k < |lines| ==> '\n' !in lines[k]
    ensures Split(p + "\n" + Join("\n", lines), '\n') == [p] + lines
  {
    forall k | 0 <= k < |[p] + lines| ensures '\n' !in ([p] + lines)[k] {
      if k > 0 {
        assert ([p] + lines)[k] == lines[k - 1];
      }
    }
    JoinCons("\n", p, lines);
    SplitJoin('\n', [p] + lines);
  }

  /** Each secondary line is a trimmed comma-separated part of the text. */
  lemma MusclesLinesLack(secondary: string)
    requires '\n' !in secondary
    ensures forall k :: 0 <= k < |MusclesLines(secondary)| ==>
      var line := MusclesLines(secondary)[k];
      && '\n' !in line && ',' !in line && !IsWhitespace(line[0]) && !IsWhitespace(line[|line| - 1])
  {
    var lines := MusclesLines(secondary);
    var parts := Split(secondary, ',');
    var trimmed := MapSeq(parts, Trim);
    forall k | 0 <= k < |trimmed| ensures '\n' !in trimmed[k] && ',' !in trimmed[k] {
      SplitPartsLack(secondary, ',', '\n', k);
      TrimLacks(parts[k], '\n');
      TrimLacks(parts[k], ',');
    }
    forall k | 0 <= k < |lines|
      ensures '\n' !in lines[k] && ',' !in lines[k] && !IsWhitespace(lines[k][0]) && !IsWhitespace(lines[k][|lines[k]| - 1])
    {
      assert lines[k] in trimmed;
      var j :| 0 <= j < |trimmed| && trimmed[j] == lines[k];
      assert lines[k] == Trim(parts[j]);
    }
  }

  /** A secondary list with no non-blank part leaves a trailing line break. */
  lemma BlankSecondaryLeavesEmptyLine(primary: Option<string>, secondary: string)
    requires secondary != "" && |MusclesLines(secondary)| == 0
    ensures FormatMusclesCell(primary, Some(secondary)) == primary.GetOr("n/a") + "\n"
  {
  }

  // ---------------------------------------------------------------------------
  // hasHistoryFilters and toHistoryFilters

  /** The parsed flags of the exercises command. */
  datatype ExerciseFlags = ExerciseFlags(
    all: bool, equipment: Option<string>, from: Option<string>, limit: Option<int>,
    maxReps: Option<int>, maxWeight: Option<int>, minReps: Option<int>, minWeight: Option<int>,
    muscle: Option<string>, name: Option<string>, program: Option<string>, routine: Option<string>,
    sort: Option<SortKey>, to: Option<string>)

  /** hasHistoryFilters: --all, or any history flag present (an empty string is present). */
  predicate HasHistoryFilters(flags: ExerciseFlags)
  {
    || flags.all || flags.from.Some? || flags.limit.Some?
    || flags.maxReps.Some? || flags.maxWeight.Some? || flags.minReps.Some? || flags.minWeight.Some?
    || flags.program.Some? || flags.routine.Some? || flags.to.Some?
  }

  function OptionalReal(value: Option<int>): Option<real>
  {
    if value.Some? then Some(value.value as real) else None
  }

  /** toHistoryFilters: no limit with --all, otherwise --limit or 100. */
  function ToHistoryFilters(flags: ExerciseFlags): (r: ExerciseHistoryFilters)
    ensures flags.all ==> r.limit.None?
    ensures !flags.all && flags.limit.Some? ==> r.limit == flags.limit
    ensures !flags.all && flags.limit.None? ==> r.limit == Some(100)
    ensures r.from == flags.from && r.to == flags.to && r.program == flags.program && r.routine == flags.routine
    ensures r.minReps == flags.minReps && r.maxReps == flags.maxReps
    ensures r.minWeight == OptionalReal(flags.minWeight) && r.maxWeight == OptionalReal(flags.maxWeight)
  {
    ExerciseHistoryFilters(flags.from, if flags.all then None else Some(flags.limit.GetOr(100)),
      flags.maxReps, OptionalReal(flags.maxWeight), flags.minReps, OptionalReal(flags.minWeight),
      flags.program, flags.routine, flags.to)
  }

  /** Flags without history filters give the default history query: the latest 100 rows. */
  lemma NoHistoryFlagsMeansDefault(flags: ExerciseFlags)
    requires !HasHistoryFilters(flags)
    ensures ToHistoryFilters(flags) == NoHistoryFilters(Some(100))
  {
  }

  /** The list filters (name, muscle, equipment, sort) never count as history filters
      and do not change the history query. */
  lemma ListFlagsDoNotCount(flags: ExerciseFlags, equipment: Option<string>, muscle: Option<string>,
                            name: Option<string>, sort: Option<SortKey>)
    ensures var other := flags.(equipment := equipment, muscle := muscle, name := name, sort := sort);
      HasHistoryFilters(other) == HasHistoryFilters(flags) && ToHistoryFilters(other) == ToHistoryFilters(flags)
  {
  }

  // ---------------------------------------------------------------------------
  // The command's plan

  /** What the exercises command does: list with the list filters, or show one
      exercise with its history filters. */
  datatype ExercisePlan =
    | ListPlan(filters: ExerciseListFilters)
    | ShowPlan(selector: string, history: ExerciseHistoryFilters)

  /** Without a selector, history flags are an error and the list runs with the
      sort flag defaulting to name; with one, the exercise is shown. */
  function ExercisesPlan(selector: Option<string>, flags: ExerciseFlags): (r: Result<ExercisePlan>)
    ensures r.Err? <==> (selector.None? || selector == Some("")) && HasHistoryFilters(flags)
    ensures r.Err? ==> r.error == HistoryFiltersNeedSelector
    ensures r.Ok? && r.value.ListPlan? ==> r.value.filters.sort.Some?
    ensures r.Ok? && r.value.ShowPlan? ==> selector == Some(r.value.selector) && r.value.selector != ""
  {
    if selector.None? || selector.value == "" then
      if HasHistoryFilters(flags) then Err(HistoryFiltersNeedSelector)
      else Ok(ListPlan(ExerciseListFilters(flags.equipment, flags.muscle, flags.name, Some(flags.sort.GetOr(ByName)))))
    else Ok(ShowPlan(selector.value, ToHistoryFilters(flags)))
  }

  /** A list plan with no sort flag sorts by name; the list order is then the
      name order of the listed summaries. */
  lemma DefaultSortIsName(flags: ExerciseFlags)
    requires flags.sort.None? && !HasHistoryFilters(flags)
    ensures ExercisesPlan(None, flags) == Ok(ListPlan(ExerciseListFilters(flags.equipment, flags.muscle, flags.name, Some(ByName))))
  {
  }
}
