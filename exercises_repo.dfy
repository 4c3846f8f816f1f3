/** Exercise selection, listing and sorting, exercise history, exercise detail and
    the last-performed snapshot (src/lib/repositories/exercises.ts). */
module Exercises {
  import opened Strings
  import opened Base
  import opened Units
  import opened Time
  import opened Names
  import opened Selectors
  import Workouts

  // ---------------------------------------------------------------------------
  // resolveExerciseSelector

  /** One ZEXERCISEINFORMATION row as the selector query reads it. */
  datatype ExerciseNameRow = ExerciseNameRow(
    id: int, isUserCreated: Option<int>, name: Option<string>, softDeleted: Option<int>)

  function DisplayName(row: ExerciseNameRow): string
  {
    FormatExerciseDisplayName(row.name, AsBool(row.isUserCreated))
  }

  /** The stored name lower-cased, a null name read as "". */
  function RawName(row: ExerciseNameRow): string
  {
    Lower(row.name.GetOr(""))
  }

  predicate Visible(row: ExerciseNameRow)
  {
    row.softDeleted != Some(1)
  }

  /** selector.toLowerCase().trim() */
  function NormalizeSelector(selector: string): string
  {
    Trim(Lower(selector))
  }

  predicate ExactExercise(row: ExerciseNameRow, normalized: string)
  {
    RawName(row) == normalized || Lower(DisplayName(row)) == normalized
  }

  predicate PartialExercise(row: ExerciseNameRow, normalized: string)
  {
    Contains(RawName(row), normalized) || Contains(Lower(DisplayName(row)), normalized)
  }

  function ExactExercises(rows: seq<ExerciseNameRow>, normalized: string): seq<ExerciseNameRow>
  {
    Filter(Filter(rows, Visible), (row: ExerciseNameRow) => ExactExercise(row, normalized))
  }

  function PartialExercises(rows: seq<ExerciseNameRow>, normalized: string): seq<ExerciseNameRow>
  {
    Filter(Filter(rows, Visible), (row: ExerciseNameRow) => PartialExercise(row, normalized))
  }

  /** renderSelectorCandidateList: candidates are listed by their display names. */
  function SelectorCandidates(rows: seq<ExerciseNameRow>): (r: seq<IdName>)
    ensures |r| == |rows|
    ensures forall i :: 0 <= i < |rows| ==> r[i].id == rows[i].id && r[i].name == DisplayName(rows[i])
  {
    MapSeq(rows, (row: ExerciseNameRow) => IdName(row.id, DisplayName(row)))
  }

  /** resolveExerciseSelector: digits are an id; otherwise visible exercises are
      matched on their raw or display name, exactly and then as substrings. */
  function ResolveExerciseSelector(rows: seq<ExerciseNameRow>, selector: string): (r: Result<int>)
    ensures IsNumeric(selector) ==> r == Ok(DigitsValue(selector))
    ensures var exact := ExactExercises(rows, NormalizeSelector(selector));
      !IsNumeric(selector) && |exact| == 1 ==> r == Ok(exact[0].id)
    ensures var exact := ExactExercises(rows, NormalizeSelector(selector));
      !IsNumeric(selector) && |exact| > 1 ==> r == Err(AmbiguousSelector(selector, SelectorCandidates(exact)))
    ensures var exact := ExactExercises(rows, NormalizeSelector(selector));
      var partial := PartialExercises(rows, NormalizeSelector(selector));
      !IsNumeric(selector) && |exact| == 0 && |partial| == 1 ==> r == Ok(partial[0].id)
    ensures var exact := ExactExercises(rows, NormalizeSelector(selector));
      var partial := PartialExercises(rows, NormalizeSelector(selector));
      !IsNumeric(selector) && |exact| == 0 && |partial| > 1 ==>
        r == Err(AmbiguousSelector(selector, SelectorCandidates(partial)))
    ensures r == Err(NoRecordsForSelector(selector)) <==>
      (!IsNumeric(selector) && |ExactExercises(rows, NormalizeSelector(selector))| == 0
                            && |PartialExercises(rows, NormalizeSelector(selector))| == 0)
  {
    if IsNumeric(selector) then Ok(DigitsValue(selector))
    else
      var normalized := NormalizeSelector(selector);
      var exact := ExactExercises(rows, normalized);
      if |exact| == 1 then Ok(exact[0].id)
      else if |exact| > 1 then Err(AmbiguousSelector(selector, SelectorCandidates(exact)))
      else
        var partial := PartialExercises(rows, normalized);
        if |partial| == 1 then Ok(partial[0].id)
        else if |partial| > 1 then Err(AmbiguousSelector(selector, SelectorCandidates(partial)))
        else Err(NoRecordsForSelector(selector))
  }

  /** A name resolution always lands on a visible exercise whose raw or display
      name matches the normalised selector. */
  lemma ResolvedExerciseIsVisibleMatch(rows: seq<ExerciseNameRow>, selector: string)
    requires !IsNumeric(selector) && ResolveExerciseSelector(rows, selector).Ok?
    ensures exists row :: (row in rows && Visible(row) && row.id == ResolveExerciseSelector(rows, selector).value &&
                           PartialExercise(row, NormalizeSelector(selector)))
  {
    var normalized := NormalizeSelector(selector);
    var exact := ExactExercises(rows, normalized);
    var partial := PartialExercises(rows, normalized);
    if |exact| == 1 {
      ExactIsCandidate(rows, normalized, 0);
      assert ResolveExerciseSelector(rows, selector).value == exact[0].id;
    } else {
      assert |exact| == 0 && |partial| == 1;
      PartialIsCandidate(rows, normalized, 0);
      assert ResolveExerciseSelector(rows, selector).value == partial[0].id;
    }
  }

  lemma ExactIsCandidate(rows: seq<ExerciseNameRow>, normalized: string, i: nat)
    requires i < |ExactExercises(rows, normalized)|
    ensures var row := ExactExercises(rows, normalized)[i];
      row in rows && Visible(row) && PartialExercise(row, normalized)
  {
    var row := ExactExercises(rows, normalized)[i];
    assert row in Filter(rows, Visible);
    assert ExactExercise(row, normalized);
    ContainsSelf(normalized);
  }

  lemma PartialIsCandidate(rows: seq<ExerciseNameRow>, normalized: string, i: nat)
    requires i < |PartialExercises(rows, normalized)|
    ensures var row := PartialExercises(rows, normalized)[i];
      row in rows && Visible(row) && PartialExercise(row, normalized)
  {
    var row := PartialExercises(rows, normalized)[i];
    assert row in Filter(rows, Visible);
  }

  /** A soft-deleted exercise is never a name candidate. */
  lemma SoftDeletedNeverMatches(rows: seq<ExerciseNameRow>, normalized: string)
    ensures forall i :: 0 <= i < |PartialExercises(rows, normalized)| ==> Visible(PartialExercises(rows, normalized)[i])
    ensures forall i :: 0 <= i < |ExactExercises(rows, normalized)| ==> Visible(ExactExercises(rows, normalized)[i])
  {
    var visible := Filter(rows, Visible);
    var partial := PartialExercises(rows, normalized);
    forall i | 0 <= i < |partial| ensures Visible(partial[i]) {
      assert partial[i] in visible;
    }
    var exact := ExactExercises(rows, normalized);
    forall i | 0 <= i < |exact| ensures Visible(exact[i]) {
      assert exact[i] in visible;
    }
  }

  /** Surrounding whitespace and letter case in the selector do not change the
      outcome of a name resolution. */
  lemma SelectorCaseAndSpaceIgnored(rows: seq<ExerciseNameRow>, a: string, b: string)
    requires !IsNumeric(a) && !IsNumeric(b) && NormalizeSelector(a) == NormalizeSelector(b)
    ensures ResolveExerciseSelector(rows, a).Ok? <==> ResolveExerciseSelector(rows, b).Ok?
    ensures ResolveExerciseSelector(rows, a).Ok? ==> ResolveExerciseSelector(rows, a) == ResolveExerciseSelector(rows, b)
  {
  }

  // ---------------------------------------------------------------------------
  // The selector on the test fixture: squat (1000), bench_press (1001), bench (1002)

  function SelectorFixture(s: string, b: string, p: string): seq<ExerciseNameRow>
  {
    [ExerciseNameRow(1000, None, Some(s), Some(0)),
     ExerciseNameRow(1001, None, Some(b + "_" + p), Some(0)),
     ExerciseNameRow(1002, None, Some(b), Some(0))]
  }

  /** A substring starts with a character of the string. */
  lemma ContainsHead(s: string, sub: string)
    requires sub != [] && Contains(s, sub)
    ensures sub[0] in s
  {
    var i :| 0 <= i <= |s| && sub <= s[i..];
    assert s[i] == sub[0];
  }

  /** The display and raw names of a built-in row with a lower-case name. */
  lemma BuiltInRowNames(row: ExerciseNameRow, display: string)
    requires row.isUserCreated == None && row.name.Some? && row.name.value != ""
    requires forall k :: 0 <= k < |row.name.value| ==> !IsUpperAscii(row.name.value[k])
    requires FormatExerciseName(row.name.value) == display
    ensures DisplayName(row) == display && RawName(row) == row.name.value
  {
    LowerOfLowercase(row.name.value);
  }

  lemma SquatRow(row: ExerciseNameRow, s: string)
    requires s == "squat" && row == ExerciseNameRow(1000, None, Some(s), Some(0))
    ensures DisplayName(row) == "Squat" && RawName(row) == s
  {
    assert forall k :: 0 <= k < |s| ==> !IsUpperAscii(s[k]);
    SquatName(s);
    BuiltInRowNames(row, "Squat");
  }

  lemma BenchPressRow(row: ExerciseNameRow, b: string, p: string)
    requires b == "bench" && p == "press" && row == ExerciseNameRow(1001, None, Some(b + "_" + p), Some(0))
    ensures DisplayName(row) == "Bench Press" && RawName(row) == b + "_" + p
  {
    NoUpperConcat(b, "_");
    NoUpperConcat(b + "_", p);
    BenchPressName(b, p);
    BuiltInRowNames(row, "Bench Press");
  }

  lemma NoUpperConcat(x: string, y: string)
    requires forall k :: 0 <= k < |x| ==> !IsUpperAscii(x[k])
    requires forall k :: 0 <= k < |y| ==> !IsUpperAscii(y[k])
    ensures forall k :: 0 <= k < |x + y| ==> !IsUpperAscii((x + y)[k])
  {
  }

  lemma BenchRow(row: ExerciseNameRow, b: string)
    requires b == "bench" && row == ExerciseNameRow(1002, None, Some(b), Some(0))
    ensures DisplayName(row) == "Bench" && RawName(row) == b
  {
    assert forall k :: 0 <= k < |b| ==> !IsUpperAscii(b[k]);
    BenchName(b);
    BuiltInRowNames(row, "Bench");
  }

  lemma FixtureDisplayNames(s: string, b: string, p: string)
    requires s == "squat" && b == "bench" && p == "press"
    ensures var rows := SelectorFixture(s, b, p);
      && DisplayName(rows[0]) == "Squat" && DisplayName(rows[1]) == "Bench Press" && DisplayName(rows[2]) == "Bench"
      && RawName(rows[0]) == s && RawName(rows[1]) == b + "_" + p && RawName(rows[2]) == b
  {
    var rows := SelectorFixture(s, b, p);
    SquatRow(rows[0], s);
    BenchPressRow(rows[1], b, p);
    BenchRow(rows[2], b);
  }

  lemma LowerWord(w: string, lowered: string)
    requires w != [] && IsUpperAscii(w[0]) && forall k :: 1 <= k < |w| ==> !IsUpperAscii(w[k])
    requires lowered == [(w[0] as int + 32) as char] + w[1..]
    ensures Lower(w) == lowered
  {
  }

  lemma LowerBenchPress(x: string, y: string)
    requires x == "Bench" && y == "Press"
    ensures Lower(x + " " + y) == "bench press"
  {
    LowerWord(x, "bench");
    LowerWord(y, "press");
    assert Lower(x + " " + y) == Lower(x) + " " + Lower(y);
  }

  lemma NormalizeBenchPress(selector: string)
    requires selector == "Bench Press"
    ensures NormalizeSelector(selector) == "bench press" && !IsNumeric(selector)
  {
    BenchPressNotNumeric(selector);
    NormalizedBenchPress(selector);
  }

  lemma BenchPressNotNumeric(selector: string)
    requires selector == "Bench Press"
    ensures !IsNumeric(selector)
  {
    assert !IsDigit(selector[0]);
  }

  lemma NormalizedBenchPress(selector: string)
    requires selector == "Bench Press"
    ensures NormalizeSelector(selector) == "bench press"
  {
    LowerOfBenchPress(selector);
    TrimBenchPress(Lower(selector));
  }

  lemma LowerOfBenchPress(selector: string)
    requires selector == "Bench Press"
    ensures Lower(selector) == "bench press"
  {
    assert selector == "Bench" + " " + "Press";
    LowerBenchPress("Bench", "Press");
  }

  lemma TrimBenchPress(t: string)
    requires t == "bench press"
    ensures Trim(t) == t
  {
    assert !IsWhitespace(t[0]) && !IsWhitespace(t[|t| - 1]);
    TrimOfTrimmed(t);
  }

  lemma NormalizeBen(selector: string)
    requires selector == "ben"
    ensures NormalizeSelector(selector) == selector && !IsNumeric(selector)
  {
    assert !IsDigit(selector[0]);
    assert forall k :: 0 <= k < |selector| ==> !IsUpperAscii(selector[k]);
    assert !IsWhitespace(selector[0]) && !IsWhitespace(selector[|selector| - 1]);
    LowerOfLowercase(selector);
    TrimOfTrimmed(selector);
  }

  lemma VisibleTriple(rows: seq<ExerciseNameRow>)
    requires |rows| == 3 && Visible(rows[0]) && Visible(rows[1]) && Visible(rows[2])
    ensures Filter(rows, Visible) == rows
  {
    FilterAll(rows, Visible);
  }

  /** Which of three rows pass a filter. */
  lemma FilterTriple(rows: seq<ExerciseNameRow>, keep: ExerciseNameRow -> bool)
    requires |rows| == 3
    ensures Filter(rows, keep)
         == (if keep(rows[0]) then [rows[0]] else [])
          + ((if keep(rows[1]) then [rows[1]] else []) + (if keep(rows[2]) then [rows[2]] else []))
  {
    var r1, r2 := rows[1..], rows[2..];
    var h0 := if keep(rows[0]) then [rows[0]] else [];
    var h1 := if keep(rows[1]) then [rows[1]] else [];
    var h2 := if keep(rows[2]) then [rows[2]] else [];
    assert r1[1..] == r2 && r2[1..] == [];
    assert Filter(r2, keep) == h2;
    assert Filter(r1, keep) == h1 + h2;
    assert Filter(rows, keep) == h0 + Filter(r1, keep);
  }

  lemma BenNotExact(rows: seq<ExerciseNameRow>, normalized: string)
    requires |rows| == 3 && |normalized| == 3 && Visible(rows[0]) && Visible(rows[1]) && Visible(rows[2])
    requires |DisplayName(rows[0])| >= 5 && |RawName(rows[0])| >= 5
    requires |DisplayName(rows[1])| >= 5 && |RawName(rows[1])| >= 5
    requires |DisplayName(rows[2])| >= 5 && |RawName(rows[2])| >= 5
    ensures ExactExercises(rows, normalized) == []
  {
    VisibleTriple(rows);
    assert |Lower(DisplayName(rows[0]))| >= 5;
    assert |Lower(DisplayName(rows[1]))| >= 5;
    assert |Lower(DisplayName(rows[2]))| >= 5;
    FilterTriple(Filter(rows, Visible), (row: ExerciseNameRow) => ExactExercise(row, normalized));
  }

  /** The built-in `bench_press` is found by its display name "Bench Press". */
  lemma DisplayNameSelects(s: string, b: string, p: string, selector: string)
    requires s == "squat" && b == "bench" && p == "press" && selector == "Bench Press"
    ensures ResolveExerciseSelector(SelectorFixture(s, b, p), selector) == Ok(1001)
  {
    var rows := SelectorFixture(s, b, p);
    FixtureDisplayNames(s, b, p);
    NormalizeBenchPress(selector);
    var normalized := NormalizeSelector(selector);
    assert ExactExercise(rows[1], normalized) by {
      assert Lower(DisplayName(rows[1])) == normalized by { NormalizeBenchPress(DisplayName(rows[1])); }
    }
    assert !ExactExercise(rows[0], normalized) by {
      assert |Lower(DisplayName(rows[0]))| == 5 && |RawName(rows[0])| == 5;
    }
    assert !ExactExercise(rows[2], normalized) by {
      assert |Lower(DisplayName(rows[2]))| == 5 && |RawName(rows[2])| == 5;
    }
    VisibleTriple(rows);
    FilterTriple(rows, (row: ExerciseNameRow) => ExactExercise(row, normalized));
  }

  lemma SecondAndThirdPartial(rows: seq<ExerciseNameRow>, normalized: string)
    requires |rows| == 3 && Visible(rows[0]) && Visible(rows[1]) && Visible(rows[2])
    requires !PartialExercise(rows[0], normalized)
    requires PartialExercise(rows[1], normalized) && PartialExercise(rows[2], normalized)
    ensures PartialExercises(rows, normalized) == [rows[1], rows[2]]
  {
    VisibleTriple(rows);
    FilterTriple(rows, (row: ExerciseNameRow) => PartialExercise(row, normalized));
  }

  lemma LacksHead(s: string, sub: string)
    requires sub != [] && sub[0] !in s
    ensures !Contains(s, sub)
  {
    if Contains(s, sub) { ContainsHead(s, sub); }
  }

  lemma SquatLacksBen(row: ExerciseNameRow, normalized: string)
    requires RawName(row) == "squat" && DisplayName(row) == "Squat" && normalized == "ben"
    ensures !PartialExercise(row, normalized)
  {
    SquatLacks(RawName(row), normalized);
    LowerSquat(DisplayName(row));
    SquatLacks(Lower(DisplayName(row)), normalized);
  }

  lemma SquatLacks(x: string, normalized: string)
    requires x == "squat" && normalized == "ben"
    ensures !Contains(x, normalized)
  {
    assert normalized[0] !in x;
    LacksHead(x, normalized);
  }

  lemma LowerSquat(w: string)
    requires w == "Squat"
    ensures Lower(w) == "squat"
  {
    LowerWord(w, "squat");
  }

  lemma PrefixOfRaw(row: ExerciseNameRow, normalized: string)
    requires normalized <= RawName(row)
    ensures PartialExercise(row, normalized)
  {
    assert normalized <= RawName(row)[0..];
  }

  lemma BenTiers(s: string, b: string, p: string, selector: string)
    requires s == "squat" && b == "bench" && p == "press" && selector == "ben"
    ensures var rows := SelectorFixture(s, b, p);
      && !IsNumeric(selector) && ExactExercises(rows, NormalizeSelector(selector)) == []
      && PartialExercises(rows, NormalizeSelector(selector)) == [rows[1], rows[2]]
  {
    BenNotExactInFixture(s, b, p, selector);
    BenPartialInFixture(s, b, p, selector);
  }

  lemma BenNotExactInFixture(s: string, b: string, p: string, selector: string)
    requires s == "squat" && b == "bench" && p == "press" && selector == "ben"
    ensures !IsNumeric(selector) && ExactExercises(SelectorFixture(s, b, p), NormalizeSelector(selector)) == []
  {
    FixtureDisplayNames(s, b, p);
    NormalizeBen(selector);
    BenNotExact(SelectorFixture(s, b, p), NormalizeSelector(selector));
  }

  lemma BenPartialInFixture(s: string, b: string, p: string, selector: string)
    requires s == "squat" && b == "bench" && p == "press" && selector == "ben"
    ensures var rows := SelectorFixture(s, b, p);
      PartialExercises(rows, NormalizeSelector(selector)) == [rows[1], rows[2]]
  {
    PrefixOfConcat(b, "_" + p);
    FixtureDisplayNames(s, b, p);
    NormalizeBen(selector);
    BenPartial(SelectorFixture(s, b, p), NormalizeSelector(selector), b);
  }

  lemma PrefixOfConcat(x: string, y: string)
    ensures x <= x + y
  {
    assert (x + y)[..|x|] == x;
  }

  lemma BenPartial(rows: seq<ExerciseNameRow>, normalized: string, b: string)
    requires |rows| == 3 && Visible(rows[0]) && Visible(rows[1]) && Visible(rows[2])
    requires normalized == "ben" && b == "bench"
    requires RawName(rows[0]) == "squat" && DisplayName(rows[0]) == "Squat"
    requires b <= RawName(rows[1]) && RawName(rows[2]) == b
    ensures PartialExercises(rows, normalized) == [rows[1], rows[2]]
  {
    assert normalized <= b;
    SquatLacksBen(rows[0], normalized);
    PrefixOfRaw(rows[1], normalized);
    PrefixOfRaw(rows[2], normalized);
    SecondAndThirdPartial(rows, normalized);
  }

  lemma BenchCandidates(s: string, b: string, p: string)
    requires s == "squat" && b == "bench" && p == "press"
    ensures var rows := SelectorFixture(s, b, p);
      SelectorCandidates([rows[1], rows[2]]) == [IdName(1001, "Bench Press"), IdName(1002, "Bench")]
  {
    FixtureDisplayNames(s, b, p);
  }

  /** `ben` is a substring of both bench names, so it is ambiguous and the error
      lists "Bench Press" and "Bench". */
  lemma PrefixIsAmbiguous(s: string, b: string, p: string, selector: string)
    requires s == "squat" && b == "bench" && p == "press" && selector == "ben"
    ensures ResolveExerciseSelector(SelectorFixture(s, b, p), selector)
         == Err(AmbiguousSelector(selector, [IdName(1001, "Bench Press"), IdName(1002, "Bench")]))
  {
    var rows := SelectorFixture(s, b, p);
    BenTiers(s, b, p, selector);
    BenchCandidates(s, b, p);
    AmbiguousSubstring(rows, selector, [rows[1], rows[2]]);
  }

  lemma AmbiguousSubstring(rows: seq<ExerciseNameRow>, selector: string, partial: seq<ExerciseNameRow>)
    requires !IsNumeric(selector) && ExactExercises(rows, NormalizeSelector(selector)) == []
    requires PartialExercises(rows, NormalizeSelector(selector)) == partial && |partial| > 1
    ensures ResolveExerciseSelector(rows, selector) == Err(AmbiguousSelector(selector, SelectorCandidates(partial)))
  {
  }

  // ---------------------------------------------------------------------------
  // listExercises

  /** The sort flag. */
  datatype SortKey = ByLastPerformed | ByName | ByTimesPerformed

  datatype ExerciseListFilters = ExerciseListFilters(
    equipment: Option<string>, muscle: Option<string>, name: Option<string>, sort: Option<SortKey>)

  /** One grouped row of the list query: an exercise with its equipment, the latest
      start date and the number of distinct workouts it was performed in. */
  datatype ExerciseListRow = ExerciseListRow(
    id: int, name: Option<string>, isUserCreated: Option<int>,
    primaryMuscles: Option<string>, secondaryMuscles: Option<string>,
    timerBased: Option<int>, supports1RM: Option<int>,
    equipment: Option<string>, equipmentId: Option<string>,
    lastPerformed: Option<real>, timesPerformed: nat, softDeleted: Option<int>)

  datatype ExerciseSummary = ExerciseSummary(
    equipment: Option<string>, id: int, lastPerformed: Option<Iso>, name: string,
    primaryMuscles: Option<string>, secondaryMuscles: Option<string>,
    supports1RM: bool, timerBased: bool, timesPerformed: nat)

  /** column LIKE '%pattern%', read as case-insensitive substring containment; a
      null column never matches. */
  predicate Like(column: Option<string>, pattern: string)
  {
    column.Some? && Contains(Lower(column.value), Lower(pattern))
  }

  /** The name filter: the raw name, or the name with underscores read as spaces. */
  predicate NameMatches(name: Option<string>, filter: string)
  {
    || Like(name, filter)
    || (name.Some? && Contains(Lower(ReplaceChar(name.value, '_', ' ')), ReplaceChar(Lower(filter), '_', ' ')))
  }

  /** The WHERE clause of the list query; an empty filter is no filter. */
  predicate Listed(row: ExerciseListRow, filters: ExerciseListFilters)
  {
    && row.softDeleted != Some(1)
    && (filters.name.Some? && filters.name.value != "" ==> NameMatches(row.name, filters.name.value))
    && (filters.muscle.Some? && filters.muscle.value != "" ==>
          Like(row.primaryMuscles, filters.muscle.value) || Like(row.secondaryMuscles, filters.muscle.value))
    && (filters.equipment.Some? && filters.equipment.value != "" ==>
          Like(row.equipment, filters.equipment.value) || Like(row.equipmentId, filters.equipment.value))
  }

  /** The row mapping; formatEquipmentDisplayName and formatMuscleLabel are given. */
  function ToExerciseSummary(row: ExerciseListRow, equipmentName: (Option<string>, Option<string>) -> Option<string>,
                             muscleLabel: Option<string> -> Option<string>): ExerciseSummary
  {
    ExerciseSummary(equipmentName(row.equipment, row.equipmentId), row.id, AppleSecondsToIso(row.lastPerformed),
                    FormatExerciseDisplayName(row.name, AsBool(row.isUserCreated)),
                    muscleLabel(row.primaryMuscles), muscleLabel(row.secondaryMuscles),
                    AsBool(row.supports1RM), AsBool(row.timerBased), row.timesPerformed)
  }

  /** The unsorted summaries, in the query's ZNAME order. */
  function ListedSummaries(filters: ExerciseListFilters, rows: seq<ExerciseListRow>,
                           equipmentName: (Option<string>, Option<string>) -> Option<string>,
                           muscleLabel: Option<string> -> Option<string>): seq<ExerciseSummary>
  {
    MapSeq(Filter(rows, (row: ExerciseListRow) => Listed(row, filters)),
           (row: ExerciseListRow) => ToExerciseSummary(row, equipmentName, muscleLabel))
  }

  /** The comparator of each sort order: negative puts `a` first. Ties on the key
      fall back to ascending id. */
  function Compare(key: SortKey, a: ExerciseSummary, b: ExerciseSummary): int
  {
    match key
    case ByTimesPerformed =>
      if b.timesPerformed != a.timesPerformed then b.timesPerformed - a.timesPerformed else a.id - b.id
    case ByLastPerformed =>
      if a.lastPerformed == b.lastPerformed then a.id - b.id
      else if a.lastPerformed.None? then 1
      else if b.lastPerformed.None? then -1
      else if b.lastPerformed.value.unixMillis < a.lastPerformed.value.unixMillis then -1
      else 1
    case ByName =>
      if Lower(a.name) == Lower(b.name) then a.id - b.id else LexCompare(Lower(a.name), Lower(b.name))
  }

  predicate Le(key: SortKey, a: ExerciseSummary, b: ExerciseSummary)
  {
    Compare(key, a, b) <= 0
  }

  predicate SortedBy(key: SortKey, s: seq<ExerciseSummary>)
  {
    forall i, j :: 0 <= i < j < |s| ==> Le(key, s[i], s[j])
  }

  /** Swapping the arguments flips a positive comparison to a negative one. */
  lemma CompareFlip(key: SortKey, a: ExerciseSummary, b: ExerciseSummary)
    requires Compare(key, a, b) > 0
    ensures Compare(key, b, a) < 0
  {
    if key.ByName? && Lower(a.name) != Lower(b.name) {
      LexCompareAntisymmetric(Lower(a.name), Lower(b.name));
    }
  }

  /** Each comparator orders consistently. */
  lemma LeTransitive(key: SortKey, a: ExerciseSummary, b: ExerciseSummary, c: ExerciseSummary)
    requires Le(key, a, b) && Le(key, b, c)
    ensures Le(key, a, c)
  {
    if key.ByName? {
      var x, y, z := Lower(a.name), Lower(b.name), Lower(c.name);
      if x != y && y != z {
        LexCompareZero(x, y);
        LexCompareZero(y, z);
        LexCompareTransitive(x, y, z);
        if x == z {
          LexCompareAntisymmetric(x, y);
        }
      }
    }
  }

  /** summaries.sort(comparator) on an array: a stable insertion sort that swaps
      neighbours while the comparator puts the later one first. */
  method SortSummaries(key: SortKey, a: array<ExerciseSummary>)
    modifies a
    ensures SortedBy(key, a[..])
    ensures multiset(a[..]) == multiset(old(a[..]))
  {
    if a.Length == 0 {
      return;
    }
    for i := 1 to a.Length
      invariant SortedBy(key, a[..i])
      invariant multiset(a[..]) == multiset(old(a[..]))
    {
      InsertAt(key, a, i);
    }
    assert a[..a.Length] == a[..];
  }

  /** The state of one insertion step with the moving element at j: without j
      the prefix a[..i+1] is sorted, and the moving element comes strictly before
      everything already passed. */
  predicate Inserting(key: SortKey, s: seq<ExerciseSummary>, i: nat, j: nat)
  {
    && j <= i < |s|
    && (forall p, q :: 0 <= p < q <= i && p != j && q != j ==> Le(key, s[p], s[q]))
    && (forall q :: j < q <= i ==> Compare(key, s[j], s[q]) < 0)
  }

  /** Swapping the moving element with its left neighbour keeps the step's state. */
  lemma SwapKeepsInserting(key: SortKey, s: seq<ExerciseSummary>, i: nat, j: nat)
    requires Inserting(key, s, i, j) && 0 < j && Compare(key, s[j - 1], s[j]) > 0
    ensures Inserting(key, s[j - 1 := s[j]][j := s[j - 1]], i, j - 1)
  {
    CompareFlip(key, s[j - 1], s[j]);
  }

  /** Before the first swap the moving element is a[i] itself. */
  lemma StartInserting(key: SortKey, s: seq<ExerciseSummary>, i: nat)
    requires i < |s| && SortedBy(key, s[..i])
    ensures Inserting(key, s, i, i)
  {
    forall p, q | 0 <= p < q <= i && p != i && q != i
      ensures Le(key, s[p], s[q])
    {
      assert s[p] == s[..i][p] && s[q] == s[..i][q];
    }
  }

  lemma SwapKeepsMultiset<T>(s: seq<T>, j: nat)
    requires 0 < j < |s|
    ensures multiset(s[j - 1 := s[j]][j := s[j - 1]]) == multiset(s)
  {
  }

  /** Once the moving element is in place the whole prefix is sorted. */
  lemma InsertedIsSorted(key: SortKey, s: seq<ExerciseSummary>, i: nat, j: nat)
    requires Inserting(key, s, i, j) && (j == 0 || Compare(key, s[j - 1], s[j]) <= 0)
    ensures SortedBy(key, s[..i + 1])
  {
    forall p, q | 0 <= p < q <= i
      ensures Le(key, s[p], s[q])
    {
      if q == j && p < j - 1 {
        LeTransitive(key, s[p], s[j - 1], s[j]);
      }
    }
  }

  /** One insertion step: moves a[i] down into the sorted prefix a[..i]. */
  method InsertAt(key: SortKey, a: array<ExerciseSummary>, i: nat)
    requires 0 < i < a.Length
    requires SortedBy(key, a[..i])
    modifies a
    ensures SortedBy(key, a[..i + 1])
    ensures multiset(a[..]) == multiset(old(a[..]))
  {
    var j := i;
    StartInserting(key, a[..], i);
    while j > 0 && Compare(key, a[j - 1], a[j]) > 0
      invariant Inserting(key, a[..], i, j)
      invariant multiset(a[..]) == multiset(old(a[..]))
      decreases j
    {
      ghost var s := a[..];
      SwapKeepsInserting(key, s, i, j);
      SwapKeepsMultiset(s, j);
      a[j - 1], a[j] := a[j], a[j - 1];
      assert a[..] == s[j - 1 := s[j]][j := s[j - 1]];
      j := j - 1;
    }
    InsertedIsSorted(key, a[..], i, j);
  }

  /** listExercises: the visible, filtered summaries ordered by the sort flag
      (by name when it is absent). */
  method ListExercises(filters: ExerciseListFilters, rows: seq<ExerciseListRow>,
                       equipmentName: (Option<string>, Option<string>) -> Option<string>,
                       muscleLabel: Option<string> -> Option<string>)
    returns (r: seq<ExerciseSummary>)
    ensures multiset(r) == multiset(ListedSummaries(filters, rows, equipmentName, muscleLabel))
    ensures SortedBy(filters.sort.GetOr(ByName), r)
  {
    var summaries := ListedSummaries(filters, rows, equipmentName, muscleLabel);
    var a := new ExerciseSummary[|summaries|](i requires 0 <= i < |summaries| => summaries[i]);
    assert a[..] == summaries;
    SortSummaries(filters.sort.GetOr(ByName), a);
    r := a[..];
  }

  /** Every listed exercise passes the filters and is not soft-deleted, and every
      row that passes them is listed. */
  lemma ListedExactly(filters: ExerciseListFilters, rows: seq<ExerciseListRow>,
                      equipmentName: (Option<string>, Option<string>) -> Option<string>,
                      muscleLabel: Option<string> -> Option<string>)
    ensures var kept := Filter(rows, (row: ExerciseListRow) => Listed(row, filters));
      && (forall i :: 0 <= i < |kept| ==> kept[i].softDeleted != Some(1) && Listed(kept[i], filters))
      && (forall i :: 0 <= i < |rows| && Listed(rows[i], filters) ==>
            ToExerciseSummary(rows[i], equipmentName, muscleLabel) in ListedSummaries(filters, rows, equipmentName, muscleLabel))
  {
    var kept := Filter(rows, (row: ExerciseListRow) => Listed(row, filters));
    forall i | 0 <= i < |rows| && Listed(rows[i], filters)
      ensures ToExerciseSummary(rows[i], equipmentName, muscleLabel) in ListedSummaries(filters, rows, equipmentName, muscleLabel)
    {
      assert rows[i] in kept;
      var k :| 0 <= k < |kept| && kept[k] == rows[i];
      assert ListedSummaries(filters, rows, equipmentName, muscleLabel)[k] == ToExerciseSummary(rows[i], equipmentName, muscleLabel);
    }
  }

  /** Sorting by times performed puts the most performed exercise first. */
  lemma TimesPerformedFirstIsMost(s: seq<ExerciseSummary>)
    requires SortedBy(ByTimesPerformed, s) && |s| > 0
    ensures forall i :: 0 <= i < |s| ==> s[i].timesPerformed <= s[0].timesPerformed
  {
    forall i | 0 < i < |s| ensures s[i].timesPerformed <= s[0].timesPerformed {
      assert Le(ByTimesPerformed, s[0], s[i]);
    }
  }

  /** Sorting by last performed puts never-performed exercises after all others. */
  lemma NeverPerformedLast(s: seq<ExerciseSummary>)
    requires SortedBy(ByLastPerformed, s)
    ensures forall i, j :: 0 <= i < j < |s| && s[i].lastPerformed.None? ==> s[j].lastPerformed.None?
  {
    forall i, j | 0 <= i < j < |s| && s[i].lastPerformed.None? ensures s[j].lastPerformed.None? {
      assert Le(ByLastPerformed, s[i], s[j]);
    }
  }

  // ---------------------------------------------------------------------------
  // getExerciseHistoryRows

  datatype ExerciseHistoryFilters = ExerciseHistoryFilters(
    from: Option<string>, limit: Option<int>, maxReps: Option<int>, maxWeight: Option<real>,
    minReps: Option<int>, minWeight: Option<real>, program: Option<string>, routine: Option<string>,
    to: Option<string>)

  /** One workout in which the exercise was performed, with the workout's routine,
      the routine's own plan and its period's plan, and the aggregates over the
      exercise's set results in that workout (count, SUM and MAX of reps, MAX of
      weight, SUM of volume; a SUM over no sets is 0). Rows are in ZSTARTDATE-descending order. */
  datatype HistoryAggregateRow = HistoryAggregateRow(
    workoutId: int, startDate: Option<real>, routineNameFromResult: Option<string>,
    routineNameFromPlan: Option<string>, routineId: Option<int>, routinePlanId: Option<int>,
    periodPlanId: Option<int>, sets: nat, totalReps: int, topReps: Option<int>,
    topWeight: Option<real>, volume: real)

  datatype ExerciseHistoryRow = ExerciseHistoryRow(
    date: Option<Iso>, routine: Option<string>, sets: nat, topReps: Option<int>,
    topWeight: Option<real>, totalReps: int, volume: real, workoutId: int)

  /** A HAVING bound on a MAX aggregate: a NULL maximum fails every bound. */
  predicate AtLeast(top: Option<int>, bound: Option<int>)
  {
    bound.Some? ==> top.Some? && top.value >= bound.value
  }

  predicate AtMost(top: Option<int>, bound: Option<int>)
  {
    bound.Some? ==> top.Some? && top.value <= bound.value
  }

  predicate AtLeastReal(top: Option<real>, bound: Option<real>)
  {
    bound.Some? ==> top.Some? && top.value >= bound.value
  }

  predicate AtMostReal(top: Option<real>, bound: Option<real>)
  {
    bound.Some? ==> top.Some? && top.value <= bound.value
  }

  /** The resolved filters of one history query: ids, an Apple-seconds range and
      weight bounds in kilograms. */
  datatype HistoryBounds = HistoryBounds(
    programId: Option<int>, routineId: Option<int>, range: AppleRange,
    minReps: Option<int>, maxReps: Option<int>, minWeightKg: Option<real>, maxWeightKg: Option<real>)

  /** The WHERE and HAVING clauses. The program matches the routine's own plan or
      its period's plan. */
  predicate HistoryKept(row: HistoryAggregateRow, b: HistoryBounds)
  {
    && (b.programId.Some? ==> row.routinePlanId == b.programId || row.periodPlanId == b.programId)
    && (b.routineId.Some? ==> row.routineId == b.routineId)
    && Workouts.InRange(row.startDate, b.range)
    && AtLeast(row.topReps, b.minReps) && AtMost(row.topReps, b.maxReps)
    && AtLeastReal(row.topWeight, b.minWeightKg) && AtMostReal(row.topWeight, b.maxWeightKg)
  }

  /** The row normalisation: routine-name fallback and display-unit weights. */
  function ToHistoryRow(row: HistoryAggregateRow, unit: UnitPreference): ExerciseHistoryRow
  {
    ExerciseHistoryRow(AppleSecondsToIso(row.startDate),
      if row.routineNameFromResult.Some? then row.routineNameFromResult else row.routineNameFromPlan,
      row.sets, row.topReps, ConvertKgToDisplayWeight(row.topWeight, unit), row.totalReps,
      KgToDisplay(row.volume, unit), row.workoutId)
  }

  /** Everything a history query reads besides its filters: the unit settings, the
      exercise's equipment unit, the plans and routines the selectors look up and
      the aggregate rows of the exercise. convertDisplayWeightToKg and the local
      midnight of a date are given. */
  datatype HistorySource = HistorySource(
    settings: Option<SettingsRow>, equipment: Option<ExerciseEquipmentRow>,
    programs: seq<NamedRow>, routines: seq<NamedRow>, rows: seq<HistoryAggregateRow>)

  /** getExerciseHistoryRows: the date range (from/to only) is checked first,
      then the program and routine selectors; the display-unit weight bounds are
      converted to kilograms before they are compared. */
  function ExerciseHistory(filters: ExerciseHistoryFilters, src: HistorySource,
                           toKg: (real, UnitPreference) -> real, dayStart: LocalDate -> real): Result<seq<ExerciseHistoryRow>>
  {
    var unit := ResolveExerciseWeightUnit(src.settings, src.equipment);
    var range :- DateRange(DateFilterInput(filters.from, None, filters.to), dayStart);
    var minKg := if filters.minWeight.Some? then Some(toKg(filters.minWeight.value, unit)) else None;
    var maxKg := if filters.maxWeight.Some? then Some(toKg(filters.maxWeight.value, unit)) else None;
    var programId :- ResolveOptional(src.programs, filters.program);
    var routineId :- ResolveOptional(src.routines, filters.routine);
    var bounds := HistoryBounds(programId, routineId, range, filters.minReps, filters.maxReps, minKg, maxKg);
    var kept := Filter(src.rows, (row: HistoryAggregateRow) => HistoryKept(row, bounds));
    Ok(MapSeq(Take(kept, SqlLimit(filters.limit)), (row: HistoryAggregateRow) => ToHistoryRow(row, unit)))
  }

  /** The history is the first `limit` rows that pass every filter, in query
      order, each normalised; the only errors are those of the date flags and the
      two selectors. */
  lemma ExerciseHistoryResult(filters: ExerciseHistoryFilters, src: HistorySource,
                              toKg: (real, UnitPreference) -> real, dayStart: LocalDate -> real)
    ensures var r := ExerciseHistory(filters, src, toKg, dayStart);
      var range := DateRange(DateFilterInput(filters.from, None, filters.to), dayStart);
      var programId := ResolveOptional(src.programs, filters.program);
      var routineId := ResolveOptional(src.routines, filters.routine);
      && (r.Ok? <==> range.Ok? && programId.Ok? && routineId.Ok?)
      && (r.Ok? ==>
            var unit := ResolveExerciseWeightUnit(src.settings, src.equipment);
            var bounds := HistoryBounds(programId.value, routineId.value, range.value, filters.minReps, filters.maxReps,
                           if filters.minWeight.Some? then Some(toKg(filters.minWeight.value, unit)) else None,
                           if filters.maxWeight.Some? then Some(toKg(filters.maxWeight.value, unit)) else None);
            var kept := Filter(src.rows, (row: HistoryAggregateRow) => HistoryKept(row, bounds));
            && (filters.limit.Some? && filters.limit.value >= 0 ==> |r.value| == Min(filters.limit.value, |kept|))
            && (filters.limit.None? || filters.limit.value < 0 ==> |r.value| == |kept|)
            && forall i :: 0 <= i < |r.value| ==> r.value[i] == ToHistoryRow(kept[i], unit) && HistoryKept(kept[i], bounds))
  {
    var range := DateRange(DateFilterInput(filters.from, None, filters.to), dayStart);
    var programId := ResolveOptional(src.programs, filters.program);
    var routineId := ResolveOptional(src.routines, filters.routine);
    if range.Ok? && programId.Ok? && routineId.Ok? {
      var unit := ResolveExerciseWeightUnit(src.settings, src.equipment);
      var bounds := HistoryBounds(programId.value, routineId.value, range.value, filters.minReps, filters.maxReps,
                      if filters.minWeight.Some? then Some(toKg(filters.minWeight.value, unit)) else None,
                      if filters.maxWeight.Some? then Some(toKg(filters.maxWeight.value, unit)) else None);
      var kept := Filter(src.rows, (row: HistoryAggregateRow) => HistoryKept(row, bounds));
      var r := MapSeq(Take(kept, SqlLimit(filters.limit)), (row: HistoryAggregateRow) => ToHistoryRow(row, unit));
      assert ExerciseHistory(filters, src, toKg, dayStart) == Ok(r);
      TakeLimit(kept, filters.limit);
    }
  }

  /** A LIMIT keeps a prefix of the rows: all of them when it is absent or negative. */
  lemma TakeLimit<T>(s: seq<T>, limit: Option<int>)
    ensures var t := Take(s, SqlLimit(limit));
      && (limit.Some? && limit.value >= 0 ==> |t| == Min(limit.value, |s|))
      && (limit.None? || limit.value < 0 ==> |t| == |s|)
      && forall i :: 0 <= i < |t| ==> t[i] == s[i]
  {
  }

  /** Without filters the history cannot fail and holds every workout of the exercise. */
  lemma UnfilteredHistory(src: HistorySource, toKg: (real, UnitPreference) -> real, dayStart: LocalDate -> real)
    ensures var r := ExerciseHistory(NoHistoryFilters(None), src, toKg, dayStart);
      r.Ok? && |r.value| == |src.rows|
  {
    var bounds := HistoryBounds(None, None, AppleRange(None, None), None, None, None, None);
    var keep := (row: HistoryAggregateRow) => HistoryKept(row, bounds);
    FilterAll(src.rows, keep);
  }

  /** The filters of the latest-entry query: a limit and nothing else. */
  function NoHistoryFilters(limit: Option<int>): ExerciseHistoryFilters
  {
    ExerciseHistoryFilters(None, limit, None, None, None, None, None, None, None)
  }

  /** latestHistory[0]: the first history row, if any. */
  function LatestHistory(src: HistorySource, toKg: (real, UnitPreference) -> real,
                         dayStart: LocalDate -> real): (r: Option<ExerciseHistoryRow>)
    ensures r.None? <==> |src.rows| == 0
    ensures r.Some? ==> r.value == ToHistoryRow(src.rows[0], ResolveExerciseWeightUnit(src.settings, src.equipment))
  {
    UnfilteredHistory(src, toKg, dayStart);
    var history := ExerciseHistory(NoHistoryFilters(Some(1)), src, toKg, dayStart);
    LatestIsFirst(src, toKg, dayStart);
    if history.Ok? && |history.value| > 0 then Some(history.value[0]) else None
  }

  lemma LatestIsFirst(src: HistorySource, toKg: (real, UnitPreference) -> real, dayStart: LocalDate -> real)
    ensures var history := ExerciseHistory(NoHistoryFilters(Some(1)), src, toKg, dayStart);
      && history.Ok?
      && |history.value| == (if |src.rows| == 0 then 0 else 1)
      && (|src.rows| > 0 ==> history.value[0] == ToHistoryRow(src.rows[0], ResolveExerciseWeightUnit(src.settings, src.equipment)))
  {
    var bounds := HistoryBounds(None, None, AppleRange(None, None), None, None, None, None);
    var keep := (row: HistoryAggregateRow) => HistoryKept(row, bounds);
    FilterAll(src.rows, keep);
  }

  // ---------------------------------------------------------------------------
  // getExerciseDetail

  /** The exercise row with its equipment. */
  datatype ExerciseInfoRow = ExerciseInfoRow(
    id: int, name: Option<string>, isUserCreated: Option<int>,
    primaryMuscles: Option<string>, secondaryMuscles: Option<string>,
    defaultProgressMetric: Option<string>, perceptionScale: Option<string>,
    timerBased: Option<int>, supports1RM: Option<int>,
    equipment: Option<string>, equipmentId: Option<string>)

  datatype ExerciseDetail = ExerciseDetail(
    defaultProgressMetric: Option<string>, equipment: Option<string>, id: int,
    lastHistoryEntry: Option<ExerciseHistoryRow>, name: string, perceptionScale: Option<string>,
    primaryMuscles: Option<string>, recentRoutines: seq<string>, secondaryMuscles: Option<string>,
    supports1RM: bool, timerBased: bool, totalRoutines: nat, totalWorkouts: nat)

  /** What getExerciseDetail reads: the exercise row (if the id exists), the
      distinct names of the non-deleted routines using it in ascending order, the
      distinct-workout count and the history source. */
  datatype DetailSource = DetailSource(
    info: Option<ExerciseInfoRow>, routineNames: seq<Option<string>>, totalWorkouts: Option<nat>,
    history: HistorySource)

  /** The end index of Array.prototype.slice(0, end). */
  function SliceEnd(length: nat, end: int): (r: nat)
    ensures r <= length
    ensures end >= 0 ==> r == (if end <= length then end else length)
    ensures end < 0 ==> r == (if length + end >= 0 then length + end else 0)
  {
    if end >= 0 then (if end <= length then end else length)
    else if length + end >= 0 then length + end else 0
  }

  /** getExerciseDetail; historyLimit defaults to 3 and bounds the recent routines. */
  function ExerciseDetailOf(src: DetailSource, exerciseId: int, historyLimit: Option<int>,
                            equipmentName: (Option<string>, Option<string>) -> Option<string>,
                            muscleLabel: Option<string> -> Option<string>,
                            toKg: (real, UnitPreference) -> real, dayStart: LocalDate -> real): (r: Result<ExerciseDetail>)
    ensures r.Err? <==> src.info.None?
    ensures r.Err? ==> r.error == ExerciseNotFound(exerciseId)
    ensures r.Ok? ==>
      && r.value.totalRoutines == |src.routineNames|
      && r.value.totalWorkouts == src.totalWorkouts.GetOr(0)
      && |r.value.recentRoutines| == SliceEnd(|src.routineNames|, historyLimit.GetOr(3))
      && (forall i :: 0 <= i < |r.value.recentRoutines| ==> r.value.recentRoutines[i] == src.routineNames[i].GetOr("(unnamed)"))
      && (r.value.lastHistoryEntry.None? <==> |src.history.rows| == 0)
  {
    if src.info.None? then Err(ExerciseNotFound(exerciseId))
    else
      var row := src.info.value;
      var names := MapSeq(src.routineNames, (n: Option<string>) => n.GetOr("(unnamed)"));
      Ok(ExerciseDetail(row.defaultProgressMetric, equipmentName(row.equipment, row.equipmentId), row.id,
        LatestHistory(src.history, toKg, dayStart),
        FormatExerciseDisplayName(row.name, AsBool(row.isUserCreated)), row.perceptionScale,
        muscleLabel(row.primaryMuscles), names[..SliceEnd(|names|, historyLimit.GetOr(3))],
        muscleLabel(row.secondaryMuscles), AsBool(row.supports1RM), AsBool(row.timerBased),
        |src.routineNames|, src.totalWorkouts.GetOr(0)))
  }

  /** With the default limit at most three recent routines are shown, and all of
      them when there are no more than three. */
  lemma DefaultRecentRoutines(src: DetailSource, exerciseId: int,
                              equipmentName: (Option<string>, Option<string>) -> Option<string>,
                              muscleLabel: Option<string> -> Option<string>,
                              toKg: (real, UnitPreference) -> real, dayStart: LocalDate -> real)
    requires src.info.Some?
    ensures var d := ExerciseDetailOf(src, exerciseId, None, equipmentName, muscleLabel, toKg, dayStart).value;
      && |d.recentRoutines| <= 3
      && (|src.routineNames| <= 3 ==> |d.recentRoutines| == d.totalRoutines)
  {
  }

  // ---------------------------------------------------------------------------
  // getLastPerformedExerciseSnapshot

  datatype Snapshot = Snapshot(exercise: Workouts.WorkoutExerciseDetail, workout: Workouts.WorkoutDetail)

  /** The lookup needs each entry's exercise id (ei.Z_PK), which the detail query
      does not select. The corrected input carries that id beside each
      exercise-result row, in the same er.Z_PK order. */
  datatype IdentifiedResultRow = IdentifiedResultRow(exerciseId: Option<int>, row: Workouts.ExerciseResultRow)

  datatype IdentifiedQueries = IdentifiedQueries(
    workout: Option<Workouts.WorkoutRow>, exercises: seq<IdentifiedResultRow>, sets: seq<Workouts.SetResultRow>)

  /** The queries getWorkoutDetail itself runs: the same rows without the ids. */
  function PlainQueries(q: IdentifiedQueries): (r: Workouts.WorkoutQueries)
    ensures r.workout == q.workout && r.sets == q.sets && |r.exercises| == |q.exercises|
    ensures forall i :: 0 <= i < |q.exercises| ==> r.exercises[i] == q.exercises[i].row
  {
    Workouts.WorkoutQueries(q.workout, seq(|q.exercises|, i requires 0 <= i < |q.exercises| => q.exercises[i].row), q.sets)
  }

  /** The position `find` stops at: the first row carrying the exercise id. */
  function FindEntry(rows: seq<IdentifiedResultRow>, exerciseId: int): (r: Option<nat>)
    ensures r.Some? ==> r.value < |rows| && rows[r.value].exerciseId == Some(exerciseId)
    ensures r.Some? ==> forall m :: 0 <= m < r.value ==> rows[m].exerciseId != Some(exerciseId)
    ensures r.None? <==> forall i :: 0 <= i < |rows| ==> rows[i].exerciseId != Some(exerciseId)
  {
    if rows == [] then None
    else if rows[0].exerciseId == Some(exerciseId) then Some(0)
    else
      var rest := FindEntry(rows[1..], exerciseId);
      if rest.Some? then Some(rest.value + 1) else None
  }

  /** getLastPerformedExerciseSnapshot with entries that carry the exercise id:
      the latest history row's workout, read through getWorkoutDetail, and its
      first entry for the exercise. `queries` gives the queries of a workout id. */
  function LastPerformedSnapshot(src: HistorySource, exerciseId: int, queries: int -> IdentifiedQueries,
                                 toKg: (real, UnitPreference) -> real, dayStart: LocalDate -> real): Result<Option<Snapshot>>
  {
    var latest := LatestHistory(src, toKg, dayStart);
    if latest.None? then Ok(None)
    else
      var q := queries(latest.value.workoutId);
      var workout :- Workouts.WorkoutDetailOf(src.settings, PlainQueries(q), latest.value.workoutId);
      var found := FindEntry(q.exercises, exerciseId);
      if found.None? then Ok(None) else Ok(Some(Snapshot(workout.exercises[found.value], workout)))
  }

  /** No history gives null, and a missing latest workout gives its not-found
      error. Otherwise the snapshot exists exactly when the latest workout holds
      an entry for the exercise; the entry is the workout's first one for the
      exercise and the workout is the latest history row's workout. */
  lemma SnapshotIsLatestEntry(src: HistorySource, exerciseId: int, queries: int -> IdentifiedQueries,
                              toKg: (real, UnitPreference) -> real, dayStart: LocalDate -> real)
    ensures |src.rows| == 0 ==> LastPerformedSnapshot(src, exerciseId, queries, toKg, dayStart) == Ok(None)
    ensures |src.rows| > 0 && queries(src.rows[0].workoutId).workout.None? ==>
      LastPerformedSnapshot(src, exerciseId, queries, toKg, dayStart) == Err(WorkoutNotFound(src.rows[0].workoutId))
    ensures |src.rows| > 0 && queries(src.rows[0].workoutId).workout.Some? ==>
      var r := LastPerformedSnapshot(src, exerciseId, queries, toKg, dayStart);
      var workoutId := src.rows[0].workoutId;
      var q := queries(workoutId);
      var detail := Workouts.WorkoutDetailOf(src.settings, PlainQueries(q), workoutId).value;
      && r.Ok?
      && (r.value.Some? <==> exists i :: 0 <= i < |q.exercises| && q.exercises[i].exerciseId == Some(exerciseId))
      && (r.value.Some? ==> r.value.value.workout == detail)
      && (r.value.Some? ==>
            exists i :: 0 <= i < |q.exercises| && q.exercises[i].exerciseId == Some(exerciseId)
                        && r.value.value.exercise == detail.exercises[i]
                        && forall m :: 0 <= m < i ==> q.exercises[m].exerciseId != Some(exerciseId))
  {
  }

  /** The snapshot as the source builds it: getWorkoutDetail's entries have no
      exerciseId, so the lookup compares `undefined` with the id. */
  function EntryExerciseIdAsWritten(entry: Workouts.WorkoutExerciseDetail): Option<int>
  {
    None
  }

  function FindEntryAsWritten(entries: seq<Workouts.WorkoutExerciseDetail>, exerciseId: int): Option<Workouts.WorkoutExerciseDetail>
  {
    if entries == [] then None
    else if EntryExerciseIdAsWritten(entries[0]) == Some(exerciseId) then Some(entries[0])
    else FindEntryAsWritten(entries[1..], exerciseId)
  }

  function LastPerformedSnapshotAsWritten(src: HistorySource, exerciseId: int, queries: int -> Workouts.WorkoutQueries,
                                          toKg: (real, UnitPreference) -> real, dayStart: LocalDate -> real): Result<Option<Snapshot>>
  {
    var latest := LatestHistory(src, toKg, dayStart);
    if latest.None? then Ok(None)
    else
      var workout :- Workouts.WorkoutDetailOf(src.settings, queries(latest.value.workoutId), latest.value.workoutId);
      var exercise := FindEntryAsWritten(workout.exercises, exerciseId);
      if exercise.None? then Ok(None) else Ok(Some(Snapshot(exercise.value, workout)))
  }

  lemma {:induction false} FindAsWrittenNeverMatches(entries: seq<Workouts.WorkoutExerciseDetail>, exerciseId: int)
    ensures FindEntryAsWritten(entries, exerciseId) == None
  {
    if entries != [] {
      FindAsWrittenNeverMatches(entries[1..], exerciseId);
    }
  }

  /** As written, the snapshot is never found: every call yields null or the
      workout-not-found error. */
  lemma SnapshotAsWrittenIsNeverFound(src: HistorySource, exerciseId: int, queries: int -> Workouts.WorkoutQueries,
                                      toKg: (real, UnitPreference) -> real, dayStart: LocalDate -> real)
    ensures var r := LastPerformedSnapshotAsWritten(src, exerciseId, queries, toKg, dayStart);
      r.Ok? ==> r.value.None?
  {
    var latest := LatestHistory(src, toKg, dayStart);
    if latest.Some? {
      var id := latest.value.workoutId;
      var detail := Workouts.WorkoutDetailOf(src.settings, queries(id), id);
      if detail.Ok? {
        FindAsWrittenNeverMatches(detail.value.exercises, exerciseId);
      }
    }
  }

  /** A concrete input on which the two differ: exercise 5 was last performed in
      workout 7, whose only entry is exercise 5. The source reads the same
      queries without the id column. */
  lemma SnapshotCounterexample()
    ensures var src := HistorySource(None, None, [], [],
                         [HistoryAggregateRow(7, None, None, None, None, None, None, 1, 0, None, None, 0.0)]);
      var q := IdentifiedQueries(Some(Workouts.WorkoutRow(7, None, None, None, None, None, None, None)),
                                 [IdentifiedResultRow(Some(5), Workouts.ExerciseResultRow(1, None, None))], []);
      var toKg := (w: real, u: UnitPreference) => w;
      var dayStart := (d: LocalDate) => 0.0;
      && LastPerformedSnapshot(src, 5, (id: int) => q, toKg, dayStart).Ok?
      && LastPerformedSnapshot(src, 5, (id: int) => q, toKg, dayStart).value.Some?
      && LastPerformedSnapshotAsWritten(src, 5, (id: int) => PlainQueries(q), toKg, dayStart) == Ok(None)
  {
    var src := HistorySource(None, None, [], [],
                 [HistoryAggregateRow(7, None, None, None, None, None, None, 1, 0, None, None, 0.0)]);
    var q := IdentifiedQueries(Some(Workouts.WorkoutRow(7, None, None, None, None, None, None, None)),
                               [IdentifiedResultRow(Some(5), Workouts.ExerciseResultRow(1, None, None))], []);
    var toKg := (w: real, u: UnitPreference) => w;
    var dayStart := (d: LocalDate) => 0.0;
    SnapshotIsLatestEntry(src, 5, (id: int) => q, toKg, dayStart);
    assert q.exercises[0].exerciseId == Some(5);
    SnapshotAsWrittenIsNeverFound(src, 5, (id: int) => PlainQueries(q), toKg, dayStart);
  }
}
