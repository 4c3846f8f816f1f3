/** Weight-unit preference and kg-to-display conversion (src/lib/units.ts).
    Weights are reals; the store keeps kilograms. */
module Units {
  import opened Strings
  import opened Base

  datatype UnitPreference = Imperial | Metric | Unknown

  /** KG_TO_LB_MULTIPLIER, 2.2. */
  const KgToLbMultiplier: real := 2.2

  /** The lower-cased, trimmed token the matching rules look at. */
  function UnitToken(value: string): string
  {
    Lower(Trim(value))
  }

  predicate IsImperialToken(t: string)
  {
    Contains(t, "imperial") || t == "lbs" || t == "lb"
  }

  predicate IsMetricToken(t: string)
  {
    Contains(t, "metric") || t == "kg"
  }

  /** normalizeUnitPreference: null or "" is unknown; after trimming and lower-casing,
      the imperial words are tested before the metric ones. */
  function NormalizeUnitPreference(value: Option<string>): (r: UnitPreference)
    ensures (value == None || value == Some("")) ==> r == Unknown
    ensures value.Some? && value.value != "" ==>
      (r == Imperial <==> IsImperialToken(UnitToken(value.value)))
    ensures value.Some? && value.value != "" ==>
      (r == Metric <==> !IsImperialToken(UnitToken(value.value)) && IsMetricToken(UnitToken(value.value)))
  {
    if value.None? || value.value == "" then Unknown
    else
      var t := UnitToken(value.value);
      if IsImperialToken(t) then Imperial
      else if IsMetricToken(t) then Metric
      else Unknown
  }

  /** Number(x.toFixed(2)) on an exact real: the nearest hundredth, halves rounded
      away from zero. */
  function Round2(x: real): (r: real)
  {
    if x < 0.0 then -((-x * 100.0 + 0.5).Floor as real) / 100.0
    else (x * 100.0 + 0.5).Floor as real / 100.0
  }

  /** Rounding half up to a whole number moves a value by at most one half. */
  lemma FloorHalfClose(y: real)
    ensures -0.5 < (y + 0.5).Floor as real - y <= 0.5
  {
  }

  /** Rounding a non-negative value lands on the hundredth nearest to it. */
  lemma Round2ClosePositive(x: real, n: int)
    requires x >= 0.0 && n == (x * 100.0 + 0.5).Floor
    ensures Round2(x) == n as real / 100.0 && Round2(x) * 100.0 == n as real
    ensures -0.005 < Round2(x) - x <= 0.005 && Round2(x) >= 0.0
  {
    var y := x * 100.0;
    FloorHalfClose(y);
    assert -0.5 < n as real - y <= 0.5;
    assert Round2(x) - x == (n as real - y) / 100.0;
  }

  /** Rounding a negative value lands on the hundredth nearest to it. */
  lemma Round2CloseNegative(x: real, n: int)
    requires x < 0.0 && n == (-x * 100.0 + 0.5).Floor
    ensures Round2(x) == -(n as real) / 100.0 && Round2(x) * 100.0 == (-n) as real
    ensures -0.005 <= Round2(x) - x < 0.005
  {
    var y := -x * 100.0;
    FloorHalfClose(y);
    assert -0.5 < n as real - y <= 0.5;
    assert Round2(x) - x == (y - n as real) / 100.0;
  }

  lemma FloorOfWhole(k: int)
    ensures (k as real).Floor == k
  {
  }

  /** The rounded value is a whole number of hundredths within half a hundredth of x. */
  lemma Round2Close(x: real)
    ensures (Round2(x) * 100.0).Floor as real == Round2(x) * 100.0
    ensures x >= 0.0 ==> -0.005 < Round2(x) - x <= 0.005 && Round2(x) >= 0.0
    ensures x < 0.0 ==> -0.005 <= Round2(x) - x < 0.005
  {
    if x < 0.0 {
      var n := (-x * 100.0 + 0.5).Floor;
      Round2CloseNegative(x, n);
      FloorOfWhole(-n);
    } else {
      var n := (x * 100.0 + 0.5).Floor;
      Round2ClosePositive(x, n);
      FloorOfWhole(n);
    }
  }

  /** A value already in hundredths is left alone. */
  lemma Round2OfHundredths(n: int)
    ensures Round2(n as real / 100.0) == n as real / 100.0
  {
    var x := n as real / 100.0;
    if x < 0.0 {
      assert -x * 100.0 + 0.5 == (-n) as real + 0.5;
      assert (-x * 100.0 + 0.5).Floor == -n;
    } else {
      assert x * 100.0 + 0.5 == n as real + 0.5;
      assert (x * 100.0 + 0.5).Floor == n;
    }
  }

  function KgToDisplay(value: real, unit: UnitPreference): (r: real)
  {
    if unit != Imperial then value else Round2(value * KgToLbMultiplier)
  }

  /** convertKgToDisplayWeight. */
  function ConvertKgToDisplayWeight(weight: Option<real>, unit: UnitPreference): (r: Option<real>)
    ensures weight.None? <==> r.None?
    ensures weight.Some? && unit != Imperial ==> r == weight
    ensures weight.Some? && unit == Imperial ==> r == Some(Round2(weight.value * 2.2))
  {
    if weight.None? then None else Some(KgToDisplay(weight.value, unit))
  }

  /** convertKgToDisplayVolume: the same rule as for weights. */
  function ConvertKgToDisplayVolume(volume: Option<real>, unit: UnitPreference): (r: Option<real>)
    ensures volume.None? <==> r.None?
    ensures volume.Some? && unit != Imperial ==> r == volume
    ensures volume.Some? && unit == Imperial ==> r == Some(Round2(volume.value * 2.2))
  {
    if volume.None? then None else Some(KgToDisplay(volume.value, unit))
  }

  /** An imperial display value is within half a hundredth of 2.2 times the kilograms. */
  lemma ImperialWeightClose(kg: real)
    ensures var lb := ConvertKgToDisplayWeight(Some(kg), Imperial).value;
      -0.005 <= lb - kg * 2.2 <= 0.005
  {
    Round2Close(kg * 2.2);
  }

  /** The first settings row, if the table has one, with its unit column. */
  datatype SettingsRow = SettingsRow(unit: Option<string>)

  /** resolveGlobalWeightUnit: settings?.unit ?? null, normalised. */
  function ResolveGlobalWeightUnit(settings: Option<SettingsRow>): (r: UnitPreference)
    ensures settings.None? ==> r == Unknown
    ensures settings.Some? ==> r == NormalizeUnitPreference(settings.value.unit)
  {
    NormalizeUnitPreference(if settings.Some? then settings.value.unit else None)
  }

  /** One row of the routine/period/exercise/equipment join that the program query reads. */
  datatype EquipmentUnitRow = EquipmentUnitRow(
    periodPlan: Option<int>,
    routinePlan: Option<int>,
    routineSoftDeleted: Option<int>,
    unit: Option<string>)

  /** The WHERE clause of the program-equipment query. */
  predicate ProgramEquipmentRow(row: EquipmentUnitRow, programId: int)
  {
    && (row.periodPlan == Some(programId) || row.routinePlan == Some(programId))
    && row.routineSoftDeleted != Some(1)
    && row.unit.Some?
  }

  /** The set of normalised units of the program's equipment. */
  function ProgramEquipmentUnits(rows: seq<EquipmentUnitRow>, programId: int): set<UnitPreference>
  {
    set row | row in rows && ProgramEquipmentRow(row, programId) :: NormalizeUnitPreference(row.unit)
  }

  /** resolveProgramWeightUnit: a known settings unit wins; otherwise any imperial
      equipment, else any metric equipment, else unknown. */
  function ResolveProgramWeightUnit(settings: Option<SettingsRow>, rows: seq<EquipmentUnitRow>, programId: int): (r: UnitPreference)
    ensures ResolveGlobalWeightUnit(settings) != Unknown ==> r == ResolveGlobalWeightUnit(settings)
    ensures ResolveGlobalWeightUnit(settings) == Unknown ==>
      (r == Imperial <==> exists row | row in rows :: ProgramEquipmentRow(row, programId) && NormalizeUnitPreference(row.unit) == Imperial)
    ensures ResolveGlobalWeightUnit(settings) == Unknown ==>
      (r == Metric <==>
        (forall row | row in rows && ProgramEquipmentRow(row, programId) :: NormalizeUnitPreference(row.unit) != Imperial)
        && exists row | row in rows :: ProgramEquipmentRow(row, programId) && NormalizeUnitPreference(row.unit) == Metric)
  {
    var settingsUnit := ResolveGlobalWeightUnit(settings);
    if settingsUnit != Unknown then settingsUnit
    else
      var normalized := ProgramEquipmentUnits(rows, programId);
      if Imperial in normalized then Imperial
      else if Metric in normalized then Metric
      else Unknown
  }

  /** The equipment row of one exercise, if the exercise row exists. */
  datatype ExerciseEquipmentRow = ExerciseEquipmentRow(unit: Option<string>)

  /** resolveExerciseWeightUnit: a known settings unit wins; otherwise the
      normalisation of the exercise's equipment unit, or of null. */
  function ResolveExerciseWeightUnit(settings: Option<SettingsRow>, row: Option<ExerciseEquipmentRow>): (r: UnitPreference)
    ensures ResolveGlobalWeightUnit(settings) != Unknown ==> r == ResolveGlobalWeightUnit(settings)
    ensures ResolveGlobalWeightUnit(settings) == Unknown && row.None? ==> r == Unknown
    ensures ResolveGlobalWeightUnit(settings) == Unknown && row.Some? ==> r == NormalizeUnitPreference(row.value.unit)
  {
    var settingsUnit := ResolveGlobalWeightUnit(settings);
    if settingsUnit != Unknown then settingsUnit
    else NormalizeUnitPreference(if row.Some? then row.value.unit else None)
  }

  // ---------------------------------------------------------------------------
  // Properties

  /** A token that names both systems is imperial, because imperial is tested first. */
  lemma ImperialWinsOverMetric(value: string)
    requires value != ""
    requires Contains(UnitToken(value), "imperial") && Contains(UnitToken(value), "metric")
    ensures NormalizeUnitPreference(Some(value)) == Imperial
  {
  }

  /** A value made only of whitespace is unknown: nothing is left to match. */
  lemma WhitespaceOnlyIsUnknown(value: string)
    requires value != "" && Trim(value) == ""
    ensures NormalizeUnitPreference(Some(value)) == Unknown
  {
    assert UnitToken(value) == "";
  }

  /** The program unit is always one of the equipment units when no settings unit is known. */
  lemma ProgramUnitFromEquipment(settings: Option<SettingsRow>, rows: seq<EquipmentUnitRow>, programId: int)
    requires ResolveGlobalWeightUnit(settings) == Unknown
    ensures var r := ResolveProgramWeightUnit(settings, rows, programId);
      r == Unknown || exists row | row in rows :: ProgramEquipmentRow(row, programId) && NormalizeUnitPreference(row.unit) == r
  {
  }
}
