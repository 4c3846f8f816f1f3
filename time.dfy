/** Conversions between the store's reference-date seconds and calendar dates
    (src/lib/time.ts). The store counts seconds from 2001-01-01T00:00:00Z. */
module Time {
  import opened Strings
  import opened Base

  /** APPLE_EPOCH_UNIX_OFFSET_SECONDS: seconds from 1970-01-01 to 2001-01-01 (UTC). */
  const AppleEpochUnixOffsetSeconds: real := 978307200.0

  /** An ISO instant, kept opaque: only the unix milliseconds it denotes. */
  datatype Iso = Iso(unixMillis: real)

  /** appleSecondsToIso: null stays null; otherwise the instant
      (value + offset) * 1000 unix milliseconds. */
  function AppleSecondsToIso(value: Option<real>): (r: Option<Iso>)
    ensures value.None? <==> r.None?
    ensures value.Some? ==> r.value.unixMillis == (value.value + AppleEpochUnixOffsetSeconds) * 1000.0
  {
    if value.None? then None else Some(Iso((value.value + AppleEpochUnixOffsetSeconds) * 1000.0))
  }

  /** dateToAppleSeconds over a date's unix milliseconds. */
  function DateToAppleSeconds(unixMillis: real): real
  {
    unixMillis / 1000.0 - AppleEpochUnixOffsetSeconds
  }

  /** The two conversions are inverse to each other. */
  lemma AppleSecondsRoundTrip(value: real, unixMillis: real)
    ensures DateToAppleSeconds(AppleSecondsToIso(Some(value)).value.unixMillis) == value
    ensures AppleSecondsToIso(Some(DateToAppleSeconds(unixMillis))) == Some(Iso(unixMillis))
  {
  }

  /** A later instant has more reference seconds. */
  lemma DateToAppleSecondsMonotonic(a: real, b: real)
    ensures a <= b <==> DateToAppleSeconds(a) <= DateToAppleSeconds(b)
  {
  }

  /** The three numbers of a YYYY-MM-DD text, as written (ranges unchecked). */
  datatype LocalDate = LocalDate(year: nat, month: nat, day: nat)

  /** The shape /^(\d{4})-(\d{2})-(\d{2})$/. */
  predicate DateShape(value: string)
  {
    && |value| == 10
    && AllDigits(value[..4]) && value[4] == '-'
    && AllDigits(value[5..7]) && value[7] == '-'
    && AllDigits(value[8..])
  }

  /** parseLocalDate up to the Date constructor: the shape check and the numbers. */
  function ParseLocalDate(value: string): (r: Result<LocalDate>)
    ensures r.Ok? <==> DateShape(value)
    ensures r.Err? ==> r.error == InvalidDateFormat(value)
    ensures r.Ok? ==> r.value == LocalDate(DigitsValue(value[..4]), DigitsValue(value[5..7]), DigitsValue(value[8..]))
  {
    if DateShape(value) then
      Ok(LocalDate(DigitsValue(value[..4]), DigitsValue(value[5..7]), DigitsValue(value[8..])))
    else
      Err(InvalidDateFormat(value))
  }

  /** setHours(23, 59, 59, 999) on a local midnight: the last millisecond of that day. */
  const EndOfDayMillis: real := 86399999.0

  /** The flags --from, --on and --to, as given (an empty text counts as absent). */
  datatype DateFilterInput = DateFilterInput(from: Option<string>, on: Option<string>, to: Option<string>)

  /** A flag is used when it is present and non-empty. */
  predicate Given(flag: Option<string>)
  {
    flag.Some? && flag.value != ""
  }

  /** The bounds in reference seconds. */
  datatype AppleRange = AppleRange(from: Option<real>, to: Option<real>)

  /** dateRangeToAppleSeconds. `dayStart` gives the unix milliseconds of local
      midnight of a date (the Date constructor with the local time zone). */
  function DateRange(input: DateFilterInput, dayStart: LocalDate -> real): Result<AppleRange>
  {
    if Given(input.on) then
      var date :- ParseLocalDate(input.on.value);
      var start := dayStart(date);
      Ok(AppleRange(Some(DateToAppleSeconds(start)), Some(DateToAppleSeconds(start + EndOfDayMillis))))
    else
      var from :- if Given(input.from) then
          var d :- ParseLocalDate(input.from.value); Ok(Some(DateToAppleSeconds(dayStart(d))))
        else Ok(None);
      var to :- if Given(input.to) then
          var d :- ParseLocalDate(input.to.value); Ok(Some(DateToAppleSeconds(dayStart(d) + EndOfDayMillis)))
        else Ok(None);
      if from.Some? && to.Some? && from.value > to.value then Err(InvalidDateRange)
      else Ok(AppleRange(from, to))
  }

  /** The same result, built the way the source fills its output object. */
  method DateRangeToAppleSeconds(input: DateFilterInput, dayStart: LocalDate -> real) returns (r: Result<AppleRange>)
    ensures r == DateRange(input, dayStart)
  {
    if Given(input.on) {
      var start :- ParseLocalDate(input.on.value);
      var startMillis := dayStart(start);
      var endMillis := startMillis + EndOfDayMillis;
      return Ok(AppleRange(Some(DateToAppleSeconds(startMillis)), Some(DateToAppleSeconds(endMillis))));
    }
    var output := AppleRange(None, None);
    if Given(input.from) {
      var start :- ParseLocalDate(input.from.value);
      output := output.(from := Some(DateToAppleSeconds(dayStart(start))));
    }
    if Given(input.to) {
      var end :- ParseLocalDate(input.to.value);
      var endMillis := dayStart(end) + EndOfDayMillis;
      output := output.(to := Some(DateToAppleSeconds(endMillis)));
    }
    if output.from.Some? && output.to.Some? && output.from.value > output.to.value {
      return Err(InvalidDateRange);
    }
    return Ok(output);
  }

  // ---------------------------------------------------------------------------
  // Properties

  /** With --on, --from and --to are ignored; a well-formed day gives its first and
      last millisecond, so the range is never inverted. */
  lemma OnOverridesFromTo(input: DateFilterInput, dayStart: LocalDate -> real)
    requires Given(input.on)
    ensures DateRange(input, dayStart) == DateRange(DateFilterInput(None, input.on, None), dayStart)
    ensures var p := ParseLocalDate(input.on.value);
      && (p.Err? ==> DateRange(input, dayStart) == Err(InvalidDateFormat(input.on.value)))
      && (p.Ok? ==> DateRange(input, dayStart) == Ok(AppleRange(
            Some(DateToAppleSeconds(dayStart(p.value))),
            Some(DateToAppleSeconds(dayStart(p.value)) + 86399.999))))
  {
  }

  /** With only --from or only --to, exactly that bound is set. */
  lemma SingleBound(input: DateFilterInput, dayStart: LocalDate -> real)
    requires !Given(input.on)
    ensures Given(input.from) && !Given(input.to) && DateShape(input.from.value) ==>
      DateRange(input, dayStart) == Ok(AppleRange(Some(DateToAppleSeconds(dayStart(ParseLocalDate(input.from.value).value))), None))
    ensures !Given(input.from) && Given(input.to) && DateShape(input.to.value) ==>
      DateRange(input, dayStart) == Ok(AppleRange(None, Some(DateToAppleSeconds(dayStart(ParseLocalDate(input.to.value).value) + EndOfDayMillis))))
    ensures !Given(input.from) && !Given(input.to) ==> DateRange(input, dayStart) == Ok(AppleRange(None, None))
  {
  }

  /** The range error is raised exactly when, without --on, both bounds parse and
      the start of the --from day is after the end of the --to day. */
  lemma RangeErrorExactly(input: DateFilterInput, dayStart: LocalDate -> real)
    ensures DateRange(input, dayStart) == Err(InvalidDateRange) <==>
      && !Given(input.on) && Given(input.from) && Given(input.to)
      && DateShape(input.from.value) && DateShape(input.to.value)
      && dayStart(ParseLocalDate(input.from.value).value)
         > dayStart(ParseLocalDate(input.to.value).value) + EndOfDayMillis
  {
    if !Given(input.on) && Given(input.from) && Given(input.to)
      && DateShape(input.from.value) && DateShape(input.to.value)
    {
      var a := dayStart(ParseLocalDate(input.from.value).value);
      var b := dayStart(ParseLocalDate(input.to.value).value) + EndOfDayMillis;
      DateToAppleSecondsMonotonic(a, b);
    }
  }

  /** --from and --to naming the same day never raise the range error. */
  lemma SameDayIsValid(input: DateFilterInput, dayStart: LocalDate -> real)
    requires !Given(input.on) && Given(input.from) && input.to == input.from
    requires DateShape(input.from.value)
    ensures DateRange(input, dayStart).Ok?
  {
    RangeErrorExactly(input, dayStart);
  }

  /** A successful range never has its start after its end. */
  lemma RangeNeverInverted(input: DateFilterInput, dayStart: LocalDate -> real)
    ensures var r := DateRange(input, dayStart);
      r.Ok? && r.value.from.Some? && r.value.to.Some? ==> r.value.from.value <= r.value.to.value
  {
  }
}
