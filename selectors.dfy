/** Generic id-or-name selector resolution over one table (src/lib/repositories/selectors.ts). */
module Selectors {
  import opened Strings
  import opened Base

  /** /^\d+$/: one or more ASCII digits. */
  predicate IsNumeric(value: string)
  {
    |value| >= 1 && AllDigits(value)
  }

  /** The Z_PK and ZNAME columns of one row of the looked-up table. */
  datatype NamedRow = NamedRow(id: int, name: Option<string>)

  /** asIdName: a null name is listed as "(unnamed)". */
  function AsIdName(rows: seq<NamedRow>): (r: seq<IdName>)
    ensures |r| == |rows|
    ensures forall i :: 0 <= i < |rows| ==>
      r[i] == IdName(rows[i].id, if rows[i].name.Some? then rows[i].name.value else "(unnamed)")
  {
    seq(|rows|, i requires 0 <= i < |rows| => IdName(rows[i].id, rows[i].name.GetOr("(unnamed)")))
  }

  /** lower(ZNAME) = lower(selector); a null name never matches. */
  predicate ExactMatch(row: NamedRow, selector: string)
  {
    row.name.Some? && Lower(row.name.value) == Lower(selector)
  }

  /** lower(ZNAME) LIKE '%' || lower(selector) || '%', read as substring containment. */
  predicate PartialMatch(row: NamedRow, selector: string)
  {
    row.name.Some? && Contains(Lower(row.name.value), Lower(selector))
  }

  function ExactRows(rows: seq<NamedRow>, selector: string): seq<NamedRow>
  {
    Filter(rows, row => ExactMatch(row, selector))
  }

  function PartialRows(rows: seq<NamedRow>, selector: string): seq<NamedRow>
  {
    Filter(rows, row => PartialMatch(row, selector))
  }

  /** resolveIdOrName: digits are an id without lookup; otherwise the exact tier,
      and only when it is empty the substring tier; one match is its id, several
      are ambiguous, none is not found. */
  function ResolveIdOrName(rows: seq<NamedRow>, selector: string): (r: Result<int>)
    ensures IsNumeric(selector) ==> r == Ok(DigitsValue(selector))
    ensures !IsNumeric(selector) && |ExactRows(rows, selector)| == 1 ==>
      r == Ok(ExactRows(rows, selector)[0].id)
    ensures !IsNumeric(selector) && |ExactRows(rows, selector)| > 1 ==>
      r == Err(AmbiguousSelector(selector, AsIdName(ExactRows(rows, selector))))
    ensures !IsNumeric(selector) && |ExactRows(rows, selector)| == 0 && |PartialRows(rows, selector)| == 1 ==>
      r == Ok(PartialRows(rows, selector)[0].id)
    ensures !IsNumeric(selector) && |ExactRows(rows, selector)| == 0 && |PartialRows(rows, selector)| > 1 ==>
      r == Err(AmbiguousSelector(selector, AsIdName(PartialRows(rows, selector))))
    ensures r == Err(NoRecordsForSelector(selector)) <==>
      !IsNumeric(selector) && |ExactRows(rows, selector)| == 0 && |PartialRows(rows, selector)| == 0
  {
    if IsNumeric(selector) then Ok(DigitsValue(selector))
    else
      var exact := ExactRows(rows, selector);
      if |exact| == 1 then Ok(exact[0].id)
      else if |exact| > 1 then Err(AmbiguousSelector(selector, AsIdName(exact)))
      else
        var partial := PartialRows(rows, selector);
        if |partial| == 1 then Ok(partial[0].id)
        else if |partial| > 1 then Err(AmbiguousSelector(selector, AsIdName(partial)))
        else Err(NoRecordsForSelector(selector))
  }

  /** An optional selector flag: absent or empty means no filter, otherwise the
      resolved id. */
  function ResolveOptional(rows: seq<NamedRow>, selector: Option<string>): (r: Result<Option<int>>)
    ensures (selector.None? || selector == Some("")) ==> r == Ok(None)
    ensures selector.Some? && selector.value != "" && ResolveIdOrName(rows, selector.value).Ok? ==>
      r == Ok(Some(ResolveIdOrName(rows, selector.value).value))
    ensures selector.Some? && selector.value != "" && ResolveIdOrName(rows, selector.value).Err? ==>
      r == Err(ResolveIdOrName(rows, selector.value).error)
  {
    if selector.None? || selector.value == "" then Ok(None)
    else
      var id :- ResolveIdOrName(rows, selector.value);
      Ok(Some(id))
  }

  // ---------------------------------------------------------------------------
  // Properties

  /** On the name path a resolved id is the id of a row that matches the selector,
      exactly or as a substring. */
  lemma ResolvedIdIsCandidate(rows: seq<NamedRow>, selector: string)
    requires !IsNumeric(selector) && ResolveIdOrName(rows, selector).Ok?
    ensures exists row :: (row in rows && row.id == ResolveIdOrName(rows, selector).value &&
                           (ExactMatch(row, selector) || PartialMatch(row, selector)))
  {
    var exact := ExactRows(rows, selector);
    if |exact| == 1 {
      assert exact[0] in exact;
    } else {
      var partial := PartialRows(rows, selector);
      assert partial[0] in partial;
    }
  }

  /** An exact match is also a substring match, so when the exact tier is
      ambiguous every listed candidate would have matched the substring tier too. */
  lemma ExactImpliesPartial(row: NamedRow, selector: string)
    requires ExactMatch(row, selector)
    ensures PartialMatch(row, selector)
  {
    ContainsSelf(Lower(selector));
  }

  /** A unique exact match wins even when other rows contain the selector. */
  lemma UniqueExactWins(rows: seq<NamedRow>, selector: string, id: int)
    requires !IsNumeric(selector)
    requires |ExactRows(rows, selector)| == 1 && ExactRows(rows, selector)[0].id == id
    ensures ResolveIdOrName(rows, selector) == Ok(id)
  {
  }

  /** Every ambiguity error lists each candidate row of its tier, as `id:name`. */
  lemma AmbiguityListsCandidates(rows: seq<NamedRow>, selector: string)
    requires ResolveIdOrName(rows, selector).Err? && ResolveIdOrName(rows, selector).error.AmbiguousSelector?
    ensures var cs := ResolveIdOrName(rows, selector).error.candidates;
      var tier := if |ExactRows(rows, selector)| > 1 then ExactRows(rows, selector) else PartialRows(rows, selector);
      && |cs| == |tier| > 1
      && forall i :: 0 <= i < |tier| ==> cs[i].id == tier[i].id
  {
  }
}
