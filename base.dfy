/** Optional values, results and the error values the core raises, with the
    messages the command line prints for them. */
module Base {
  import opened Strings

  /** A nullable column or an omitted field. */
  datatype Option<+T> = None | Some(value: T) {
    function GetOr(default: T): T {
      match this
      case Some(v) => v
      case None => default
    }
  }

  /** Array.prototype.filter: the elements that satisfy `keep`, in their order. */
  function Filter<T>(s: seq<T>, keep: T -> bool): (r: seq<T>)
    ensures |r| <= |s|
    ensures forall i :: 0 <= i < |r| ==> r[i] in s && keep(r[i])
    ensures forall i :: 0 <= i < |s| && keep(s[i]) ==> s[i] in r
  {
    if s == [] then []
    else (if keep(s[0]) then [s[0]] else []) + Filter(s[1..], keep)
  }

  /** asBool: an integer flag column is true only when it stores 1. */
  function AsBool(value: Option<int>): bool
  {
    value == Some(1)
  }

  /** Filtering a sequence extended by one element. */
  lemma FilterSnoc<T>(s: seq<T>, x: T, keep: T -> bool)
    ensures Filter(s + [x], keep) == Filter(s, keep) + (if keep(x) then [x] else [])
  {
    if s == [] {
      assert s + [x] == [x];
    } else {
      assert (s + [x])[1..] == s[1..] + [x];
      FilterSnoc(s[1..], x, keep);
    }
  }

  /** Mapping distributes over concatenation. */
  lemma MapSeqConcat<A, B>(a: seq<A>, b: seq<A>, f: A -> B)
    ensures MapSeq(a + b, f) == MapSeq(a, f) + MapSeq(b, f)
  {
    var l, r := MapSeq(a + b, f), MapSeq(a, f) + MapSeq(b, f);
    forall i | 0 <= i < |l| ensures l[i] == r[i] {
      if i < |a| {
        assert (a + b)[i] == a[i];
      } else {
        assert (a + b)[i] == b[i - |a|];
      }
    }
  }

  /** A non-empty sequence is its front followed by its last element. */
  lemma SnocSplit<T>(s: seq<T>)
    requires s != []
    ensures s == s[..|s| - 1] + [s[|s| - 1]]
  {
  }

  /** Mapping the kept elements of a sequence extended by one element. */
  lemma MapFilterSnoc<A, B>(s: seq<A>, x: A, keep: A -> bool, f: A -> B)
    ensures MapSeq(Filter(s + [x], keep), f) == MapSeq(Filter(s, keep), f) + (if keep(x) then [f(x)] else [])
  {
    FilterSnoc(s, x, keep);
    MapSeqConcat(Filter(s, keep), if keep(x) then [x] else [], f);
    if keep(x) {
      assert MapSeq([x], f) == [f(x)];
    } else {
      assert MapSeq([], f) == [];
    }
  }

  /** Filtering keeps nothing when no element is kept. */
  lemma {:induction false} FilterNone<T>(s: seq<T>, keep: T -> bool)
    requires forall i :: 0 <= i < |s| ==> !keep(s[i])
    ensures Filter(s, keep) == []
  {
    if s != [] {
      assert !keep(s[0]);
      FilterNone(s[1..], keep);
    }
  }

  /** Filtering keeps everything when every element is kept. */
  lemma {:induction false} FilterAll<T>(s: seq<T>, keep: T -> bool)
    requires forall i :: 0 <= i < |s| ==> keep(s[i])
    ensures Filter(s, keep) == s
  {
    if s != [] {
      assert keep(s[0]);
      FilterAll(s[1..], keep);
      assert s == [s[0]] + s[1..];
    }
  }

  /** Array.prototype.map. */
  function MapSeq<A, B>(s: seq<A>, f: A -> B): (r: seq<B>)
    ensures |r| == |s|
    ensures forall i :: 0 <= i < |s| ==> r[i] == f(s[i])
  {
    seq(|s|, i requires 0 <= i < |s| => f(s[i]))
  }

  /** Array.prototype.flat over one level: the lists one after another. */
  function Flatten<T>(ss: seq<seq<T>>): seq<T>
  {
    if ss == [] then [] else ss[0] + Flatten(ss[1..])
  }

  /** The summed lengths of a list of lists. */
  function TotalLength<T>(ss: seq<seq<T>>): nat
  {
    if ss == [] then 0 else |ss[0]| + TotalLength(ss[1..])
  }

  lemma {:induction false} FlattenLength<T>(ss: seq<seq<T>>)
    ensures |Flatten(ss)| == TotalLength(ss)
  {
    if ss != [] {
      FlattenLength(ss[1..]);
    }
  }

  /** Map.get(k) ?? []: the list stored under a key, or an empty one. */
  function MapGet<K, V>(m: map<K, seq<V>>, k: K): seq<V>
  {
    if k in m then m[k] else []
  }

  /** SQL LIMIT: the first `limit` elements, or all of them when there is no limit. */
  function Take<T>(s: seq<T>, limit: Option<nat>): (r: seq<T>)
    ensures limit.None? ==> r == s
    ensures limit.Some? ==> |r| == (if limit.value <= |s| then limit.value else |s|) && r == s[..|r|]
  {
    if limit.None? || limit.value >= |s| then s else s[..limit.value]
  }

  /** The row bound a LIMIT clause sets: SQLite reads a negative LIMIT as no limit. */
  function SqlLimit(limit: Option<int>): (r: Option<nat>)
    ensures limit.None? ==> r.None?
    ensures limit.Some? && limit.value >= 0 ==> r == Some(limit.value)
    ensures limit.Some? && limit.value < 0 ==> r.None?
  {
    if limit.Some? && limit.value >= 0 then Some(limit.value) else None
  }

  /** A candidate row of a selector lookup as it is listed in an error. */
  datatype IdName = IdName(id: int, name: string)

  /** Every error the core raises. Each is a plain value with a message. */
  datatype Error =
    | InvalidDateFormat(value: string)
    | InvalidDateRange
    | AmbiguousSelector(selector: string, candidates: seq<IdName>)
    | NoRecordsForSelector(selector: string)
    | ExerciseNotFound(exerciseId: int)
    | ProgramNotFound(programId: int)
    | WorkoutNotFound(workoutId: int)
    | ActiveProgramCount(count: nat)
    | ProgramSelectorRequired
    | ProgramSoftDeleted(programId: int)
    | SelectorAndActive
    | SelectorOrActiveRequired
    | HistoryFiltersNeedSelector
    | WorkoutIdNotNumeric
    | NoWorkoutsFound
  {
    function Message(): string {
      match this
      case InvalidDateFormat(v) => "Invalid date format: " + v + ". Use YYYY-MM-DD."
      case InvalidDateRange => "Invalid date range: --from must be before or equal to --to."
      case AmbiguousSelector(s, cs) => "Selector \"" + s + "\" is ambiguous: " + RenderCandidateList(cs)
      case NoRecordsForSelector(s) => "No records found for selector: " + s
      case ExerciseNotFound(id) => "Exercise not found: " + IntToString(id)
      case ProgramNotFound(id) => "Program not found: " + IntToString(id)
      case WorkoutNotFound(id) => "Workout not found: " + IntToString(id)
      case ActiveProgramCount(n) =>
        "Expected exactly one active program. Found " + NatToString(n)
        + " via ZISCURRENT and no selected program in ZWORKOUTPROGRAMSINFO."
      case ProgramSelectorRequired => "Program selector is required unless --active/--current is set."
      case ProgramSoftDeleted(id) => "Program " + IntToString(id) + " is soft-deleted and hidden from CLI output."
      case SelectorAndActive => "Use either a selector or --active/--current, not both."
      case SelectorOrActiveRequired => "Provide a selector or use --active/--current."
      case HistoryFiltersNeedSelector =>
        "History filters require an exercise selector. Use: cliftin exercises <selector> [history flags]"
      case WorkoutIdNotNumeric => "Workout id must be numeric."
      case NoWorkoutsFound => "No workouts found."
    }
  }

  /** One `id:name` entry of a candidate list. */
  function CandidateText(c: IdName): string
  {
    IntToString(c.id) + ":" + c.name
  }

  /** The candidate list of an ambiguity error: `id:name` entries joined by ", ". */
  function RenderCandidateList(cs: seq<IdName>): string
  {
    Join(", ", seq(|cs|, i requires 0 <= i < |cs| => CandidateText(cs[i])))
  }

  /** A value or the error raised instead of it. */
  datatype Result<+T> = Ok(value: T) | Err(error: Error) {
    predicate IsFailure() { Err? }

    function PropagateFailure<U>(): Result<U>
      requires Err?
    {
      Err(error)
    }

    function Extract(): T
      requires Ok?
    {
      value
    }
  }
}
