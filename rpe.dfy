/** The stored RPE sentinel (src/lib/rpe.ts): 16 means "no RPE recorded". */
module Rpe {
  import opened Base

  const DefaultRpeSentinel: int := 16

  /** normalizeRpe: the sentinel becomes null, every other value is kept. */
  function NormalizeRpe(rpe: Option<int>): (r: Option<int>)
    ensures rpe == Some(DefaultRpeSentinel) ==> r == None
    ensures rpe == None ==> r == None
    ensures rpe.Some? && rpe.value != DefaultRpeSentinel ==> r == rpe
    ensures r != Some(DefaultRpeSentinel)
  {
    if rpe == Some(DefaultRpeSentinel) then None else rpe
  }

  /** Normalising twice is the same as normalising once. */
  lemma NormalizeRpeIdempotent(rpe: Option<int>)
    ensures NormalizeRpe(NormalizeRpe(rpe)) == NormalizeRpe(rpe)
  {
  }
}
