/** The hysteresis filter: a new percentage replaces the stored one only
    when the two differ by more than a small tolerance. */
module Hysteresis {
  import opened Types

  /** The tolerance `updateState` passes to `almostEqual`. */
  const TOLERANCE: uint8 := 2

  /** `almostEqual(a, b, absdiff)`, computed as `max(a,b) - min(a,b) <= absdiff`:
      holds exactly when the two values are at most `absdiff` apart. */
  function AlmostEqual(a: uint8, b: uint8, absdiff: uint8): (r: bool)
    ensures r <==> a - absdiff <= b <= a + absdiff
  {
    var hi := if a > b then a else b;
    var lo := if a < b then a else b;
    hi - lo <= absdiff
  }

  lemma AlmostEqualReflexive(v: uint8, absdiff: uint8)
    ensures AlmostEqual(v, v, absdiff)
  {
  }

  lemma AlmostEqualSymmetric(a: uint8, b: uint8, absdiff: uint8)
    ensures AlmostEqual(a, b, absdiff) == AlmostEqual(b, a, absdiff)
  {
  }

  /** One step beyond the tolerance is a real change. */
  lemma BeyondTolerance(v: uint8, absdiff: uint8)
    requires v + absdiff + 1 < 0x100
    ensures !AlmostEqual(v, v + absdiff + 1, absdiff)
  {
  }
}
