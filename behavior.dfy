// The behaviour flags byte and the arbiter's band test over the measurement.
module Behavior {

  /** Bits of the `behaviorState` byte. */
  const APPROACH_MASK: bv8 := 0x01
  const WANDER_MASK: bv8 := 0x02
  const WALLFOLLOW_MASK: bv8 := 0x04

  /** Standoff band for wall following, and the edge of the approach range, in inches. */
  const FOLLOW_LOW: real := 5.75
  const FOLLOW_HIGH: real := 6.25
  const APPROACH_RANGE: real := 20.0

  datatype Choice = Approach | WallFollow | Wander

  // The three operations the sketch performs on the byte: `flags & m` as a
  // test, `flags |= m` and `flags &= ~m`. They are kept behind names so that
  // the rest of the model reasons about flags through the lemmas below.

  predicate IsUp(flags: bv8, m: bv8) {
    flags & m != 0
  }

  function Raise(flags: bv8, m: bv8): bv8 {
    flags | m
  }

  function Lower(flags: bv8, m: bv8): bv8 {
    flags & !m
  }

  /** Every flag up in `a` is up in `b`. */
  predicate Within(a: bv8, b: bv8) {
    a & !b == 0
  }

  /** Raising a flag and lowering it again leaves the byte as lowering it alone would. */
  lemma RaiseThenLower(flags: bv8, m: bv8)
    ensures IsUp(Raise(flags, m), m) || m == 0
    ensures Lower(Raise(flags, m), m) == Lower(flags, m)
  {
  }

  /**
   * Lowering m clears m, keeps every flag outside m, raises nothing, and
   * changes nothing when m was already down (for a one-bit mask).
   */
  lemma LowerOnlyOwn(flags: bv8, m: bv8)
    ensures !IsUp(Lower(flags, m), m)
    ensures forall n: bv8 :: n & m == 0 ==> (IsUp(Lower(flags, m), n) <==> IsUp(flags, n))
    ensures Within(Lower(flags, m), flags)
    ensures (m == APPROACH_MASK || m == WANDER_MASK || m == WALLFOLLOW_MASK) && !IsUp(flags, m) ==> Lower(flags, m) == flags
  {
  }

  lemma WithinRefl(a: bv8)
    ensures Within(a, a) && Within(0, a)
    ensures Within(a, 0) ==> a == 0
  {
  }

  lemma WithinTrans(a: bv8, b: bv8, c: bv8)
    requires Within(a, b) && Within(b, c)
    ensures Within(a, c)
  {
  }

  /** The flag bit a behaviour raises while it runs. */
  function Mask(c: Choice): (m: bv8)
    ensures m == APPROACH_MASK <==> c == Approach
    ensures m == WALLFOLLOW_MASK <==> c == WallFollow
    ensures m == WANDER_MASK <==> c == Wander
  {
    match c
    case Approach => APPROACH_MASK
    case WallFollow => WALLFOLLOW_MASK
    case Wander => WANDER_MASK
  }

  /**
   * The arbiter's if / else-if chain, with its guards as written. A real
   * measurement always satisfies one of the three guards, so the third guard
   * (meas > 20) is the remaining case; only a NaN would match none.
   * The contract gives each band in its simplified form: the three bands
   * partition the real line.
   */
  function Arbitrate(meas: real): (c: Choice)
    ensures c == Approach <==> meas < FOLLOW_LOW || (FOLLOW_HIGH < meas <= APPROACH_RANGE)
    ensures c == WallFollow <==> FOLLOW_LOW <= meas <= FOLLOW_HIGH
    ensures c == Wander <==> APPROACH_RANGE < meas
  {
    if (meas <= APPROACH_RANGE && meas > FOLLOW_HIGH) || (meas <= APPROACH_RANGE && meas < FOLLOW_LOW) then
      Approach
    else if FOLLOW_LOW <= meas && meas <= FOLLOW_HIGH then
      WallFollow
    else
      Wander
  }
}
