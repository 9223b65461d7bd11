// isIntersection of quantum_auxiliary_impl.h: two bit-field values
// intersect when the bitwise AND of their `long long` conversions is
// non-zero.
module Auxiliary {
  const LONG_LONG_MODULUS: int := 0x1_0000_0000_0000_0000

  /** static_cast<long long>: the 64-bit two's complement pattern of x. */
  function LongLong(x: int): bv64
  {
    (x % LONG_LONG_MODULUS) as bv64
  }

  /** A mask with exactly one bit set. */
  predicate SingleBit(m: bv64)
  {
    m != 0 && m & (m - 1) == 0
  }

  function IsIntersection(lhs: int, rhs: int): bool
  {
    LongLong(lhs) & LongLong(rhs) != 0
  }

  /** m is a single bit set in both a and b. */
  predicate CommonSingleBit(a: bv64, b: bv64, m: bv64)
  {
    SingleBit(m) && a & m != 0 && b & m != 0
  }

  /** The lowest set bit of a non-zero AND is a single bit common to both operands. */
  lemma LowestCommonBit(a: bv64, b: bv64)
    requires a & b != 0
    ensures CommonSingleBit(a, b, (a & b) & (0 - (a & b)))
  {
  }

  /** A single bit set in two patterns is set in their AND. */
  lemma CommonBit(a: bv64, b: bv64, m: bv64)
    requires CommonSingleBit(a, b, m)
    ensures a & b != 0
  {
    assert a & m == m && b & m == m;
    assert (a & b) & m == m;
  }

  /** isIntersection holds exactly when some single bit is set in both arguments. */
  lemma IntersectionIffCommonBit(lhs: int, rhs: int)
    ensures IsIntersection(lhs, rhs) <==> exists m: bv64 :: CommonSingleBit(LongLong(lhs), LongLong(rhs), m)
  {
    var a, b := LongLong(lhs), LongLong(rhs);
    if a & b != 0 {
      LowestCommonBit(a, b);
    } else {
      forall m: bv64 | CommonSingleBit(a, b, m)
        ensures false
      {
        CommonBit(a, b, m);
      }
    }
  }

  lemma IntersectionSymmetric(lhs: int, rhs: int)
    ensures IsIntersection(lhs, rhs) == IsIntersection(rhs, lhs)
  {
  }

  lemma ZeroNeverIntersects(x: int)
    ensures !IsIntersection(0, x) && !IsIntersection(x, 0)
  {
  }

  /** Every value a `long long` can hold, other than 0, intersects itself. */
  lemma NonZeroIntersectsItself(x: int)
    requires -LONG_LONG_MODULUS / 2 <= x < LONG_LONG_MODULUS / 2 && x != 0
    ensures IsIntersection(x, x)
  {
    assert x % LONG_LONG_MODULUS != 0;
  }
}
