/** The source's 64-bit integers: unsigned in the configuration, signed in arithmetic. */
module Int64 {
  const TWO_63: int := 0x8000_0000_0000_0000
  const TWO_64: int := 0x1_0000_0000_0000_0000

  /** The conversion of a 64-bit unsigned value to a signed one. */
  function ToInt(u: nat): int {
    if u < TWO_63 then u else u - TWO_64
  }

  /** It is the one signed 64-bit value that differs from `u` by a multiple of 2^64. */
  lemma {:induction false} ToIntIsCongruent(u: nat, i: int, k: int)
    requires u < TWO_64 && -TWO_63 <= i < TWO_63
    ensures i == u + k * TWO_64 ==> i == ToInt(u)
    ensures -TWO_63 <= ToInt(u) < TWO_63 && (ToInt(u) == u || ToInt(u) == u - TWO_64)
  {
  }

  /** What remains of `x` in 64 bits with a sign. */
  function Wrap(x: int): int {
    ToInt(x % TWO_64)
  }

  /** Wrapping as one goes comes to wrapping at the end. */
  lemma {:induction false} WrapAdds(a: int, u: nat)
    ensures Wrap(Wrap(a) + ToInt(u)) == Wrap(a + u)
  {
    SameWrap(Wrap(a) + ToInt(u), a + u, (if u < TWO_63 then 0 else -1)
             - a / TWO_64 - (if a % TWO_64 < TWO_63 then 0 else 1));
  }

  lemma {:induction false} SameWrap(x: int, y: int, k: int)
    requires x == y + k * TWO_64
    ensures Wrap(x) == Wrap(y)
  {
  }

  lemma WrapIsExactIff(x: nat)
    ensures Wrap(x) == x <==> x < TWO_63
    ensures TWO_63 <= x < TWO_64 ==> Wrap(x) < 0
  {
  }
}
