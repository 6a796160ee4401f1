/** Go's integer and duration arithmetic, where it differs from the mathematical one. */
module GoMath {
  const MAX_INT64: int := 0x7FFF_FFFF_FFFF_FFFF
  const MIN_INT64: int := -0x8000_0000_0000_0000

  function Abs(x: int): (r: nat)
  {
    if x < 0 then -x else x
  }

  /** Integer division truncating toward zero (Go's `/` on integers, big.Int's QuoRem). */
  function Quo(n: int, d: int): (q: int)
    requires d != 0
  {
    if (n >= 0) == (d > 0) then Abs(n) / Abs(d) else -(Abs(n) / Abs(d))
  }

  /** Time.Sub clamps a difference that does not fit an int64 of nanoseconds. */
  function Saturate(x: int): (r: int)
    ensures MIN_INT64 <= r <= MAX_INT64
    ensures MIN_INT64 <= x <= MAX_INT64 ==> r == x
    ensures x > MAX_INT64 ==> r == MAX_INT64
    ensures x < MIN_INT64 ==> r == MIN_INT64
  {
    if x > MAX_INT64 then MAX_INT64 else if x < MIN_INT64 then MIN_INT64 else x
  }

  /** big.Int.Int64 keeps the low 64 bits. */
  function WrapInt64(x: int): (r: int)
    ensures MIN_INT64 <= r <= MAX_INT64
    ensures MIN_INT64 <= x <= MAX_INT64 ==> r == x
    ensures (x - r) % 0x1_0000_0000_0000_0000 == 0
  {
    var low := x % 0x1_0000_0000_0000_0000;
    if low > MAX_INT64 then low - 0x1_0000_0000_0000_0000 else low
  }
}
