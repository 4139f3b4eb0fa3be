/** Fixed-width integers of the Rust source. Dafny's `int` is unbounded, so the
    source's `as i32` casts of `usize` lengths are written out here. */
module Ints {

  const I32_MIN: int := -0x8000_0000
  const I32_MAX: int := 0x7fff_ffff
  const TWO_POW_32: int := 0x1_0000_0000

  newtype i32 = x: int | I32_MIN <= x <= I32_MAX

  /** Rust's `x as i32`: keep the low 32 bits of `x` and read them as two's
      complement. The result is the unique i32 congruent to `x` modulo 2^32. */
  function AsI32(x: int): (r: i32)
    ensures (r as int - x) % TWO_POW_32 == 0
    ensures I32_MIN <= x <= I32_MAX ==> r as int == x
  {
    var q := (x - I32_MIN) / TWO_POW_32;
    var low := x - I32_MIN - q * TWO_POW_32;
    assert 0 <= low < TWO_POW_32;
    (low + I32_MIN) as i32
  }
}
