/** Fixed-width integers of the firmware (u8, u16, i16) and the Rust
    conversions between them, written out explicitly because Dafny's
    integers are unbounded. */
module Ints {

  type U8 = x: int | 0 <= x < 0x100
  type U16 = x: int | 0 <= x < 0x1_0000
  type I16 = x: int | -0x8000 <= x < 0x8000

  /** `n as u8` on an integer type: keeps the low eight bits. */
  function TruncateToU8(n: int): (r: U8)
    ensures 0 <= n < 0x100 ==> r == n
    ensures (n - r) % 0x100 == 0
  {
    n % 0x100
  }

  /** Wrapping u16 arithmetic: the result is congruent to n modulo 2^16. */
  function WrapU16(n: int): (r: U16)
    ensures 0 <= n < 0x1_0000 ==> r == n
    ensures (n - r) % 0x1_0000 == 0
  {
    n % 0x1_0000
  }

  /** Wrapping i16 arithmetic (two's complement). */
  function WrapI16(n: int): (r: I16)
    ensures -0x8000 <= n < 0x8000 ==> r == n
    ensures (n - r) % 0x1_0000 == 0
  {
    (n + 0x8000) % 0x1_0000 - 0x8000
  }

  /** `i16::wrapping_abs`: the absolute value, except that -32768 stays -32768. */
  function WrappingAbsI16(n: I16): (r: I16)
    ensures n != -0x8000 ==> r == Abs(n)
    ensures n == -0x8000 ==> r == n
  {
    if n == -0x8000 then n else Abs(n)
  }

  /** A float-to-`i16` cast of an integral value: it saturates at the bounds. */
  function SaturateI16(n: int): (r: I16)
    ensures -0x8000 <= n < 0x8000 ==> r == n
    ensures n >= 0x8000 ==> r == 0x7fff
    ensures n < -0x8000 ==> r == -0x8000
  {
    if n >= 0x8000 then 0x7fff else if n < -0x8000 then -0x8000 else n
  }

  function Abs(n: int): (r: nat)
    ensures r == n || r == -n
  {
    if n < 0 then -n else n
  }

  function Max(a: int, b: int): (r: int)
    ensures r >= a && r >= b
    ensures r == a || r == b
  {
    if a < b then b else a
  }

  function Min(a: int, b: int): (r: int)
    ensures r <= a && r <= b
    ensures r == a || r == b
  {
    if a < b then a else b
  }

  /** `Ord::clamp`. */
  function Clamp(v: int, lo: int, hi: int): (r: int)
    requires lo <= hi
    ensures lo <= r <= hi
    ensures lo <= v <= hi ==> r == v
    ensures v < lo ==> r == lo
    ensures v > hi ==> r == hi
  {
    if v < lo then lo else if v > hi then hi else v
  }

  /** Division that rounds toward zero, as a float-to-integer cast of an
      exact quotient does (and as Rust's `/` does on integers). */
  function TruncDiv(n: int, d: int): (r: int)
    requires d > 0
    ensures Abs(r) == Abs(n) / d
    ensures n >= 0 ==> r >= 0
    ensures n <= 0 ==> r <= 0
  {
    var q := Abs(n) / d;
    DivAtMost(0, 0, d);
    DivMonotone(0, Abs(n), d);
    if n >= 0 then q else -q
  }

  /** If q * m <= k * m for a positive m, then q <= k. */
  lemma MulLeCancel(q: int, k: int, m: int)
    requires m > 0 && q * m <= k * m
    ensures q <= k
  {
  }

  /** If q * m < k * m for a positive m, then q < k. */
  lemma MulLtCancel(q: int, k: int, m: int)
    requires m > 0 && q * m < k * m
    ensures q < k
  {
  }

  /** Multiplying by a non-negative factor keeps the order. */
  lemma MulLeMono(a: int, b: int, c: int)
    requires a >= 0 && b <= c
    ensures a * b <= a * c
  {
  }

  /** A quotient is at most k when the dividend is at most k times the divisor. */
  lemma DivAtMost(n: int, k: int, m: int)
    requires m > 0 && 0 <= n <= k * m
    ensures n / m <= k
  {
    MulLeCancel(n / m, k, m);
  }

  /** Division by a positive divisor keeps the order of non-negative dividends. */
  lemma DivMonotone(x: int, y: int, m: int)
    requires 0 <= x <= y && m > 0
    ensures x / m <= y / m
  {
    MulLtCancel(x / m, y / m + 1, m);
  }
}
