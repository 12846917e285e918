/** The 32-bit unsigned arithmetic (`u_int`) that the pixel counts, work sizes and seeds use. */
module UInt32 {

  const Modulus: int := 0x1_0000_0000

  type u32 = x: int | 0 <= x < Modulus

  /** `a + b` on `u_int`: wraps around modulo 2^32. */
  function Add(a: u32, b: u32): (r: u32)
    ensures a + b < Modulus ==> r == a + b
    ensures a + b >= Modulus ==> r == a + b - Modulus
  {
    (a + b) % Modulus
  }

  /** `a * b` on `u_int`: wraps around modulo 2^32. */
  function Mul(a: u32, b: u32): (r: u32)
    ensures r <= a * b
    ensures a * b < Modulus ==> r == a * b
  {
    var product := a * b;
    assert product >= 0;
    product % Modulus
  }

  /**
   * luxrays' `RoundUp(a, b)`: `a` when it is already a multiple of `b`, otherwise
   * `a + b - a % b`, evaluated in `u_int` (so it wraps for `a` within `b` of 2^32).
   * Without wrap-around it is the least multiple of `b` that is at least `a`.
   */
  function RoundUp(a: u32, b: u32): (r: u32)
    requires b > 0
    ensures a + b <= Modulus ==> r % b == 0 && a <= r < a + b
  {
    var rem := a % b;
    if rem == 0 then a
    else
      var q := a / b;
      assert a + b - rem == (q + 1) * b;
      MultipleModulo(q + 1, b);
      (a + b - rem) % Modulus
  }

  lemma MultipleModulo(k: int, b: int)
    requires b > 0
    ensures (k * b) % b == 0
  {
    var x := k * b;
    var d := k - x / b;
    assert d * b == x % b by {
      assert x == (x / b) * b + x % b;
      assert d * b == k * b - (x / b) * b;
    }
  }

  /** The wrap-around is real: at 2^32 - 1, rounding up to 256 yields 0. */
  lemma RoundUpWrapsNearLimit()
    ensures RoundUp(Modulus - 1, 256) == 0
  {
  }
}
