// Constants, integer widths and the bit-extraction macro shared by the
// controller (src/system.h), plus the explicit C narrowing conversions.

module SystemH {

  // The fixed-width C integer types used by the controller.
  type u8 = x: int | 0 <= x < 0x100
  type u16 = x: int | 0 <= x < 0x1_0000
  type u32 = x: int | 0 <= x < 0x1_0000_0000
  type i16 = x: int | -0x8000 <= x < 0x8000
  type i32 = x: int | -0x8000_0000 <= x < 0x8000_0000

  // Step factors for gain tuning and setpoint scaling.
  const FACTOR_1: u8 := 1
  const FACTOR_5: u8 := 5
  const FACTOR_10: u8 := 10

  // Operating-mode codes.
  const SET_MODE: u8 := 0
  const RUN_MODE: u8 := 1
  const CRASH_MODE: u8 := 2

  function Pow2(n: nat): (p: nat)
    ensures p >= 1
  {
    if n == 0 then 1 else 2 * Pow2(n - 1)
  }

  /** GET_BIT(x, pos) = 1 & (x >> pos); every operand in the controller is
      unsigned, so the right shift is division by 2^pos. */
  function GetBit(x: nat, pos: nat): (b: nat)
    ensures b == 0 || b == 1
  {
    (x / Pow2(pos)) % 2
  }

  /** Logical negation `!x` of a C integer: 1 for 0, 0 otherwise. */
  function Not(x: int): (r: u8)
    ensures r == 0 || r == 1
    ensures (r == 1) <==> (x == 0)
  {
    if x == 0 then 1 else 0
  }

  function Min(a: int, b: int): (m: int)
    ensures m <= a && m <= b
    ensures m == a || m == b
  {
    if a < b then a else b
  }

  function Abs(x: int): (r: nat)
    ensures r == x || r == -x
  {
    if x < 0 then -x else x
  }

  // Narrowing conversions: the value kept by a C store into a narrower
  // type (two's complement, as the target compiler does it).

  function ToU8(x: int): (r: u8)
    ensures (x - r) % 0x100 == 0
    ensures 0 <= x < 0x100 ==> r == x
  {
    x % 0x100
  }

  function ToU16(x: int): (r: u16)
    ensures (x - r) % 0x1_0000 == 0
    ensures 0 <= x < 0x1_0000 ==> r == x
  {
    x % 0x1_0000
  }

  function ToI16(x: int): (r: i16)
    ensures (x - r) % 0x1_0000 == 0
    ensures -0x8000 <= x < 0x8000 ==> r == x
  {
    (x + 0x8000) % 0x1_0000 - 0x8000
  }

  function ToI32(x: int): (r: i32)
    ensures (x - r) % 0x1_0000_0000 == 0
    ensures -0x8000_0000 <= x < 0x8000_0000 ==> r == x
  {
    (x + 0x8000_0000) % 0x1_0000_0000 - 0x8000_0000
  }

  lemma {:induction false} MulAtLeast(k: nat, d: nat)
    requires k >= 1
    ensures k * d >= d
  {
    if k > 1 {
      MulAtLeast(k - 1, d);
      assert k * d == (k - 1) * d + d;
    }
  }

  /** Division with a known quotient and remainder. */
  lemma DivModUnique(x: int, d: int, q: int, r: int)
    requires d > 0 && 0 <= r < d && x == q * d + r
    ensures x / d == q && x % d == r
  {
    var q', r' := x / d, x % d;
    assert x == q' * d + r';
    assert (q - q') * d == r' - r;
    if q > q' {
      MulAtLeast(q - q', d);
    } else if q < q' {
      MulAtLeast(q' - q, d);
    }
  }

  /** GET_BIT reads exactly the binary digit at position pos: a value built
      from a high part, a digit b at pos and a low part below it gives b. */
  lemma GetBitOfDigit(hi: nat, b: nat, lo: nat, pos: nat)
    requires b <= 1 && lo < Pow2(pos)
    ensures GetBit(hi * Pow2(pos + 1) + b * Pow2(pos) + lo, pos) == b
  {
    var p := Pow2(pos);
    var x := hi * Pow2(pos + 1) + b * p + lo;
    assert x == (2 * hi + b) * p + lo;
    DivModUnique(x, p, 2 * hi + b, lo);
    DivModUnique(2 * hi + b, 2, hi, b);
  }

  /** Conversely, every value splits at position pos into the digit GET_BIT
      returns and the parts above and below it. */
  lemma GetBitSplits(x: nat, pos: nat)
    ensures x == (x / Pow2(pos + 1)) * Pow2(pos + 1) + GetBit(x, pos) * Pow2(pos) + x % Pow2(pos)
  {
    var p := Pow2(pos);
    var q := x / p;
    assert x == q * p + x % p;
    assert q == (q / 2) * 2 + q % 2;
    assert x == (q / 2) * (2 * p) + (q % 2) * p + x % p;
    DivModUnique(x, 2 * p, q / 2, (q % 2) * p + x % p);
  }

  /** The mode codes are pairwise distinct, and the `mode > 1` wrap of the
      SET/RUN toggle maps SET to RUN and RUN back to SET. */
  lemma ModeCodes()
    ensures SET_MODE != RUN_MODE && RUN_MODE != CRASH_MODE && SET_MODE != CRASH_MODE
    ensures (if SET_MODE + 1 > 1 then SET_MODE else SET_MODE + 1) == RUN_MODE
    ensures (if RUN_MODE + 1 > 1 then SET_MODE else RUN_MODE + 1) == SET_MODE
  {
  }
}
