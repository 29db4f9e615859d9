/**
 * Fixed-width C integers and the C operators the firmware relies on, written over
 * Dafny's unbounded `int`.
 *
 * Conventions used throughout the model:
 *  - `x << k` on a value that does not overflow is `x * 2^k`;
 *  - `x >> k` on a signed value is an arithmetic shift (GCC for the ESP32), i.e. floor
 *    division by 2^k, which is Dafny's `/` by a positive divisor;
 *  - `a | b` where the set bits of `a` and `b` do not overlap is `a + b`;
 *  - `x & (2^k - 1)` on a non-negative value is `x % 2^k`;
 *  - C's `/` truncates toward zero and is modelled by TruncDiv;
 *  - a cast to an unsigned type reduces modulo 2^width, a cast to a signed type takes the
 *    two's-complement reading of the low bits.
 */
module CInt {

  type u8 = x: int | 0 <= x < 0x100
  type u16 = x: int | 0 <= x < 0x1_0000
  type u32 = x: int | 0 <= x < 0x1_0000_0000

  predicate InS8(x: int) { -0x80 <= x < 0x80 }
  predicate InS16(x: int) { -0x8000 <= x < 0x8000 }
  predicate InS32(x: int) { -0x8000_0000 <= x < 0x8000_0000 }
  predicate InS64(x: int) { -0x8000_0000_0000_0000 <= x < 0x8000_0000_0000_0000 }

  type s8 = x: int | InS8(x)
  type s16 = x: int | InS16(x)
  type s32 = x: int | InS32(x)

  datatype Option<T> = None | Some(value: T)

  /** A GPIO output or input level. */
  type Level = x: int | 0 <= x <= 1

  /** The result code of the ESP-IDF calls (`esp_err_t`), reduced to the two values used. */
  datatype EspErr = EspOk | EspFail

  /** `(uint32_t) x`: reduction modulo 2^32. */
  function ToU32(x: int): (r: u32)
    ensures (x - r) % 0x1_0000_0000 == 0
    ensures 0 <= x < 0x1_0000_0000 ==> r == x
  {
    var r := x % 0x1_0000_0000;
    DivUnique(x - r, 0x1_0000_0000, x / 0x1_0000_0000, 0);
    r
  }

  /** `(uint64_t) x`: reduction modulo 2^64. */
  function ToU64(x: int): (r: int)
    ensures 0 <= r < 0x1_0000_0000_0000_0000
    ensures (x - r) % 0x1_0000_0000_0000_0000 == 0
    ensures 0 <= x < 0x1_0000_0000_0000_0000 ==> r == x
  {
    var r := x % 0x1_0000_0000_0000_0000;
    DivUnique(x - r, 0x1_0000_0000_0000_0000, x / 0x1_0000_0000_0000_0000, 0);
    r
  }

  /** `(int16_t) x` for a 16-bit pattern: the two's-complement reading. */
  function ToS16(x: u16): (r: s16)
    ensures (r + 0x1_0000) % 0x1_0000 == x
    ensures r < 0 <==> x >= 0x8000
  {
    if x < 0x8000 then x else x - 0x1_0000
  }

  /** `(int8_t) x` for an 8-bit pattern: the two's-complement reading. */
  function ToS8(x: u8): (r: s8)
    ensures (r + 0x100) % 0x100 == x
    ensures r < 0 <==> x >= 0x80
  {
    if x < 0x80 then x else x - 0x100
  }

  /** The magnitude |x|. */
  function Abs(x: int): (r: nat)
    ensures r == x || r == -x
  {
    if x < 0 then -x else x
  }

  /**
   * C's integer division `a / b`, which truncates toward zero (C99, section 6.5.5 of
   * ISO/IEC 9899). Its partner is the remainder characterisation in the ensures clauses:
   * `a == q * b + rem`, `|rem| < |b|`, and the remainder has the sign of `a`.
   */
  function TruncDiv(a: int, b: int): (q: int)
    requires b != 0
    ensures Abs(a - q * b) < Abs(b)
    ensures a >= 0 ==> a - q * b >= 0
    ensures a <= 0 ==> a - q * b <= 0
  {
    var q := if (a >= 0) == (b > 0) then Abs(a) / Abs(b) else -(Abs(a) / Abs(b));
    TruncDivRemainder(a, b, q);
    q
  }

  /** The quotient of the magnitudes, signed by the operands, leaves a remainder with the sign of `a`. */
  lemma TruncDivRemainder(a: int, b: int, q: int)
    requires b != 0
    requires q == if (a >= 0) == (b > 0) then Abs(a) / Abs(b) else -(Abs(a) / Abs(b))
    ensures Abs(a - q * b) < Abs(b)
    ensures a >= 0 ==> a - q * b >= 0
    ensures a <= 0 ==> a - q * b <= 0
  {
    var m := Abs(a) / Abs(b);
    var p := m * Abs(b);
    assert 0 <= Abs(a) - p < Abs(b);
    if b > 0 {
      if a >= 0 { assert q * b == p; } else { assert q * b == -m * b; assert q * b == -p; }
    } else {
      assert Abs(b) == -b;
      if a >= 0 { assert q * b == -m * b; assert q * b == p; } else { assert q * b == m * b; assert q * b == -p; }
    }
    assert q * b == (if a >= 0 then p else -p);
  }

  /** Truncating division agrees with Dafny's (floor) division when both operands are non-negative. */
  lemma TruncDivOfNonNegative(a: int, b: int)
    requires a >= 0 && b > 0
    ensures TruncDiv(a, b) == a / b
  {
    var q := TruncDiv(a, b);
    var r := a - q * b;
    assert 0 <= r < b;
    assert a == q * b + r;
    DivUnique(a, b, q, r);
  }

  /** The truncating quotient is the only value with the remainder characterisation. */
  lemma TruncDivUnique(a: int, b: int, q1: int, q2: int)
    requires b != 0
    requires Abs(a - q1 * b) < Abs(b) && (a >= 0 ==> a - q1 * b >= 0) && (a <= 0 ==> a - q1 * b <= 0)
    requires Abs(a - q2 * b) < Abs(b) && (a >= 0 ==> a - q2 * b >= 0) && (a <= 0 ==> a - q2 * b <= 0)
    ensures q1 == q2
  {
    var d := q1 - q2;
    var r1, r2 := a - q1 * b, a - q2 * b;
    MulSub(q1, q2, b);
    assert r2 - r1 == d * b;
    if d != 0 {
      MulAbsLowerBound(d, b);
      assert false;
    }
  }

  lemma MulSub(x: int, y: int, b: int)
    ensures (x - y) * b == x * b - y * b
  {
  }

  lemma MulAbsLowerBound(d: int, b: int)
    requires d != 0 && b != 0
    ensures Abs(d * b) >= Abs(b)
  {
    if d > 0 && b > 0 { assert d * b >= b; }
    else if d > 0 && b < 0 { assert d * b <= b; }
    else if d < 0 && b > 0 { assert d * b <= -b; }
    else { assert d * b >= -b; }
  }

  /** Floor division is determined by its remainder characterisation. */
  lemma DivUnique(a: int, b: int, q: int, r: int)
    requires b > 0 && 0 <= r < b && a == q * b + r
    ensures a / b == q && a % b == r
  {
    var q0, r0 := a / b, a % b;
    assert a == q0 * b + r0 && 0 <= r0 < b;
    if q0 > q {
      assert (q0 - q) * b == r - r0;
      MulAbsLowerBound(q0 - q, b);
    } else if q0 < q {
      assert (q - q0) * b == r0 - r;
      MulAbsLowerBound(q - q0, b);
    }
  }

  /** |a * b| <= A * B when |a| <= A and |b| <= B: the workhorse of the overflow arguments. */
  lemma MulBound(a: int, b: int, bA: nat, bB: nat)
    requires Abs(a) <= bA && Abs(b) <= bB
    ensures Abs(a * b) <= bA * bB
  {
    assert Abs(a * b) == Abs(a) * Abs(b) by {
      if a >= 0 && b >= 0 { } else if a >= 0 { assert a * b == -(a * -b); }
      else if b >= 0 { assert a * b == -(-a * b); } else { assert a * b == (-a) * (-b); }
    }
    MulMono(Abs(a), Abs(b), bA, bB);
  }

  lemma MulMono(a: nat, b: nat, bA: nat, bB: nat)
    requires a <= bA && b <= bB
    ensures a * b <= bA * bB
  {
    assert a * b <= bA * b;
    assert bA * b <= bA * bB;
  }
}
