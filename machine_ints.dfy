/** Fixed-width unsigned integers as the C++ source uses them: `unsigned int`
    (32 bits) and `unsigned long long` (64 bits), with explicit wrap-around. */
module MachineInts {

  const TWO_32: nat := 0x1_0000_0000
  const TWO_64: nat := 0x1_0000_0000_0000_0000

  type U32 = x: int | 0 <= x < 0x1_0000_0000
  type U64 = x: int | 0 <= x < 0x1_0000_0000_0000_0000

  /** `a + b` on `unsigned long long`. */
  function Add64(a: U64, b: U64): U64
  {
    (a + b) % TWO_64
  }

  /** `a - b` on `unsigned long long`: wraps when b > a. */
  function Sub64(a: U64, b: U64): U64
  {
    (a - b) % TWO_64
  }

  /** Subtraction undoes addition, modulo 2^64. */
  lemma {:induction false} SubAfterAdd(a: U64, d: U64, x: U64)
    ensures Sub64(x, Add64(a, d)) == Sub64(Sub64(x, d), a)
  {
    var s := a + d;
    var q := s / TWO_64;
    assert Add64(a, d) == s - q * TWO_64;
    var lhs := x - (s - q * TWO_64);
    assert lhs == (x - d - a) + q * TWO_64;
    ShiftMod(x - d - a, q);
    var y := x - d;
    var q2 := if y < 0 then -1 else 0;
    assert Sub64(x, d) == y - q2 * TWO_64;
    ShiftMod(y - a, -q2);
  }

  /** Taking away the distance from y to x lands back on y, modulo 2^64. */
  lemma {:induction false} SubOfSub(x: U64, y: U64)
    ensures Sub64(x, Sub64(x, y)) == y
  {
    var d := x - y;
    var q := if d < 0 then -1 else 0;
    assert Sub64(x, y) == d - q * TWO_64;
    assert x - Sub64(x, y) == y + q * TWO_64;
    ShiftMod(y, q);
  }

  /** Adding a multiple of 2^64 does not change the residue. */
  lemma {:induction false} ShiftMod(a: int, k: int)
    ensures (a + k * TWO_64) % TWO_64 == a % TWO_64
  {
    var r := a % TWO_64;
    var q := a / TWO_64;
    assert a == q * TWO_64 + r;
    assert a + k * TWO_64 == (q + k) * TWO_64 + r;
  }
}
