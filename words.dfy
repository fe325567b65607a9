/** Machine words of the interpreter (`u8`, `u16`), the bit operations the
    source applies to them, written on naturals, and the outcome of an
    operation that may panic. */
module Words {

  /** An unsigned 8-bit value (`u8`). */
  type u8 = x: int | 0 <= x < 0x100

  /** An unsigned 16-bit value (`u16`). */
  type u16 = x: int | 0 <= x < 0x1_0000

  /** Why the interpreter panics.  A Rust panic ends the program, so the
      model only records which one happened. */
  datatype Fault =
    | RegisterOutOfRange(register: int)  // the guard of read_register / write_register
    | StackUnderflow                     // RET with an empty stack
    | StackOverflow                      // CALL with a full stack
    | ArithmeticOverflow                 // a checked `+` or `+=` that leaves its type
    | AddressOutOfRange(addr: int)       // an index beyond the 4096-byte memory
    | Unimplemented                      // an arm that is todo!() or unimplemented!()

  /** What a Rust operation that may panic gives back: its value, or the panic. */
  datatype Result<+T> = Ok(value: T) | Err(error: Fault) {
    predicate IsFailure() { Err? }
    function PropagateFailure<U>(): Result<U> requires Err? { Err(error) }
    function Extract(): T requires Ok? { value }
  }

  /** `a + b` on `u8` as compiled with overflow checks: a panic past 0xFF. */
  function CheckedAdd8(a: u8, b: u8): (r: Result<u8>)
    ensures r.Ok? <==> a + b < 0x100
    ensures r.Ok? ==> r.value == a + b
    ensures r.Err? ==> r.error == ArithmeticOverflow
  {
    if a + b < 0x100 then Ok(a + b) else Err(ArithmeticOverflow)
  }

  /** `a + b` on `u16` as compiled with overflow checks: a panic past 0xFFFF. */
  function CheckedAdd16(a: u16, b: u16): (r: Result<u16>)
    ensures r.Ok? <==> a + b < 0x1_0000
    ensures r.Ok? ==> r.value == a + b
    ensures r.Err? ==> r.error == ArithmeticOverflow
  {
    if a + b < 0x1_0000 then Ok(a + b) else Err(ArithmeticOverflow)
  }

  /** `u8::overflowing_add`: the sum modulo 256 and whether it wrapped. */
  function OverflowingAdd8(a: u8, b: u8): (r: (u8, bool))
    ensures r.0 + (if r.1 then 0x100 else 0) == a + b
  {
    ((a + b) % 0x100, a + b >= 0x100)
  }

  /** `u8::overflowing_sub`: the difference modulo 256 and whether it borrowed. */
  function OverflowingSub8(a: u8, b: u8): (r: (u8, bool))
    ensures r.0 - (if r.1 then 0x100 else 0) == a - b
  {
    ((a - b) % 0x100, a < b)
  }

  function Pow2(n: nat): (r: nat)
    ensures r >= 1
  {
    if n == 0 then 1 else 2 * Pow2(n - 1)
  }

  /** The powers of two the bit fields of an opcode and a sprite row use. */
  lemma Pow2Values()
    ensures Pow2(4) == 0x10 && Pow2(7) == 0x80 && Pow2(8) == 0x100 && Pow2(12) == 0x1000
  {
    assert Pow2(4) == 0x10;
    assert Pow2(8) == 0x100;
  }

  /** Masking with the nibble `0xF << k` keeps bits k..k+3 in place. */
  lemma NibbleMask(a: nat, k: nat)
    ensures And(a, 0xF * Pow2(k)) == ((a / Pow2(k)) % 0x10) * Pow2(k)
  {
    Pow2Values();
    AndShifted(a, 0xF, k);
    AndLowMask(ShiftRight(a, k), 4);
    ShiftRightIsDiv(a, k);
  }

  /** `a >> k` on an unsigned value: `k` halvings. */
  function ShiftRight(a: nat, k: nat): nat {
    if k == 0 then a else ShiftRight(a / 2, k - 1)
  }

  /** Bitwise `&`, least significant bit first. */
  function And(a: nat, b: nat): (r: nat)
    ensures r <= a && r <= b
  {
    if a == 0 || b == 0 then 0
    else 2 * And(a / 2, b / 2) + (if a % 2 == 1 && b % 2 == 1 then 1 else 0)
  }

  /** Bitwise `|`, least significant bit first. */
  function Or(a: nat, b: nat): (r: nat)
    ensures a <= r && b <= r
  {
    if a == 0 then b
    else if b == 0 then a
    else 2 * Or(a / 2, b / 2) + (if a % 2 == 1 || b % 2 == 1 then 1 else 0)
  }

  /** Bitwise `^`, least significant bit first. */
  function Xor(a: nat, b: nat): (r: nat)
    ensures r <= a + b
  {
    if a == 0 then b
    else if b == 0 then a
    else 2 * Xor(a / 2, b / 2) + (if a % 2 != b % 2 then 1 else 0)
  }

  lemma {:induction false} OrFits(a: nat, b: nat, n: nat)
    requires a < Pow2(n) && b < Pow2(n)
    ensures Or(a, b) < Pow2(n)
  {
    if a != 0 && b != 0 {
      OrFits(a / 2, b / 2, n - 1);
    }
  }

  lemma {:induction false} XorFits(a: nat, b: nat, n: nat)
    requires a < Pow2(n) && b < Pow2(n)
    ensures Xor(a, b) < Pow2(n)
  {
    if a != 0 && b != 0 {
      XorFits(a / 2, b / 2, n - 1);
    }
  }

  /** `a | b` on `u8`. */
  function Or8(a: u8, b: u8): (r: u8)
    ensures a <= r && b <= r
  {
    OrFits(a, b, 8);
    Or(a, b)
  }

  /** `a & b` on `u8`. */
  function And8(a: u8, b: u8): (r: u8)
    ensures r <= a && r <= b
  {
    And(a, b)
  }

  /** `a ^ b` on `u8`. */
  function Xor8(a: u8, b: u8): (r: u8)
    ensures r <= a + b
  {
    XorFits(a, b, 8);
    Xor(a, b)
  }

  /** Bit `k` of `And(a, b)` is set exactly when bit `k` is set in both. */
  lemma {:induction false} AndBit(a: nat, b: nat, k: nat)
    ensures ShiftRight(And(a, b), k) % 2 == 1 <==> ShiftRight(a, k) % 2 == 1 && ShiftRight(b, k) % 2 == 1
  {
    if a == 0 || b == 0 {
      ZeroShiftRight(k);
    } else {
      var h := And(a / 2, b / 2);
      assert And(a, b) == 2 * h + (if a % 2 == 1 && b % 2 == 1 then 1 else 0);
      if k > 0 {
        assert And(a, b) / 2 == h;
        AndBit(a / 2, b / 2, k - 1);
      }
    }
  }

  /** Bit `k` of `Or(a, b)` is set exactly when bit `k` is set in either. */
  lemma {:induction false} OrBit(a: nat, b: nat, k: nat)
    ensures ShiftRight(Or(a, b), k) % 2 == 1 <==> ShiftRight(a, k) % 2 == 1 || ShiftRight(b, k) % 2 == 1
  {
    if a == 0 || b == 0 {
      ZeroShiftRight(k);
    } else {
      var h := Or(a / 2, b / 2);
      assert Or(a, b) == 2 * h + (if a % 2 == 1 || b % 2 == 1 then 1 else 0);
      if k > 0 {
        assert Or(a, b) / 2 == h;
        OrBit(a / 2, b / 2, k - 1);
      }
    }
  }

  /** Bit `k` of `Xor(a, b)` is set exactly when bit `k` is set in one of
      them and not the other. */
  lemma {:induction false} XorBit(a: nat, b: nat, k: nat)
    ensures ShiftRight(Xor(a, b), k) % 2 == 1 <==> (ShiftRight(a, k) % 2 == 1) != (ShiftRight(b, k) % 2 == 1)
  {
    if a == 0 || b == 0 {
      ZeroShiftRight(k);
    } else {
      var h := Xor(a / 2, b / 2);
      assert Xor(a, b) == 2 * h + (if a % 2 != b % 2 then 1 else 0);
      if k > 0 {
        assert Xor(a, b) / 2 == h;
        XorBit(a / 2, b / 2, k - 1);
      }
    }
  }

  /** Masking twice with the same mask changes nothing: every bit left in
      `And(a, m)` is a bit of `m`. */
  lemma {:induction false} AndIdempotent(a: nat, m: nat)
    ensures And(And(a, m), m) == And(a, m)
  {
    if a != 0 && m != 0 {
      AndIdempotent(a / 2, m / 2);
    }
  }

  lemma {:induction false} MulAtLeast(d: nat, k: int)
    requires k >= 1
    ensures d * k >= d
  {
    if k > 1 {
      MulAtLeast(d, k - 1);
      assert d * k == d * (k - 1) + d;
    }
  }

  /** Euclidean division is determined by its quotient-remainder equation. */
  lemma DivMulUnique(a: nat, d: nat, q: nat, s: nat)
    requires d > 0 && a == d * q + s && s < d
    ensures a / d == q && a % d == s
  {
    var q0, r0 := a / d, a % d;
    assert d * (q - q0) == r0 - s;
    assert d * (q0 - q) == s - r0;
    if q - q0 >= 1 { MulAtLeast(d, q - q0); assert false; }
    if q0 - q >= 1 { MulAtLeast(d, q0 - q); assert false; }
  }

  /** Halving, then dividing by `d`, is dividing by `2 * d`. */
  lemma DivHalf(a: nat, d: nat)
    requires d > 0
    ensures (a / 2) / d == a / (2 * d)
    ensures 2 * ((a / 2) % d) + a % 2 == a % (2 * d)
  {
    var q, r := (a / 2) / d, (a / 2) % d;
    assert a / 2 == d * q + r;
    assert a == (2 * d) * q + (2 * r + a % 2);
    DivMulUnique(a, 2 * d, q, 2 * r + a % 2);
  }

  /** Masking with `2^k - 1` keeps the low `k` bits. */
  lemma {:induction false} AndLowMask(a: nat, k: nat)
    ensures And(a, Pow2(k) - 1) == a % Pow2(k)
  {
    if k == 0 {
      assert And(a, 0) == 0 && a % 1 == 0;
    } else if a == 0 {
      assert 0 % Pow2(k) == 0;
    } else {
      var p := Pow2(k - 1);
      assert Pow2(k) == 2 * p;
      AndOddMask(a, p);
      AndLowMask(a / 2, k - 1);
      DivHalf(a, p);
    }
  }

  /** One step of `AndLowMask`: the mask `2p - 1` keeps the low bit of `a`. */
  lemma AndOddMask(a: nat, p: nat)
    requires a != 0 && p >= 1
    ensures And(a, 2 * p - 1) == 2 * And(a / 2, p - 1) + a % 2
  {
    DivMulUnique(2 * p - 1, 2, p - 1, 1);
  }

  /** Shifting right by `k` is dividing by `2^k`. */
  lemma {:induction false} ShiftRightIsDiv(a: nat, k: nat)
    ensures ShiftRight(a, k) == a / Pow2(k)
  {
    if k > 0 {
      ShiftRightIsDiv(a / 2, k - 1);
      DivHalf(a, Pow2(k - 1));
    }
  }

  lemma MulTwice(x: nat, p: nat)
    ensures 2 * (x * p) == x * (2 * p)
  {
  }

  lemma AndEven(a: nat, half: nat)
    requires a != 0 && half != 0
    ensures And(a, 2 * half) == 2 * And(a / 2, half)
  {
    assert (2 * half) / 2 == half && (2 * half) % 2 == 0;
  }

  /** Masking with `m << j` is masking `a >> j` with `m`, shifted back. */
  lemma {:induction false} AndShifted(a: nat, m: nat, j: nat)
    ensures And(a, m * Pow2(j)) == And(ShiftRight(a, j), m) * Pow2(j)
  {
    if j == 0 {
      assert m * 1 == m;
    } else if m == 0 {
      assert And(ShiftRight(a, j), m) == 0;
    } else if a == 0 {
      ZeroShiftRight(j);
    } else {
      var p := Pow2(j - 1);
      var half := m * p;
      MulAtLeast(p, m);
      MulTwice(m, p);
      AndEven(a, half);
      AndShifted(a / 2, m, j - 1);
      MulTwice(And(ShiftRight(a, j), m), p);
    }
  }

  /** Shifting left by `k`, then right by `k`, gives the value back. */
  lemma {:induction false} ShiftLeftRight(x: nat, k: nat)
    ensures ShiftRight(x * Pow2(k), k) == x
  {
    if k > 0 {
      MulTwice(x, Pow2(k - 1));
      assert (2 * (x * Pow2(k - 1))) / 2 == x * Pow2(k - 1);
      ShiftLeftRight(x, k - 1);
    }
  }

  lemma {:induction false} ZeroShiftRight(k: nat)
    ensures ShiftRight(0, k) == 0
  {
    if k > 0 { ZeroShiftRight(k - 1); }
  }

  /** Masking with the single bit `2^k` leaves bit `k` of `a` in place. */
  lemma {:induction false} AndSingleBit(a: nat, k: nat)
    ensures And(a, Pow2(k)) == (ShiftRight(a, k) % 2) * Pow2(k)
  {
    AndShifted(a, 1, k);
    var b := ShiftRight(a, k);
    assert And(b, 1) == b % 2 by {
      if b != 0 {
        assert And(b / 2, 0) == 0;
      }
    }
  }

  /** `2^k >> i` is `2^(k - i)` while no bit is shifted out. */
  lemma {:induction false} ShiftRightPow2(k: nat, i: nat)
    requires i <= k
    ensures ShiftRight(Pow2(k), i) == Pow2(k - i)
  {
    if i > 0 {
      assert Pow2(k) / 2 == Pow2(k - 1);
      ShiftRightPow2(k - 1, i - 1);
    }
  }

  /** A value shifted left by `k` has no bit in common with one below `2^k`. */
  lemma {:induction false} AndShiftedOut(a: nat, b: nat, k: nat)
    requires b < Pow2(k)
    ensures And(a * Pow2(k), b) == 0
  {
    if k > 0 && a != 0 && b != 0 {
      var half := a * Pow2(k - 1);
      assert a * Pow2(k) == 2 * half;
      assert (2 * half) / 2 == half && (2 * half) % 2 == 0;
      AndShiftedOut(a, b / 2, k - 1);
    }
  }
}
