/** The 64x32 monochrome screen (src/display.rs): a row-major vector of
    pixels that sprites are XOR-ed onto, with wrap-around addressing. */
module Display {
  import opened Words

  const WIDTH: nat := 64
  const HEIGHT: nat := 32
  const PIXELS: nat := 2048  // WIDTH * HEIGHT

  /** A screen with every pixel off. */
  function Blank(): (p: seq<bool>)
    ensures |p| == PIXELS && forall k | 0 <= k < PIXELS :: !p[k]
  {
    seq(PIXELS, _ => false)
  }

  /** `get_index`: the row-major index of the pixel at column `x mod 64`,
      row `y mod 32`. */
  function GetIndex(x: u8, y: u8): (r: nat)
    ensures r < PIXELS
    ensures r % WIDTH == x % WIDTH && r / WIDTH == y % HEIGHT
  {
    var r := x % WIDTH + (y % HEIGHT) * WIDTH;
    DivMulUnique(r, WIDTH, y % HEIGHT, x % WIDTH);
    r
  }

  /** Column `j` of a sprite row: bit `7 - j` of the byte, most significant first. */
  function SpriteBit(b: u8, j: nat): bool
    requires j < 8
  {
    ShiftRight(b, 7 - j) % 2 == 1
  }

  /** The test `byte_as_bool_array` applies for column `i`,
      `(byte & (0x80 >> i)) >> (8 - i - 1) == 1`, is the bit of that column. */
  lemma ByteBit(b: u8, i: nat)
    requires i < 8
    ensures (ShiftRight(And(b, ShiftRight(0x80, i)), 8 - i - 1) == 1) == SpriteBit(b, i)
  {
    var k := 7 - i;
    var bit := ShiftRight(b, k) % 2;
    var p := Pow2(k);
    assert ShiftRight(0x80, i) == p by {
      Pow2Values();
      ShiftRightPow2(7, i);
    }
    AndSingleBit(b, k);
    ShiftLeftRight(bit, k);
  }

  /** The unit test of `byte_as_bool_array`: 0b10110110 unpacks to
      on, off, on, on, off, on, on, off. */
  lemma ByteBitsExample()
    ensures forall j | 0 <= j < 8 ::
      SpriteBit(0xB6, j) == [true, false, true, true, false, true, true, false][j]
  {
    assert SpriteBit(0xB6, 0) by { assert Pow2(7) == 128; }
    assert !SpriteBit(0xB6, 1) by { assert Pow2(6) == 64; }
    assert SpriteBit(0xB6, 2) by { assert Pow2(5) == 32; }
    assert SpriteBit(0xB6, 3) by { assert Pow2(4) == 16; }
    assert !SpriteBit(0xB6, 4) by { assert Pow2(3) == 8; }
    assert SpriteBit(0xB6, 5) by { assert Pow2(2) == 4; }
    assert SpriteBit(0xB6, 6) by { assert Pow2(1) == 2; }
    assert !SpriteBit(0xB6, 7) by { assert Pow2(0) == 1; }
  }

  /** `byte_as_bool_array`: the eight columns of a sprite row. */
  method ByteAsBoolArray(b: u8) returns (a: array<bool>)
    ensures fresh(a) && a.Length == 8
    ensures forall j | 0 <= j < 8 :: a[j] == SpriteBit(b, j)
  {
    a := new bool[8](_ => false);
    for i := 0 to 8
      invariant forall j | 0 <= j < i :: a[j] == SpriteBit(b, j)
    {
      ByteBit(b, i);
      a[i] := ShiftRight(And(b, ShiftRight(0x80, i)), 8 - i - 1) == 1;
    }
  }

  function Min(a: nat, b: nat): nat {
    if a <= b then a else b
  }

  /** Row `i` as a `u8`: itself below 256, and never past the rows seen. */
  lemma RowNumber(i: nat)
    ensures i % 0x100 == if i < 0x100 then i else i - 0x100 * (i / 0x100)
    ensures i % 0x100 <= Min(i + 1, 0x100) - 1
  {
  }

  /** Whether `draw` computes every `start_y + i as u8` and every
      `start_x + j as u8` without a `u8` overflow. */
  predicate Fits(x: u8, y: u8, n: nat) {
    n == 0 || (x + 7 < 0x100 && y + Min(n, 0x100) - 1 < 0x100)
  }

  /** The pixel that column `j` of sprite row `i` lands on (`i as u8`
      truncates the row number). */
  function Target(x: u8, y: u8, i: nat, j: nat): (r: nat)
    requires x + j < 0x100 && y + i % 0x100 < 0x100
    ensures r < PIXELS
  {
    GetIndex(x + j, y + i % 0x100)
  }

  /** XOR one sprite bit onto pixel `k`, noting whether a lit pixel went dark. */
  function Flip(p: seq<bool>, collision: bool, k: nat, bit: bool): (r: (seq<bool>, bool))
    requires k < |p|
    ensures |r.0| == |p| && r.0[k] == (p[k] != bit)
    ensures forall m | 0 <= m < |p| && m != k :: r.0[m] == p[m]
    ensures r.1 == (collision || (p[k] && bit))
  {
    var lit := p[k] != bit;
    (p[k := lit], collision || (p[k] && !lit))
  }

  /** The pixels and the collision flag once rows `0..i-1` and columns
      `0..j-1` of row `i` have been drawn onto `p`. */
  function Partial(p: seq<bool>, x: u8, y: u8, s: seq<u8>, i: nat, j: nat): (r: (seq<bool>, bool))
    requires |p| == PIXELS && Fits(x, y, |s|)
    requires j <= 8 && (i < |s| || (i == |s| && j == 0))
    ensures |r.0| == PIXELS
    decreases i, j
  {
    if j == 0 then
      if i == 0 then (p, false) else Partial(p, x, y, s, i - 1, 8)
    else
      var q := Partial(p, x, y, s, i, j - 1);
      Flip(q.0, q.1, Target(x, y, i, j - 1), SpriteBit(s[i], j - 1))
  }

  /** What `draw` computes: the new pixels and the value for VF, or the
      overflow panic. */
  function DrawOnto(p: seq<bool>, x: u8, y: u8, s: seq<u8>): (r: Result<(seq<bool>, u8)>)
    requires |p| == PIXELS
    ensures r.Ok? <==> Fits(x, y, |s|)
    ensures r.Ok? ==> |r.value.0| == PIXELS && r.value.1 <= 1
    ensures r.Err? ==> r.error == ArithmeticOverflow
  {
    if Fits(x, y, |s|) then
      var q := Partial(p, x, y, s, |s|, 0);
      Ok((q.0, if q.1 then 1 else 0))
    else
      Err(ArithmeticOverflow)
  }

  function XorSeq(a: seq<bool>, b: seq<bool>): (r: seq<bool>)
    requires |a| == |b|
    ensures |r| == |a| && forall k | 0 <= k < |a| :: r[k] == (a[k] != b[k])
  {
    seq(|a|, k requires 0 <= k < |a| => a[k] != b[k])
  }

  /** Columns `0..j-1` of sprite byte `b` XOR-ed onto screen row `y` from
      column `x` on, starting from pixels and collision flag `q`. */
  function RowPrefix(q: (seq<bool>, bool), x: u8, y: u8, b: u8, j: nat): (r: (seq<bool>, bool))
    requires |q.0| == PIXELS && j <= 8 && (j == 0 || x + j - 1 < 0x100)
    ensures |r.0| == PIXELS
    decreases j
  {
    if j == 0 then q
    else
      var t := RowPrefix(q, x, y, b, j - 1);
      Flip(t.0, t.1, GetIndex(x + j - 1, y), SpriteBit(b, j - 1))
  }

  /** Within sprite row `i`, which lands on screen row `row`, `Partial`
      draws the row's byte column by column; and row `i + 1` starts where
      row `i`'s eight columns end. */
  lemma {:induction false} PartialRow(p: seq<bool>, x: u8, y: u8, s: seq<u8>, i: nat, j: nat, row: u8)
    requires |p| == PIXELS && Fits(x, y, |s|) && i < |s| && j <= 8 && row == y + i % 0x100
    ensures Partial(p, x, y, s, i, j) == RowPrefix(Partial(p, x, y, s, i, 0), x, row, s[i], j)
    ensures j == 8 ==> Partial(p, x, y, s, i + 1, 0) == Partial(p, x, y, s, i, j)
    decreases j
  {
    if j > 0 {
      PartialRow(p, x, y, s, i, j - 1, row);
      assert Target(x, y, i, j - 1) == GetIndex(x + j - 1, row);
    }
  }

  /** Drawing XORs the screen with the picture the same sprite leaves on a
      blank screen. */
  lemma {:induction false} PartialIsXor(p: seq<bool>, x: u8, y: u8, s: seq<u8>, i: nat, j: nat)
    requires |p| == PIXELS && Fits(x, y, |s|)
    requires j <= 8 && (i < |s| || (i == |s| && j == 0))
    ensures Partial(p, x, y, s, i, j).0 == XorSeq(p, Partial(Blank(), x, y, s, i, j).0)
    decreases i, j
  {
    if j == 0 {
      if i > 0 {
        PartialIsXor(p, x, y, s, i - 1, 8);
      }
    } else {
      PartialIsXor(p, x, y, s, i, j - 1);
    }
  }

  /** Drawing the same sprite at the same place twice restores the screen. */
  lemma DrawTwiceRestores(p: seq<bool>, x: u8, y: u8, s: seq<u8>)
    requires |p| == PIXELS && Fits(x, y, |s|)
    ensures DrawOnto(DrawOnto(p, x, y, s).value.0, x, y, s).value.0 == p
  {
    var q := DrawOnto(p, x, y, s).value.0;
    PartialIsXor(p, x, y, s, |s|, 0);
    PartialIsXor(q, x, y, s, |s|, 0);
  }

  /** Whether some column of some row of an `n`-row sprite lands on pixel `k`. */
  predicate Covers(x: u8, y: u8, n: nat, k: nat)
    requires Fits(x, y, n)
  {
    exists i, j | 0 <= i < n && 0 <= j < 8 :: Target(x, y, i, j) == k
  }

  lemma {:induction false} PartialUntouched(p: seq<bool>, x: u8, y: u8, s: seq<u8>, i: nat, j: nat, k: nat)
    requires |p| == PIXELS && Fits(x, y, |s|)
    requires j <= 8 && (i < |s| || (i == |s| && j == 0))
    requires k < PIXELS && !Covers(x, y, |s|, k)
    ensures Partial(p, x, y, s, i, j).0[k] == p[k]
    decreases i, j
  {
    if j == 0 {
      if i > 0 {
        PartialUntouched(p, x, y, s, i - 1, 8, k);
      }
    } else {
      PartialUntouched(p, x, y, s, i, j - 1, k);
      assert Target(x, y, i, j - 1) != k;
    }
  }

  /** Pixels no part of the sprite lands on keep their value. */
  lemma DrawLeavesOthers(p: seq<bool>, x: u8, y: u8, s: seq<u8>, k: nat)
    requires |p| == PIXELS && Fits(x, y, |s|)
    requires k < PIXELS && !Covers(x, y, |s|, k)
    ensures DrawOnto(p, x, y, s).value.0[k] == p[k]
  {
    PartialUntouched(p, x, y, s, |s|, 0, k);
  }

  /** A sprite of at most 32 rows never lands twice on the same pixel. */
  lemma TargetInjective(x: u8, y: u8, n: nat, i1: nat, j1: nat, i2: nat, j2: nat)
    requires Fits(x, y, n) && n <= HEIGHT
    requires i1 < n && i2 < n && j1 < 8 && j2 < 8
    ensures Target(x, y, i1, j1) == Target(x, y, i2, j2) ==> i1 == i2 && j1 == j2
  {
    if Target(x, y, i1, j1) == Target(x, y, i2, j2) {
      TargetCoordinates(x, y, i1, j1);
      TargetCoordinates(x, y, i2, j2);
      ModClose(x + j1, x + j2, WIDTH);
      ModClose(y + i1, y + i2, HEIGHT);
    }
  }

  /** The column and row of the pixel that step `(i, j)` of a short sprite
      lands on. */
  lemma TargetCoordinates(x: u8, y: u8, i: nat, j: nat)
    requires i < 0x100 && x + j < 0x100 && y + i < 0x100
    ensures Target(x, y, i, j) % WIDTH == (x + j) % WIDTH
    ensures Target(x, y, i, j) / WIDTH == (y + i) % HEIGHT
  {
    RowNumber(i);
  }

  /** Two values less than `m` apart with the same remainder are equal. */
  lemma ModClose(a: nat, b: nat, m: nat)
    requires 0 < m && a < b + m && b < a + m && a % m == b % m
    ensures a == b
  {
    var k := a / m - b / m;
    assert m * k == a - b;
    if k >= 1 { MulAtLeast(m, k); assert false; }
    if -k >= 1 { MulAtLeast(m, -k); assert false; }
  }

  /** Step `(i2, j2)` comes before step `(i, j)`. */
  predicate Before(i2: nat, j2: nat, i: nat, j: nat) {
    i2 < i || (i2 == i && j2 < j)
  }

  /** Once the loops reach `(i, j)`, the pixel step `(i2, j2)` lands on has
      been XOR-ed with its bit exactly when that step came earlier (for at
      most 32 rows, where no two steps share a pixel). */
  lemma {:induction false} PartialAt(p: seq<bool>, x: u8, y: u8, s: seq<u8>, i: nat, j: nat, i2: nat, j2: nat)
    requires |p| == PIXELS && Fits(x, y, |s|) && |s| <= HEIGHT
    requires j <= 8 && (i < |s| || (i == |s| && j == 0))
    requires i2 < |s| && j2 < 8
    ensures var t := Target(x, y, i2, j2);
      Partial(p, x, y, s, i, j).0[t] == if Before(i2, j2, i, j) then p[t] != SpriteBit(s[i2], j2) else p[t]
    decreases i, j
  {
    if j == 0 {
      if i > 0 {
        PartialAt(p, x, y, s, i - 1, 8, i2, j2);
      }
    } else {
      PartialAt(p, x, y, s, i, j - 1, i2, j2);
      TargetInjective(x, y, |s|, i, j - 1, i2, j2);
    }
  }

  /** Step `(i2, j2)` draws a set bit onto a lit pixel of `p`. */
  predicate Hit(p: seq<bool>, x: u8, y: u8, s: seq<u8>, i2: nat, j2: nat)
    requires |p| == PIXELS && Fits(x, y, |s|) && i2 < |s| && j2 < 8
  {
    SpriteBit(s[i2], j2) && p[Target(x, y, i2, j2)]
  }

  /** Some set bit among the steps before `(i, j)` lands on a lit pixel of `p`. */
  predicate HitsLit(p: seq<bool>, x: u8, y: u8, s: seq<u8>, i: nat, j: nat)
    requires |p| == PIXELS && Fits(x, y, |s|)
  {
    exists i2, j2 | 0 <= i2 < |s| && 0 <= j2 < 8 && Before(i2, j2, i, j) :: Hit(p, x, y, s, i2, j2)
  }

  lemma HitsLitNewRow(p: seq<bool>, x: u8, y: u8, s: seq<u8>, i: nat)
    requires |p| == PIXELS && Fits(x, y, |s|) && 0 < i
    ensures HitsLit(p, x, y, s, i - 1, 8) == HitsLit(p, x, y, s, i, 0)
  {
    assert forall i2: nat, j2: nat | j2 < 8 :: Before(i2, j2, i - 1, 8) == Before(i2, j2, i, 0);
  }

  lemma HitsLitNext(p: seq<bool>, x: u8, y: u8, s: seq<u8>, i: nat, j: nat)
    requires |p| == PIXELS && Fits(x, y, |s|) && i < |s| && 0 < j <= 8
    ensures HitsLit(p, x, y, s, i, j) == (HitsLit(p, x, y, s, i, j - 1) || Hit(p, x, y, s, i, j - 1))
  {
    if HitsLit(p, x, y, s, i, j) {
      HitsLitSplit(p, x, y, s, i, j);
    }
    if HitsLit(p, x, y, s, i, j - 1) || Hit(p, x, y, s, i, j - 1) {
      HitsLitGrow(p, x, y, s, i, j);
    }
  }

  /** A hit before `(i, j)` is a hit before `(i, j - 1)` or at it. */
  lemma HitsLitSplit(p: seq<bool>, x: u8, y: u8, s: seq<u8>, i: nat, j: nat)
    requires |p| == PIXELS && Fits(x, y, |s|) && i < |s| && 0 < j <= 8
    requires HitsLit(p, x, y, s, i, j)
    ensures HitsLit(p, x, y, s, i, j - 1) || Hit(p, x, y, s, i, j - 1)
  {
    var i2, j2 :| 0 <= i2 < |s| && 0 <= j2 < 8 && Before(i2, j2, i, j) && Hit(p, x, y, s, i2, j2);
    if Before(i2, j2, i, j - 1) {
      assert HitsLit(p, x, y, s, i, j - 1);
    } else {
      assert i2 == i && j2 == j - 1;
    }
  }

  /** A hit before `(i, j - 1)` or at it is a hit before `(i, j)`. */
  lemma HitsLitGrow(p: seq<bool>, x: u8, y: u8, s: seq<u8>, i: nat, j: nat)
    requires |p| == PIXELS && Fits(x, y, |s|) && i < |s| && 0 < j <= 8
    requires HitsLit(p, x, y, s, i, j - 1) || Hit(p, x, y, s, i, j - 1)
    ensures HitsLit(p, x, y, s, i, j)
  {
    if Hit(p, x, y, s, i, j - 1) {
      assert Before(i, j - 1, i, j);
    } else {
      var i2, j2 :| 0 <= i2 < |s| && 0 <= j2 < 8 && Before(i2, j2, i, j - 1) && Hit(p, x, y, s, i2, j2);
      assert Before(i2, j2, i, j);
    }
  }

  lemma {:induction false} PartialCollision(p: seq<bool>, x: u8, y: u8, s: seq<u8>, i: nat, j: nat)
    requires |p| == PIXELS && Fits(x, y, |s|) && |s| <= HEIGHT
    requires j <= 8 && (i < |s| || (i == |s| && j == 0))
    ensures Partial(p, x, y, s, i, j).1 <==> HitsLit(p, x, y, s, i, j)
    decreases i, j
  {
    if j == 0 {
      if i > 0 {
        PartialCollision(p, x, y, s, i - 1, 8);
        HitsLitNewRow(p, x, y, s, i);
      }
    } else {
      PartialCollision(p, x, y, s, i, j - 1);
      PartialAt(p, x, y, s, i, j - 1, i, j - 1);
      HitsLitNext(p, x, y, s, i, j);
    }
  }

  /** For a sprite of at most 32 rows, each pixel it lands on is XOR-ed
      with the sprite's bit. */
  lemma DrawSmallPixels(p: seq<bool>, x: u8, y: u8, s: seq<u8>)
    requires |p| == PIXELS && Fits(x, y, |s|) && |s| <= HEIGHT
    ensures forall i, j | 0 <= i < |s| && 0 <= j < 8 ::
      DrawOnto(p, x, y, s).value.0[Target(x, y, i, j)] == (p[Target(x, y, i, j)] != SpriteBit(s[i], j))
  {
    forall i, j | 0 <= i < |s| && 0 <= j < 8
      ensures Partial(p, x, y, s, |s|, 0).0[Target(x, y, i, j)] == (p[Target(x, y, i, j)] != SpriteBit(s[i], j))
    {
      PartialAt(p, x, y, s, |s|, 0, i, j);
    }
  }

  /** For a sprite of at most 32 rows, VF becomes 1 exactly when a set bit
      of the sprite meets a lit pixel. */
  lemma DrawSmallCollision(p: seq<bool>, x: u8, y: u8, s: seq<u8>)
    requires |p| == PIXELS && Fits(x, y, |s|) && |s| <= HEIGHT
    ensures DrawOnto(p, x, y, s).value.1 == 1 <==>
      exists i, j | 0 <= i < |s| && 0 <= j < 8 :: SpriteBit(s[i], j) && p[Target(x, y, i, j)]
  {
    forall i, j | 0 <= i < |s| && 0 <= j < 8
      ensures Before(i, j, |s|, 0)
      ensures Hit(p, x, y, s, i, j) == (SpriteBit(s[i], j) && p[Target(x, y, i, j)])
    {
    }
    PartialCollision(p, x, y, s, |s|, 0);
  }

  /** Step `(i2, j2)` draws a set bit onto a pixel that is lit when the
      step comes, so that pixel goes dark. */
  predicate TurnsOff(p: seq<bool>, x: u8, y: u8, s: seq<u8>, i2: nat, j2: nat)
    requires |p| == PIXELS && Fits(x, y, |s|) && i2 < |s| && j2 < 8
  {
    Hit(Partial(p, x, y, s, i2, j2).0, x, y, s, i2, j2)
  }

  /** Some step before `(i, j)` turns a lit pixel off. */
  predicate TurnsOffBefore(p: seq<bool>, x: u8, y: u8, s: seq<u8>, i: nat, j: nat)
    requires |p| == PIXELS && Fits(x, y, |s|)
  {
    exists i2, j2 | 0 <= i2 < |s| && 0 <= j2 < 8 && Before(i2, j2, i, j) :: TurnsOff(p, x, y, s, i2, j2)
  }

  /** For a sprite of any height, after any prefix of the loops, the
      collision flag holds exactly when an earlier step turned a lit pixel
      off. */
  lemma PartialTurnsOff(p: seq<bool>, x: u8, y: u8, s: seq<u8>, i: nat, j: nat)
    requires |p| == PIXELS && Fits(x, y, |s|)
    requires j <= 8 && (i < |s| || (i == |s| && j == 0))
    ensures Partial(p, x, y, s, i, j).1 <==> TurnsOffBefore(p, x, y, s, i, j)
  {
    if Partial(p, x, y, s, i, j).1 {
      var i2, j2 := TurnsOffWitness(p, x, y, s, i, j);
    }
    if TurnsOffBefore(p, x, y, s, i, j) {
      var i2, j2 :| 0 <= i2 < |s| && 0 <= j2 < 8 && Before(i2, j2, i, j) && TurnsOff(p, x, y, s, i2, j2);
      FlagKept(p, x, y, s, i, j, i2, j2);
    }
  }

  /** A set flag was set by some earlier step that turned a lit pixel off. */
  lemma {:induction false} TurnsOffWitness(p: seq<bool>, x: u8, y: u8, s: seq<u8>, i: nat, j: nat)
      returns (i2: nat, j2: nat)
    requires |p| == PIXELS && Fits(x, y, |s|)
    requires j <= 8 && (i < |s| || (i == |s| && j == 0))
    requires Partial(p, x, y, s, i, j).1
    ensures i2 < |s| && j2 < 8 && Before(i2, j2, i, j) && TurnsOff(p, x, y, s, i2, j2)
    decreases i, j
  {
    if j == 0 {
      i2, j2 := TurnsOffWitness(p, x, y, s, i - 1, 8);
    } else if Partial(p, x, y, s, i, j - 1).1 {
      i2, j2 := TurnsOffWitness(p, x, y, s, i, j - 1);
    } else {
      i2, j2 := i, j - 1;
    }
  }

  /** Once a step has turned a lit pixel off, the flag stays set. */
  lemma FlagKept(p: seq<bool>, x: u8, y: u8, s: seq<u8>, i: nat, j: nat, i2: nat, j2: nat)
    requires |p| == PIXELS && Fits(x, y, |s|)
    requires j <= 8 && (i < |s| || (i == |s| && j == 0))
    requires i2 < |s| && j2 < 8 && Before(i2, j2, i, j) && TurnsOff(p, x, y, s, i2, j2)
    ensures Partial(p, x, y, s, i, j).1
  {
    var q := Partial(p, x, y, s, i2, j2);
    assert Partial(p, x, y, s, i2, j2 + 1).1 == (q.1 || TurnsOff(p, x, y, s, i2, j2));
    FlagMonotone(p, x, y, s, i, j, i2, j2 + 1);
  }

  /** The collision flag, once set, is set at every later step. */
  lemma {:induction false} FlagMonotone(p: seq<bool>, x: u8, y: u8, s: seq<u8>, i: nat, j: nat, i1: nat, j1: nat)
    requires |p| == PIXELS && Fits(x, y, |s|)
    requires j <= 8 && (i < |s| || (i == |s| && j == 0))
    requires i1 < |s| && j1 <= 8 && Partial(p, x, y, s, i1, j1).1
    requires i1 < i || (i1 == i && j1 <= j)
    ensures Partial(p, x, y, s, i, j).1
    decreases i, j
  {
    if i1 == i && j1 == j {
    } else if j == 0 {
      FlagMonotone(p, x, y, s, i - 1, 8, i1, j1);
      FlagNewRow(p, x, y, s, i);
    } else {
      FlagMonotone(p, x, y, s, i, j - 1, i1, j1);
      FlagStep(p, x, y, s, i, j);
    }
  }

  /** Row `i` starts where row `i - 1` ends. */
  lemma FlagNewRow(p: seq<bool>, x: u8, y: u8, s: seq<u8>, i: nat)
    requires |p| == PIXELS && Fits(x, y, |s|) && 0 < i <= |s|
    ensures Partial(p, x, y, s, i, 0) == Partial(p, x, y, s, i - 1, 8)
  {
  }

  /** One column step never clears the collision flag. */
  lemma FlagStep(p: seq<bool>, x: u8, y: u8, s: seq<u8>, i: nat, j: nat)
    requires |p| == PIXELS && Fits(x, y, |s|) && i < |s| && 0 < j <= 8
    ensures Partial(p, x, y, s, i, j - 1).1 ==> Partial(p, x, y, s, i, j).1
  {
  }

  /** For a sprite of any height, VF becomes 1 exactly when some step of
      the loops turns a lit pixel off. */
  lemma DrawCollision(p: seq<bool>, x: u8, y: u8, s: seq<u8>)
    requires |p| == PIXELS && Fits(x, y, |s|)
    ensures DrawOnto(p, x, y, s).value.1 == 1 <==>
      exists i, j | 0 <= i < |s| && 0 <= j < 8 :: TurnsOff(p, x, y, s, i, j)
  {
    assert forall i: nat, j: nat | i < |s| :: Before(i, j, |s|, 0);
    PartialTurnsOff(p, x, y, s, |s|, 0);
  }

  /** Drawing onto a blank screen never reports a collision and turns on
      exactly the sprite's set bits. */
  lemma DrawOnBlank(x: u8, y: u8, s: seq<u8>)
    requires Fits(x, y, |s|) && |s| <= HEIGHT
    ensures var r := DrawOnto(Blank(), x, y, s).value;
      && r.1 == 0
      && forall i, j | 0 <= i < |s| && 0 <= j < 8 :: r.0[Target(x, y, i, j)] == SpriteBit(s[i], j)
  {
    DrawSmallPixels(Blank(), x, y, s);
    DrawSmallCollision(Blank(), x, y, s);
  }

  /** Drawing a sprite twice onto a blank screen: the second draw reports a
      collision exactly when the sprite has a set bit, and the screen is
      blank again. */
  lemma DrawTwiceOnBlank(x: u8, y: u8, s: seq<u8>)
    requires Fits(x, y, |s|) && |s| <= HEIGHT
    ensures var q := DrawOnto(Blank(), x, y, s).value.0;
      && DrawOnto(q, x, y, s).value.0 == Blank()
      && (DrawOnto(q, x, y, s).value.1 == 1 <==>
            exists i, j | 0 <= i < |s| && 0 <= j < 8 :: SpriteBit(s[i], j))
  {
    var q := DrawOnto(Blank(), x, y, s).value.0;
    DrawOnBlank(x, y, s);
    DrawSmallCollision(q, x, y, s);
    DrawTwiceRestores(Blank(), x, y, s);
  }

  /** Columns past the right edge wrap to column 0 and rows past the bottom
      wrap to row 0. */
  lemma WrapAround()
    ensures Target(63, 31, 0, 0) == 31 * WIDTH + 63
    ensures forall j | 1 <= j < 8 :: Target(63, 31, 0, j) == 31 * WIDTH + (j - 1)
    ensures Target(0, 31, 1, 0) == 0
  {
  }

  /** `Display`: the pixel vector, updated in place. */
  class Display {
    var pixels: array<bool>

    ghost predicate Valid()
      reads this
    {
      pixels.Length == PIXELS
    }

    function Pixels(): (p: seq<bool>)
      reads this, pixels
      requires Valid()
      ensures |p| == PIXELS
    {
      pixels[..]
    }

    /** `Display::new`: a blank 64x32 screen. */
    constructor ()
      ensures Valid() && fresh(pixels)
      ensures Pixels() == Blank()
    {
      pixels := new bool[PIXELS](_ => false);
    }

    /** `clear`: a fresh blank vector, then every pixel set off once more. */
    method Clear()
      modifies this
      ensures Valid() && fresh(pixels)
      ensures Pixels() == Blank()
    {
      pixels := new bool[PIXELS](_ => false);
      for k := 0 to PIXELS
        invariant fresh(pixels) && pixels.Length == PIXELS
        invariant forall m | 0 <= m < PIXELS :: !pixels[m]
      {
        pixels[k] := false;
      }
    }

    /** `draw`: XOR the sprite onto the screen at (`startX`, `startY`); the
        result is VF's new value. */
    method Draw(startX: u8, startY: u8, sprite: seq<u8>) returns (r: Result<u8>)
      requires Valid()
      modifies pixels
      ensures Valid()
      ensures var d := DrawOnto(old(Pixels()), startX, startY, sprite);
        && (r.Ok? <==> d.Ok?)
        && (r.Ok? ==> r.value == d.value.1 && Pixels() == d.value.0)
        && (r.Err? ==> r.error == d.error)
    {
      ghost var p0 := old(Pixels());
      var collision := false;
      var i := 0;
      while i < |sprite|
        invariant Valid() && 0 <= i <= |sprite|
        invariant i > 0 ==> startX + 7 < 0x100
        invariant startY + Min(i, 0x100) - 1 < 0x100
        invariant Fits(startX, startY, |sprite|) ==>
          (pixels[..], collision) == Partial(p0, startX, startY, sprite, i, 0)
      {
        var row := ByteAsBoolArray(sprite[i]);
        RowNumber(i);
        if startY + i % 0x100 >= 0x100 {
          return Err(ArithmeticOverflow);
        }
        var y: u8 := startY + i % 0x100;
        collision :- DrawRow(startX, y, row, collision, sprite[i]);
        if Fits(startX, startY, |sprite|) {
          PartialRow(p0, startX, startY, sprite, i, 8, y);
        }
        i := i + 1;
      }
      r := Ok(if collision then 1 else 0);
    }

    /** The inner loop of `draw`: the eight columns of a sprite row `b`,
        drawn on screen row `y`; a column past 255 is the `start_x + j`
        overflow panic.  The result is the collision flag so far. */
    method DrawRow(startX: u8, y: u8, row: array<bool>, collision: bool, ghost b: u8)
      returns (r: Result<bool>)
      requires Valid() && row.Length == 8 && row != pixels
      requires forall m | 0 <= m < 8 :: row[m] == SpriteBit(b, m)
      modifies pixels
      ensures Valid()
      ensures r.Ok? <==> startX + 7 < 0x100
      ensures r.Err? ==> r.error == ArithmeticOverflow
      ensures r.Ok? ==> (Pixels(), r.value) == RowPrefix((old(Pixels()), collision), startX, y, b, 8)
    {
      ghost var p0 := Pixels();
      var flag := collision;
      for j := 0 to 8
        invariant j > 0 ==> startX + j - 1 < 0x100
        invariant (pixels[..], flag) == RowPrefix((p0, collision), startX, y, b, j)
      {
        if startX + j >= 0x100 {
          return Err(ArithmeticOverflow);
        }
        var x: u8 := startX + j;
        var idx := GetIndex(x, y);
        var lit := pixels[idx] != row[j];
        if pixels[idx] && !lit {
          flag := true;
        }
        pixels[idx] := lit;
      }
      r := Ok(flag);
    }
  }
}
