/**
 The lane functions of the permutation against the step mappings of section 3.2 of
 FIPS 202, which are stated on single bits A[x, y, z].
 */
module KeccakSteps {
  import opened Bits
  import opened Keccak

  /** A state array as a function of its three coordinates. */
  type Cube = (int, int, int) -> bool

  predicate Inside(x: int, y: int, z: int) { 0 <= x < 5 && 0 <= y < 5 && 0 <= z < WIDTH }

  /** Bit z of the lane at column x and row y. */
  ghost function CubeOf(s: seq<nat>): Cube
    requires |s| == LANES
  {
    (x, y, z) => Inside(x, y, z) && Bit(s[Index(x, y)], z)
  }

  ghost predicate Same(a: Cube, b: Cube) { forall x, y, z :: Inside(x, y, z) ==> a(x, y, z) == b(x, y, z) }

  // ---- the step mappings of the standard -----------------------------------

  /** The parity of a column: C[x, z] of section 3.2.1. */
  function ColumnParity(a: Cube, x: int, z: int): bool {
    (((a(x, 0, z) != a(x, 1, z)) != a(x, 2, z)) != a(x, 3, z)) != a(x, 4, z)
  }

  /** The position z - k along a lane, wrapping around. */
  function Turned(z: int, k: int): (r: int)
    ensures 0 <= r < 64
  {
    (z + 64 - k) % 64
  }

  function ThetaStep(a: Cube): Cube {
    (x, y, z) => a(x, y, z) != (ColumnParity(a, Mod5(x + 4), z) != ColumnParity(a, Mod5(x + 1), Turned(z, 1)))
  }

  /** The walk of section 3.2.2 over the lanes other than the first, from (1, 0). */
  function Walk(t: nat): (int, int) {
    if t == 0 then (1, 0) else (Walk(t - 1).1, (2 * Walk(t - 1).0 + 3 * Walk(t - 1).1) % 5)
  }

  function Triangle(t: nat): nat { (t + 1) * (t + 2) / 2 }

  /** How far rho turns a lane: the walk reaches it at some step `t`. */
  ghost function Offset(x: int, y: int): nat
    requires 0 <= x < 5 && 0 <= y < 5
  {
    if x == 0 && y == 0 then 0
    else
      WalkReaches(x, y);
      var t :| 0 <= t < 24 && Walk(t) == (x, y);
      Triangle(t) % 64
  }

  ghost function RhoStep(a: Cube): Cube {
    (x, y, z) => Inside(x, y, z) && a(x, y, Turned(z, Offset(x, y)))
  }

  /** The column pi takes a lane from. */
  function Diagonal(x: int, y: int): (d: nat)
    ensures d < 5
  {
    Mod5(x + 3 * y)
  }

  function PiStep(a: Cube): Cube { (x, y, z) => a(Diagonal(x, y), x, z) }

  function ChiStep(a: Cube): Cube {
    (x, y, z) => a(x, y, z) != (!a(Mod5(x + 1), y, z) && a(Mod5(x + 2), y, z))
  }

  /** The register of Algorithm 5. */
  datatype Register = Register(
    r0: bool, r1: bool, r2: bool, r3: bool, r4: bool, r5: bool, r6: bool, r7: bool)

  function Advance(r: Register): Register {
    Register(r.r7, r.r0, r.r1, r.r2, r.r3 != r.r7, r.r4 != r.r7, r.r5 != r.r7, r.r6)
  }

  function After(r: Register, n: nat): Register { if n == 0 then r else Advance(After(r, n - 1)) }

  /** rc(t); the register's period is 255. */
  function Rc(t: nat): bool { After(Register(true, false, false, false, false, false, false, false), t % 255).r0 }

  /** The bit z of the round constant: only the positions 2 to the power j, minus one, are used. */
  function RcBit(round: nat, z: int): bool {
    if z == 0 then Rc(7 * round)
    else if z == 1 then Rc(7 * round + 1)
    else if z == 3 then Rc(7 * round + 2)
    else if z == 7 then Rc(7 * round + 3)
    else if z == 15 then Rc(7 * round + 4)
    else if z == 31 then Rc(7 * round + 5)
    else if z == 63 then Rc(7 * round + 6)
    else false
  }

  function IotaStep(a: Cube, round: nat): Cube {
    (x, y, z) => if x == 0 && y == 0 then a(x, y, z) != RcBit(round, z) else a(x, y, z)
  }

  // ---- rho's offsets --------------------------------------------------------

  /** At which step the walk reaches each lane. */
  const REACHED: seq<nat> := [0, 0, 18, 6, 12, 7, 23, 2, 9, 22, 1, 3, 17, 16, 20, 13, 8, 4, 5, 15, 19, 10, 21, 14, 11]

  const PATH: seq<(int, int)> := [
    (1, 0), (0, 2), (2, 1), (1, 2), (2, 3), (3, 3), (3, 0), (0, 1), (1, 3), (3, 1), (1, 4), (4, 4),
    (4, 0), (0, 3), (3, 4), (4, 3), (3, 2), (2, 2), (2, 0), (0, 4), (4, 2), (2, 4), (4, 1), (1, 1)]

  lemma {:induction false} WalkFollowsPath(t: nat)
    requires t < 24
    ensures Walk(t) == PATH[t]
  {
    if t > 0 {
      WalkFollowsPath(t - 1);
      PathSteps(t - 1);
    }
  }

  lemma PathSteps(t: nat)
    requires t < 23
    ensures PATH[t + 1] == (PATH[t].1, (2 * PATH[t].0 + 3 * PATH[t].1) % 5)
  {}

  lemma WalkReaches(x: int, y: int)
    requires 0 <= x < 5 && 0 <= y < 5 && (x != 0 || y != 0)
    ensures exists t :: 0 <= t < 24 && Walk(t) == (x, y)
  {
    var t := REACHED[x + 5 * y];
    assert PATH[t] == (x, y);
    WalkFollowsPath(t);
  }

  lemma EarlyOffsets(t: nat)
    requires t < 8
    ensures var (x, y) := PATH[t]; 0 <= x < 5 && 0 <= y < 5 && Rotation(Index(x, y)) == Triangle(t) % 64
  {
    match t
    case 0 => case 1 => case 2 => case 3 => case 4 => case 5 => case 6 => case _ =>
  }

  lemma MiddleOffsets(t: nat)
    requires 8 <= t < 16
    ensures var (x, y) := PATH[t]; 0 <= x < 5 && 0 <= y < 5 && Rotation(Index(x, y)) == Triangle(t) % 64
  {
    match t
    case 8 => case 9 => case 10 => case 11 => case 12 => case 13 => case 14 => case _ =>
  }

  lemma LateOffsets(t: nat)
    requires 16 <= t < 24
    ensures var (x, y) := PATH[t]; 0 <= x < 5 && 0 <= y < 5 && Rotation(Index(x, y)) == Triangle(t) % 64
  {
    match t
    case 16 => case 17 => case 18 => case 19 => case 20 => case 21 => case 22 => case _ =>
  }

  lemma PathOffsets(t: nat)
    requires t < 24
    ensures var (x, y) := PATH[t]; 0 <= x < 5 && 0 <= y < 5 && Rotation(Index(x, y)) == Triangle(t) % 64
  {
    hide Rotation, Triangle;
    if t < 8 { EarlyOffsets(t); } else if t < 16 { MiddleOffsets(t); } else { LateOffsets(t); }
  }

  /** The table of rotations holds the offsets of the standard. */
  lemma RotationsAreOffsets(x: int, y: int)
    requires 0 <= x < 5 && 0 <= y < 5
    ensures Rotation(Index(x, y)) == Offset(x, y)
  {
    if x != 0 || y != 0 {
      WalkReaches(x, y);
      var t :| 0 <= t < 24 && Walk(t) == (x, y) && Offset(x, y) == Triangle(t) % 64;
      WalkFollowsPath(t);
      PathOffsets(t);
    }
  }

  // ---- iota's constants -----------------------------------------------------

  const START := Register(true, false, false, false, false, false, false, false)

  /** The register at the start of each round's seven steps. */
  function RegisterAt(n: nat): Register {
    match n
    case 0 => Register(true, false, false, false, false, false, false, false)
    case 1 => Register(false, false, false, false, false, false, false, true)
    case 2 => Register(false, false, false, true, true, false, true, true)
    case 3 => Register(false, true, false, true, true, false, false, false)
    case 4 => Register(true, true, true, true, true, false, true, true)
    case 5 => Register(true, false, false, true, false, false, false, false)
    case 6 => Register(true, false, true, false, true, true, false, false)
    case 7 => Register(true, true, true, true, false, false, true, false)
    case 8 => Register(false, true, false, true, false, false, true, true)
    case 9 => Register(false, false, false, false, true, true, true, false)
    case 10 => Register(true, false, false, false, false, false, true, false)
    case 11 => Register(false, false, true, true, false, true, true, true)
    case 12 => Register(true, false, true, false, true, false, true, true)
    case 13 => Register(true, false, true, true, false, false, true, true)
    case 14 => Register(true, true, false, false, false, true, true, false)
    case 15 => Register(true, true, false, true, false, true, false, true)
    case 16 => Register(false, true, false, true, false, true, false, true)
    case 17 => Register(false, true, false, true, false, true, false, false)
    case 18 => Register(false, true, false, false, true, true, true, true)
    case 19 => Register(false, false, false, true, false, true, true, true)
    case 20 => Register(true, true, true, false, true, true, false, false)
    case 21 => Register(false, true, true, true, true, true, false, false)
    case 22 => Register(true, true, false, true, false, false, false, false)
    case _ => Register(false, false, true, false, false, false, true, false)
  }

  lemma {:induction false} AfterMore(r: Register, m: nat, n: nat)
    ensures After(r, m + n) == After(After(r, m), n)
  {
    if n > 0 { AfterMore(r, m, n - 1); }
  }

  /** Seven steps at once, bit by bit. */
  function Seven(r: Register): Register {
    Register((r.r1 != r.r3) != r.r4, (r.r2 != r.r4) != r.r5, (r.r3 != r.r5) != r.r6, (r.r4 != r.r6) != r.r7,
             (((r.r1 != r.r3) != r.r4) != r.r5) != r.r7, (((r.r1 != r.r2) != r.r3) != r.r5) != r.r6, ((r.r1 != r.r2) != r.r6) != r.r7, ((r.r0 != r.r2) != r.r3) != r.r7)
  }

  lemma AfterFew(r: Register)
    ensures After(r, 0) == r && After(r, 1) == Advance(r) && After(r, 2) == Advance(Advance(r))
    ensures After(r, 3) == Advance(Advance(Advance(r)))
  {
    hide Advance;
    assert After(r, 1) == Advance(After(r, 0));
    assert After(r, 2) == Advance(After(r, 1));
  }

  function Three(r: Register): Register {
    Register(r.r5 != r.r7, r.r6, r.r7, r.r0, (r.r1 != r.r5) != r.r7, ((r.r2 != r.r5) != r.r6) != r.r7, (r.r3 != r.r5) != r.r6, (r.r4 != r.r6) != r.r7)
  }

  function Four(r: Register): Register {
    Register((r.r4 != r.r6) != r.r7, r.r5 != r.r7, r.r6, r.r7, ((r.r0 != r.r4) != r.r6) != r.r7, ((r.r1 != r.r4) != r.r5) != r.r6, (r.r2 != r.r4) != r.r5, (r.r3 != r.r5) != r.r6)
  }

  lemma SevenIsAdvances(r: Register)
    ensures Seven(r) == Advance(Advance(Advance(Advance(Advance(Advance(Advance(r)))))))
  {
    ThreeAndFour(r);
    ThreeAndFour(Four(r));
    assert Seven(r) == Three(Four(r));
    hide *;
  }

  lemma ThreeAndFour(r: Register)
    ensures Three(r) == Advance(Advance(Advance(r))) && Four(r) == Advance(Advance(Advance(Advance(r))))
  {}

  lemma AfterSeven(r: Register)
    ensures After(r, 7) == Seven(r)
  {
    SevenIsAdvances(r);
    AfterMore(r, 3, 4);
    AfterMore(After(r, 3), 2, 2);
    AfterFew(r);
    AfterFew(After(r, 3));
    AfterFew(After(After(r, 3), 2));
    hide *;
  }

  lemma RegistersStep(n: nat)
    requires n < 23
    ensures Seven(RegisterAt(n)) == RegisterAt(n + 1)
  {
    hide Seven, RegisterAt;
    if n < 4 {
      FirstRegisters(n);
    } else if n < 8 {
      SecondRegisters(n);
    } else if n < 12 {
      ThirdRegisters(n);
    } else if n < 16 {
      FourthRegisters(n);
    } else if n < 20 {
      FifthRegisters(n);
    } else {
      LastRegisters(n);
    }
  }

  lemma FirstRegisters(n: nat)
    requires 0 <= n < 4
    ensures Seven(RegisterAt(n)) == RegisterAt(n + 1)
  {}

  lemma SecondRegisters(n: nat)
    requires 4 <= n < 8
    ensures Seven(RegisterAt(n)) == RegisterAt(n + 1)
  {}

  lemma ThirdRegisters(n: nat)
    requires 8 <= n < 12
    ensures Seven(RegisterAt(n)) == RegisterAt(n + 1)
  {}

  lemma FourthRegisters(n: nat)
    requires 12 <= n < 16
    ensures Seven(RegisterAt(n)) == RegisterAt(n + 1)
  {}

  lemma FifthRegisters(n: nat)
    requires 16 <= n < 20
    ensures Seven(RegisterAt(n)) == RegisterAt(n + 1)
  {}

  lemma LastRegisters(n: nat)
    requires 20 <= n < 23
    ensures Seven(RegisterAt(n)) == RegisterAt(n + 1)
  {}

  lemma {:induction false} RegisterOf(n: nat)
    requires n < ROUNDS
    ensures After(START, 7 * n) == RegisterAt(n)
  {
    if n > 0 {
      RegisterOf(n - 1);
      RegistersStep(n - 1);
      hide After;
      AfterMore(START, 7 * (n - 1), 7);
      AfterSeven(RegisterAt(n - 1));
      assert 7 * (n - 1) + 7 == 7 * n;
    }
  }

  /** The seven bits a register puts out, in order. */
  function Output(r: Register, j: nat): bool { After(r, j).r0 }

  function Weight(b: bool, w: nat): nat { if b then w else 0 }

  /** The word with those bits at the positions 2 to the power j, minus one. */
  function Word(r: Register): nat {
    Weight(Output(r, 0), 1) + Weight(Output(r, 1), 2) + Weight(Output(r, 2), 8) + Weight(Output(r, 3), 0x80)
    + Weight(Output(r, 4), 0x8000) + Weight(Output(r, 5), 0x8000_0000) + Weight(Output(r, 6), 0x8000_0000_0000_0000)
  }

  lemma ConstantIsWord(n: nat)
    requires n < ROUNDS
    ensures Constant(n) == Word(RegisterAt(n))
  {
    hide Constant, Word, RegisterAt;
    if n < 6 {
      FirstWords(n);
    } else if n < 12 {
      SecondWords(n);
    } else if n < 18 {
      ThirdWords(n);
    } else {
      LastWords(n);
    }
  }

  lemma FirstWords(n: nat)
    requires 0 <= n < 6
    ensures Constant(n) == Word(RegisterAt(n))
  {}

  lemma SecondWords(n: nat)
    requires 6 <= n < 12
    ensures Constant(n) == Word(RegisterAt(n))
  {}

  lemma ThirdWords(n: nat)
    requires 12 <= n < 18
    ensures Constant(n) == Word(RegisterAt(n))
  {}

  lemma LastWords(n: nat)
    requires 18 <= n < 24
    ensures Constant(n) == Word(RegisterAt(n))
  {}

  /** Setting one bit above the others adds its weight. */
  lemma {:induction false} BitAbove(a: nat, k: nat, b: bool, i: nat)
    requires a < Pow2(k)
    ensures Bit(a + Weight(b, Pow2(k)), i) == (Bit(a, i) || (b && i == k))
    ensures a + Weight(b, Pow2(k)) < Pow2(k + 1)
    decreases k
  {
    if k == 0 {
      if i > 0 { BitZero(i - 1); }
    } else if i > 0 {
      BitAbove(a / 2, k - 1, b, i - 1);
      assert (a + Weight(b, Pow2(k))) / 2 == a / 2 + Weight(b, Pow2(k - 1));
    } else {
      BitAbove(a / 2, k - 1, b, 0);
    }
  }

  lemma {:induction false} PowGrows(m: nat, n: nat)
    requires m <= n
    ensures Pow2(m) <= Pow2(n)
    decreases n - m
  {
    if m < n { PowGrows(m, n - 1); }
  }

  lemma Powers()
    ensures Pow2(0) == 1 && Pow2(1) == 2 && Pow2(3) == 8 && Pow2(7) == 0x80 && Pow2(15) == 0x8000
    ensures Pow2(31) == 0x8000_0000 && Pow2(63) == 0x8000_0000_0000_0000
  {
    assert Pow2(4) == 16;
    PowDouble(4, 16);
    PowDouble(8, 0x100);
    PowDouble(16, 0x1_0000);
    PowDouble(32, 0x1_0000_0000);
  }

  lemma WidenBound(a: nat, m: nat, n: nat)
    requires a < Pow2(m) && m <= n
    ensures a < Pow2(n)
  {
    PowGrows(m, n);
  }

  /** The bits of a word are the register's seven bits, at the positions the standard names. */
  lemma WordBits(r: Register, z: nat)
    ensures Bit(Word(r), z) ==
              ((z == 0 && Output(r, 0)) || (z == 1 && Output(r, 1)) || (z == 3 && Output(r, 2)) || (z == 7 && Output(r, 3))
               || (z == 15 && Output(r, 4)) || (z == 31 && Output(r, 5)) || (z == 63 && Output(r, 6)))
  {
    Powers();
    BitZero(z);
    hide Bit, Output, Weight, Pow2;
    BitAbove(0, 0, Output(r, 0), z);
    var w := Weight(Output(r, 0), Pow2(0));
    BitAbove(w, 1, Output(r, 1), z);
    w := w + Weight(Output(r, 1), Pow2(1));
    WidenBound(w, 2, 3);
    BitAbove(w, 3, Output(r, 2), z);
    w := w + Weight(Output(r, 2), Pow2(3));
    WidenBound(w, 4, 7);
    BitAbove(w, 7, Output(r, 3), z);
    w := w + Weight(Output(r, 3), Pow2(7));
    WidenBound(w, 8, 15);
    BitAbove(w, 15, Output(r, 4), z);
    w := w + Weight(Output(r, 4), Pow2(15));
    WidenBound(w, 16, 31);
    BitAbove(w, 31, Output(r, 5), z);
    w := w + Weight(Output(r, 5), Pow2(31));
    WidenBound(w, 32, 63);
    BitAbove(w, 63, Output(r, 6), z);
  }

  lemma OutputIsRc(n: nat, j: nat)
    requires n < ROUNDS && j < 7
    ensures Output(RegisterAt(n), j) == Rc(7 * n + j)
  {
    RegisterOf(n);
    hide RegisterAt;
    AfterMore(START, 7 * n, j);
    assert (7 * n + j) % 255 == 7 * n + j;
  }

  /** The table of round constants holds the bits the standard's register puts out. */
  lemma ConstantBits(n: nat, z: nat)
    requires n < ROUNDS && z < WIDTH
    ensures Bit(Constant(n), z) == RcBit(n, z)
  {
    ConstantIsWord(n);
    WordBits(RegisterAt(n), z);
    forall j | 0 <= j < 7 ensures Output(RegisterAt(n), j) == Rc(7 * n + j) { OutputIsRc(n, j); }
    hide Constant, RegisterAt, Word, Rc, Bit, Output;
  }

  // ---- each loop computes its step mapping ---------------------------------

  lemma ParityBits(s: seq<nat>, a: Cube, x: nat, z: nat)
    requires |s| == LANES && Same(a, CubeOf(s)) && x < 5 && z < WIDTH
    ensures Bit(Parity(s, x), z) == ColumnParity(a, x, z)
  {
    hide Bit, Xor;
    BitXor(s[x], s[x + 5], z);
    BitXor(Xor(s[x], s[x + 5]), s[x + 10], z);
    BitXor(Xor(Xor(s[x], s[x + 5]), s[x + 10]), s[x + 15], z);
    BitXor(Xor(Xor(Xor(s[x], s[x + 5]), s[x + 10]), s[x + 15]), s[x + 20], z);
    assert Inside(x, 0, z) && Inside(x, 1, z) && Inside(x, 2, z) && Inside(x, 3, z) && Inside(x, 4, z);
  }

  /** The bit of a cube is the bit of its lane. */
  lemma LaneBit(s: seq<nat>, a: Cube, x: nat, y: nat, z: nat)
    requires |s| == LANES && Same(a, CubeOf(s)) && x < 5 && y < 5 && z < WIDTH
    ensures a(x, y, z) == CubeOf(s)(x, y, z) == Bit(s[Index(x, y)], z)
  {
    assert Inside(x, y, z);
  }

  lemma DeltaBits(s: seq<nat>, x: nat, z: nat)
    requires IsState(s) && x < 5 && z < WIDTH
    ensures Bit(Delta(s, x), z) == (Bit(Parity(s, Mod5(x + 4)), z) != Bit(Parity(s, Mod5(x + 1)), Turned(z, 1)))
  {
    ParityFits(s, Mod5(x + 1));
    hide Bit, Xor, Parity, RotateLeft, Mod5;
    var p, q := Parity(s, Mod5(x + 4)), Parity(s, Mod5(x + 1));
    RotateLeftMovesBits(q, 1, z);
    BitXor(p, RotateLeft(q, 1), z);
  }

  lemma ThetaLaneBits(s: seq<nat>, x: nat, y: nat, z: nat)
    requires IsState(s) && x < 5 && y < 5 && z < WIDTH
    ensures Bit(Theta(s)[Index(x, y)], z) == (Bit(s[Index(x, y)], z) != Bit(Delta(s, x), z))
  {
    Positions();
    hide Bit, Xor, Delta, Index, Col;
    BitXor(s[Index(x, y)], Delta(s, x), z);
  }

  lemma ThetaBit(s: seq<nat>, a: Cube, x: nat, y: nat, z: nat)
    requires IsState(s) && Same(a, CubeOf(s)) && x < 5 && y < 5 && z < WIDTH
    ensures Bit(Theta(s)[Index(x, y)], z) == ThetaStep(a)(x, y, z)
  {
    hide Bit, Parity, Delta, ColumnParity, Index, CubeOf, Same, Theta, Mod5, Turned;
    ThetaLaneBits(s, x, y, z);
    DeltaBits(s, x, z);
    ParityBits(s, a, Mod5(x + 4), z);
    ParityBits(s, a, Mod5(x + 1), Turned(z, 1));
    LaneBit(s, a, x, y, z);
  }

  lemma ParityFits(s: seq<nat>, x: nat)
    requires IsState(s) && x < 5
    ensures Lane(Parity(s, x))
  {
    LimitIsPower();
    hide Xor, Pow2;
    XorFits(s[x], s[x + 5], WIDTH);
    XorFits(Xor(s[x], s[x + 5]), s[x + 10], WIDTH);
    XorFits(Xor(Xor(s[x], s[x + 5]), s[x + 10]), s[x + 15], WIDTH);
    XorFits(Xor(Xor(Xor(s[x], s[x + 5]), s[x + 10]), s[x + 15]), s[x + 20], WIDTH);
  }

  lemma RhoPiLaneBits(s: seq<nat>, x: nat, y: nat, z: nat)
    requires IsState(s) && x < 5 && y < 5 && z < WIDTH
    ensures var j := Index(Diagonal(x, y), x);
            Bit(RhoPi(s)[Index(x, y)], z) == Bit(s[j], Turned(z, Rotation(j)))
  {
    Positions();
    hide Bit, RotateLeft, Rotation, Index, Col, Row, Mod5;
    var j := Index(Mod5(x + 3 * y), x);
    RotateLeftMovesBits(s[j], Rotation(j), z);
  }

  lemma RhoBit(s: seq<nat>, a: Cube, x: nat, y: nat, z: nat)
    requires |s| == LANES && Same(a, CubeOf(s)) && x < 5 && y < 5 && z < WIDTH
    ensures RhoStep(a)(x, y, z) == Bit(s[Index(x, y)], Turned(z, Rotation(Index(x, y))))
  {
    hide Bit, Rotation, Offset, Index, CubeOf, Same, Turned;
    RotationsAreOffsets(x, y);
    LaneBit(s, a, x, y, Turned(z, Rotation(Index(x, y))));
    assert Inside(x, y, z);
  }

  lemma RhoPiBit(s: seq<nat>, a: Cube, x: nat, y: nat, z: nat)
    requires IsState(s) && Same(a, CubeOf(s)) && x < 5 && y < 5 && z < WIDTH
    ensures Bit(RhoPi(s)[Index(x, y)], z) == PiStep(RhoStep(a))(x, y, z)
  {
    hide Bit, Rotation, RhoStep, Index, CubeOf, Same, RhoPi, Turned, Diagonal;
    RhoPiLaneBits(s, x, y, z);
    RhoBit(s, a, Diagonal(x, y), x, z);
  }

  lemma ChiLaneBits(s: seq<nat>, x: nat, y: nat, z: nat)
    requires |s| == LANES && x < 5 && y < 5 && z < WIDTH
    ensures Bit(Chi(s)[Index(x, y)], z)
            == (Bit(s[Index(x, y)], z) != (!Bit(s[Index(Mod5(x + 1), y)], z) && Bit(s[Index(Mod5(x + 2), y)], z)))
  {
    Positions();
    hide Bit, Xor, And, Not, Index, Col, Row, Mod5;
    var i, u, v := Index(x, y), Index(Mod5(x + 1), y), Index(Mod5(x + 2), y);
    BitXor(s[i], And(Not(s[u]), s[v]), z);
    BitAnd(Not(s[u]), s[v], z);
    BitNot(s[u], z);
  }

  lemma ChiBit(s: seq<nat>, a: Cube, x: nat, y: nat, z: nat)
    requires |s| == LANES && Same(a, CubeOf(s)) && x < 5 && y < 5 && z < WIDTH
    ensures Bit(Chi(s)[Index(x, y)], z) == ChiStep(a)(x, y, z)
  {
    hide Bit, Index, CubeOf, Same, Chi, Mod5;
    ChiLaneBits(s, x, y, z);
    LaneBit(s, a, x, y, z);
    LaneBit(s, a, Mod5(x + 1), y, z);
    LaneBit(s, a, Mod5(x + 2), y, z);
  }

  lemma IotaBit(s: seq<nat>, a: Cube, n: nat, x: nat, y: nat, z: nat)
    requires |s| == LANES && Same(a, CubeOf(s)) && n < ROUNDS && x < 5 && y < 5 && z < WIDTH
    ensures CubeOf(Iota(s, Constant(n)))(x, y, z) == IotaStep(a, n)(x, y, z)
  {
    ConstantBits(n, z);
    BitXor(s[0], Constant(n), z);
    assert Inside(x, y, z);
    hide Bit, Xor, Constant, RcBit;
    assert Index(x, y) == 0 <==> x == 0 && y == 0;
  }

  // ---- rounds ---------------------------------------------------------------

  lemma ThetaFits(s: seq<nat>)
    requires IsState(s)
    ensures IsState(Theta(s))
  {
    LimitIsPower();
    hide Xor, Delta, Pow2;
    forall i | 0 <= i < LANES ensures Lane(Theta(s)[i]) {
      DeltaFits(s, Col(i));
      XorFits(s[i], Delta(s, Col(i)), WIDTH);
    }
  }

  lemma DeltaFits(s: seq<nat>, x: nat)
    requires IsState(s) && x < 5
    ensures Lane(Delta(s, x))
  {
    LimitIsPower();
    ParityFits(s, Mod5(x + 4));
    hide Xor, Parity, RotateLeft, Mod5, Pow2;
    RotationFits(Parity(s, Mod5(x + 1)), 1);
    XorFits(Parity(s, Mod5(x + 4)), RotateLeft(Parity(s, Mod5(x + 1)), 1), WIDTH);
  }

  lemma RhoPiFits(s: seq<nat>)
    requires |s| == LANES
    ensures IsState(RhoPi(s))
  {
    hide RotateLeft, Rotation, Source;
    forall i | 0 <= i < LANES ensures Lane(RhoPi(s)[i]) { RotationFits(s[Source(i)], Rotation(Source(i))); }
  }

  lemma ChiFits(s: seq<nat>)
    requires IsState(s)
    ensures IsState(Chi(s))
  {
    LimitIsPower();
    hide Xor, And, Not, Pow2, Index, Mod5, Col, Row;
    forall i | 0 <= i < LANES ensures Lane(Chi(s)[i]) {
      var x, y := Col(i), Row(i);
      var u, v := s[Index(Mod5(x + 1), y)], s[Index(Mod5(x + 2), y)];
      AndFits(Not(u), v);
      XorFits(s[Index(x, y)], And(Not(u), v), WIDTH);
    }
  }

  lemma IotaFits(s: seq<nat>, constant: nat)
    requires IsState(s) && Lane(constant)
    ensures IsState(Iota(s, constant))
  {
    LimitIsPower();
    hide Xor, Pow2;
    XorFits(s[0], constant, WIDTH);
  }

  /** Every lane stays below 2 to the power 64. */
  lemma RoundFits(s: seq<nat>, constant: nat)
    requires IsState(s) && Lane(constant)
    ensures IsState(Theta(s)) && IsState(RhoPi(Theta(s))) && IsState(Chi(RhoPi(Theta(s))))
    ensures IsState(Round(s, constant))
  {
    hide Theta, RhoPi, Chi, Iota;
    ThetaFits(s);
    RhoPiFits(Theta(s));
    ChiFits(RhoPi(Theta(s)));
    IotaFits(Chi(RhoPi(Theta(s))), constant);
  }

  lemma Agree(a: Cube, s: seq<nat>)
    requires |s| == LANES
    requires forall x, y, z :: 0 <= x < 5 && 0 <= y < 5 && 0 <= z < WIDTH ==> Bit(s[Index(x, y)], z) == a(x, y, z)
    ensures Same(a, CubeOf(s))
  {
    hide Bit, Index;
  }

  lemma ThetaIsStandard(s: seq<nat>, a: Cube)
    requires IsState(s) && Same(a, CubeOf(s))
    ensures Same(ThetaStep(a), CubeOf(Theta(s)))
  {
    hide Bit, Index, Theta, ThetaStep, Same, CubeOf;
    forall x, y, z | 0 <= x < 5 && 0 <= y < 5 && 0 <= z < WIDTH
      ensures Bit(Theta(s)[Index(x, y)], z) == ThetaStep(a)(x, y, z)
    {
      ThetaBit(s, a, x, y, z);
    }
    Agree(ThetaStep(a), Theta(s));
  }

  lemma RhoPiIsStandard(s: seq<nat>, a: Cube)
    requires IsState(s) && Same(a, CubeOf(s))
    ensures Same(PiStep(RhoStep(a)), CubeOf(RhoPi(s)))
  {
    hide Bit, Index, RhoPi, PiStep, RhoStep, Same, CubeOf;
    forall x, y, z | 0 <= x < 5 && 0 <= y < 5 && 0 <= z < WIDTH
      ensures Bit(RhoPi(s)[Index(x, y)], z) == PiStep(RhoStep(a))(x, y, z)
    {
      RhoPiBit(s, a, x, y, z);
    }
    Agree(PiStep(RhoStep(a)), RhoPi(s));
  }

  lemma ChiIsStandard(s: seq<nat>, a: Cube)
    requires |s| == LANES && Same(a, CubeOf(s))
    ensures Same(ChiStep(a), CubeOf(Chi(s)))
  {
    hide Bit, Index, Chi, ChiStep, Same, CubeOf;
    forall x, y, z | 0 <= x < 5 && 0 <= y < 5 && 0 <= z < WIDTH
      ensures Bit(Chi(s)[Index(x, y)], z) == ChiStep(a)(x, y, z)
    {
      ChiBit(s, a, x, y, z);
    }
    Agree(ChiStep(a), Chi(s));
  }

  lemma IotaIsStandard(s: seq<nat>, a: Cube, n: nat)
    requires |s| == LANES && Same(a, CubeOf(s)) && n < ROUNDS
    ensures Same(IotaStep(a, n), CubeOf(Iota(s, Constant(n))))
  {
    hide Iota, IotaStep, CubeOf, Constant;
    forall x, y, z | Inside(x, y, z) ensures IotaStep(a, n)(x, y, z) == CubeOf(Iota(s, Constant(n)))(x, y, z) {
      IotaBit(s, a, n, x, y, z);
    }
  }

  /** One round of section 3.3. */
  ghost function StandardRound(a: Cube, n: nat): Cube {
    IotaStep(ChiStep(PiStep(RhoStep(ThetaStep(a)))), n)
  }

  ghost function StandardRounds(a: Cube, n: nat): Cube {
    if n == 0 then a else StandardRound(StandardRounds(a, n - 1), n - 1)
  }

  lemma RoundIsStandard(s: seq<nat>, a: Cube, n: nat)
    requires IsState(s) && Same(a, CubeOf(s)) && n < ROUNDS
    ensures Same(StandardRound(a, n), CubeOf(Round(s, Constant(n)))) && IsState(Round(s, Constant(n)))
  {
    hide Theta, RhoPi, Chi, Iota, ThetaStep, RhoStep, PiStep, ChiStep, IotaStep, Same, CubeOf, Constant;
    RoundFits(s, Constant(n));
    ThetaIsStandard(s, a);
    RhoPiIsStandard(Theta(s), ThetaStep(a));
    ChiIsStandard(RhoPi(Theta(s)), PiStep(RhoStep(ThetaStep(a))));
    IotaIsStandard(Chi(RhoPi(Theta(s))), ChiStep(PiStep(RhoStep(ThetaStep(a)))), n);
  }

  lemma {:induction false} RoundsOverStandard(s: seq<nat>, a: Cube, constants: seq<nat>)
    requires IsState(s) && Same(a, CubeOf(s)) && constants <= ROUND_CONSTANTS
    ensures Same(StandardRounds(a, |constants|), CubeOf(RoundsOver(s, constants))) && IsState(RoundsOver(s, constants))
    decreases |constants|
  {
    hide Round, StandardRound, CubeOf;
    if constants != [] {
      var n := |constants| - 1;
      RoundsOverStandard(s, a, constants[..n]);
      assert constants[n] == Constant(n);
      RoundIsStandard(RoundsOver(s, constants[..n]), StandardRounds(a, n), n);
    }
  }

  /** The in-place permutation computes the 24 rounds of the standard, bit for bit, on 64-bit lanes. */
  lemma PermutationIsStandard(s: seq<nat>, a: Cube)
    requires IsState(s) && Same(a, CubeOf(s))
    ensures Same(StandardRounds(a, ROUNDS), CubeOf(KeccakF(s))) && IsState(KeccakF(s))
  {
    RoundsOverStandard(s, a, ROUND_CONSTANTS[..ROUNDS]);
  }
}
