/**
 The Keccak permutation as it runs: nested loops that overwrite a state of 25 lanes,
 and the lane functions each of them computes.
 */
module Keccak {
  import opened Bits

  const WIDTH := 64
  const LIMIT: nat := 0x1_0000_0000_0000_0000
  const LANES := 25

  const ROTATIONS: seq<nat> :=
    [0, 1, 62, 28, 27, 36, 44, 6, 55, 20, 3, 10, 43, 25, 39, 41, 45, 15, 21, 8, 18, 2, 61, 56, 14]

  const ROUND_CONSTANTS: seq<nat> := [
    0x0000000000000001, 0x0000000000008082, 0x800000000000808a, 0x8000000080008000,
    0x000000000000808b, 0x0000000080000001, 0x8000000080008081, 0x8000000000008009,
    0x000000000000008a, 0x0000000000000088, 0x0000000080008009, 0x000000008000000a,
    0x000000008000808b, 0x800000000000008b, 0x8000000000008089, 0x8000000000008003,
    0x8000000000008002, 0x8000000000000080, 0x000000000000800a, 0x800000008000000a,
    0x8000000080008081, 0x8000000000008080, 0x0000000080000001, 0x8000000080008008]

  const ROUNDS: nat := |ROUND_CONSTANTS|

  /** Lanes are 64 bits wide. */
  predicate Lane(v: nat) { v < LIMIT }

  lemma LimitIsPower()
    ensures Pow2(WIDTH) == LIMIT
  {
    assert Pow2(4) == 16;
    PowDouble(4, 16);
    PowDouble(8, 0x100);
    PowDouble(16, 0x1_0000);
    PowDouble(32, 0x1_0000_0000);
  }

  predicate IsState(s: seq<nat>) { |s| == LANES && forall i :: 0 <= i < LANES ==> Lane(s[i]) }

  function RotateLeft(value: nat, count: nat): nat
    requires count <= WIDTH
  {
    if count == 0 then And(value, LIMIT - 1)
    else And(Or(Shl(value, count), Shr(value, WIDTH - count)), LIMIT - 1)
  }

  lemma RotationFits(value: nat, count: nat)
    requires count <= WIDTH
    ensures Lane(RotateLeft(value, count))
  {
    hide And, Or, Shl, Shr;
    if count == 0 {
      AndFits(value, LIMIT - 1);
    } else {
      AndFits(Or(Shl(value, count), Shr(value, WIDTH - count)), LIMIT - 1);
    }
  }

  /** Rotating moves bit z - count to bit z, wrapping around the lane. */
  lemma RotateLeftMovesBits(value: nat, count: nat, z: nat)
    requires Lane(value) && count < WIDTH && z < WIDTH
    ensures Bit(RotateLeft(value, count), z) == Bit(value, (z + WIDTH - count) % WIDTH)
  {
    LimitIsPower();
    hide Bit, And, Or, Shl, Shr, Pow2;
    BitMask(WIDTH, z);
    if count == 0 {
      BitAnd(value, LIMIT - 1, z);
    } else {
      BitAnd(Or(Shl(value, count), Shr(value, WIDTH - count)), LIMIT - 1, z);
      BitOr(Shl(value, count), Shr(value, WIDTH - count), z);
      BitShl(value, count, z);
      BitShr(value, WIDTH - count, z);
      if z >= count { HighBitsAreZero(value, WIDTH, z + WIDTH - count); }
    }
  }

  // ---- positions ------------------------------------------------------------

  /** The lane at column `x` and row `y`. */
  function Index(x: nat, y: nat): (i: nat)
    requires x < 5 && y < 5
    ensures i < LANES
  {
    x + 5 * y
  }

  function Col(i: nat): (x: nat)
    ensures x < 5
  {
    Mod5(i)
  }

  function Row(i: nat): (y: nat)
    requires i < LANES
    ensures y < 5
  {
    i / 5
  }

  function Mod5(x: int): (r: nat)
    ensures r < 5
  {
    x % 5
  }

  lemma At(x: nat, y: nat)
    requires x < 5 && y < 5
    ensures Col(Index(x, y)) == x && Row(Index(x, y)) == y
  {}

  lemma Of(i: nat)
    requires i < LANES
    ensures i == Index(Col(i), Row(i))
  {}

  lemma Positions()
    ensures forall x, y :: 0 <= x < 5 && 0 <= y < 5 ==> Col(Index(x, y)) == x && Row(Index(x, y)) == y
    ensures forall i :: 0 <= i < LANES ==> i == Index(Col(i), Row(i))
  {
    hide *;
    forall x, y | 0 <= x < 5 && 0 <= y < 5 ensures Col(Index(x, y)) == x && Row(Index(x, y)) == y { At(x, y); }
    forall i | 0 <= i < LANES ensures i == Index(Col(i), Row(i)) { Of(i); }
  }

  function Rotation(i: nat): (r: nat)
    requires i < LANES
    ensures r < WIDTH
  {
    ROTATIONS[i]
  }

  function Constant(n: nat): (c: nat)
    requires n < ROUNDS
    ensures Lane(c)
  {
    ROUND_CONSTANTS[n]
  }

  // ---- the lane functions ---------------------------------------------------

  function Parity(s: seq<nat>, x: nat): nat
    requires |s| == LANES && x < 5
  {
    Xor(Xor(Xor(Xor(s[x], s[x + 5]), s[x + 10]), s[x + 15]), s[x + 20])
  }

  function Delta(s: seq<nat>, x: nat): nat
    requires |s| == LANES && x < 5
  {
    Xor(Parity(s, Mod5(x + 4)), RotateLeft(Parity(s, Mod5(x + 1)), 1))
  }

  function Theta(s: seq<nat>): (t: seq<nat>)
    requires |s| == LANES
    ensures |t| == LANES
  {
    seq(LANES, i requires 0 <= i < LANES => Xor(s[i], Delta(s, Col(i))))
  }

  /** Where the lane that lands at position `i` comes from. */
  function Source(i: nat): (j: nat)
    requires i < LANES
    ensures j < LANES
  {
    Index(Mod5(Col(i) + 3 * Row(i)), Col(i))
  }

  /** Where the lane at position `j` is moved. */
  function Destination(j: nat): (i: nat)
    requires j < LANES
    ensures i < LANES
  {
    Index(Row(j), Mod5(2 * Col(j) + 3 * Row(j)))
  }

  lemma MultiplesDropOut(x: nat, k: int)
    requires x < 5 && x + 5 * k >= 0
    ensures Mod5(x + 5 * k) == x
  {}

  lemma SourceOfDestination(j: nat)
    requires j < LANES
    ensures Source(Destination(j)) == j
  {
    Positions();
    hide Col, Row, Index;
    var x, y := Col(j), Row(j);
    var q, r := (2 * x + 3 * y) / 5, Mod5(2 * x + 3 * y);
    assert y + 3 * r == x + 5 * (x + 2 * y - 3 * q);
    hide Mod5;
    MultiplesDropOut(x, x + 2 * y - 3 * q);
  }

  lemma DestinationOfSource(i: nat)
    requires i < LANES
    ensures Destination(Source(i)) == i
  {
    Positions();
    hide Col, Row, Index;
    var x, y := Col(i), Row(i);
    var q, r := (x + 3 * y) / 5, Mod5(x + 3 * y);
    assert 2 * r + 3 * x == y + 5 * (x + y - 2 * q);
    hide Mod5;
    MultiplesDropOut(y, x + y - 2 * q);
  }

  /** The moves reach each of the 25 positions once. */
  lemma MovesAreAPermutation()
    ensures forall i :: 0 <= i < LANES ==> Destination(Source(i)) == i
    ensures forall j :: 0 <= j < LANES ==> Source(Destination(j)) == j
  {
    hide Source, Destination;
    forall i | 0 <= i < LANES ensures Destination(Source(i)) == i { DestinationOfSource(i); }
    forall j | 0 <= j < LANES ensures Source(Destination(j)) == j { SourceOfDestination(j); }
  }

  function RhoPi(s: seq<nat>): (t: seq<nat>)
    requires |s| == LANES
    ensures |t| == LANES
  {
    seq(LANES, i requires 0 <= i < LANES => RotateLeft(s[Source(i)], Rotation(Source(i))))
  }

  function ChiLane(m: seq<nat>, x: nat, y: nat): nat
    requires |m| == LANES && x < 5 && y < 5
  {
    Xor(m[Index(x, y)], And(Not(m[Index(Mod5(x + 1), y)]), m[Index(Mod5(x + 2), y)]))
  }

  function Chi(m: seq<nat>): (t: seq<nat>)
    requires |m| == LANES
    ensures |t| == LANES
  {
    seq(LANES, i requires 0 <= i < LANES => ChiLane(m, Col(i), Row(i)))
  }

  function Iota(s: seq<nat>, constant: nat): (t: seq<nat>)
    requires |s| == LANES
    ensures |t| == LANES
  {
    s[0 := Xor(s[0], constant)]
  }

  function Round(s: seq<nat>, constant: nat): (t: seq<nat>)
    requires |s| == LANES
    ensures |t| == LANES
  {
    Iota(Chi(RhoPi(Theta(s))), constant)
  }

  /** One round for each constant. */
  function RoundsOver(s: seq<nat>, constants: seq<nat>): (t: seq<nat>)
    requires |s| == LANES
    ensures |t| == LANES
    decreases |constants|
  {
    if constants == [] then s
    else
      var n := |constants| - 1;
      Round(RoundsOver(s, constants[..n]), constants[n])
  }

  /** The first `n` rounds. */
  function Rounds(s: seq<nat>, n: nat): (t: seq<nat>)
    requires |s| == LANES && n <= ROUNDS
    ensures |t| == LANES
  {
    RoundsOver(s, ROUND_CONSTANTS[..n])
  }

  // ---- the loops ------------------------------------------------------------

  method ParityOf(state: array<nat>, x: nat) returns (p: nat)
    requires state.Length == LANES && x < 5
    ensures p == Parity(state[..], x)
  {
    p := Xor(Xor(Xor(Xor(state[x], state[x + 5]), state[x + 10]), state[x + 15]), state[x + 20]);
  }

  /** The five column parities. */
  method ColumnParities(state: array<nat>, columns: array<nat>)
    requires state.Length == LANES && columns.Length == 5 && state != columns
    modifies columns
    ensures forall x :: 0 <= x < 5 ==> columns[x] == Parity(state[..], x)
  {
    hide Parity;
    for x := 0 to 5
      invariant forall i :: 0 <= i < x ==> columns[i] == Parity(state[..], i)
    {
      columns[x] := ParityOf(state, x);
    }
  }

  /** Adds a value to every lane of a column. */
  method MixColumn(state: array<nat>, x: nat, delta: nat)
    requires state.Length == LANES && x < 5
    modifies state
    ensures forall i :: 0 <= i < LANES ==>
              state[i] == if Col(i) == x then Xor(old(state[i]), delta) else old(state[i])
  {
    Positions();
    hide Col, Row, Index, Xor;
    for y := 0 to 5
      invariant forall i :: 0 <= i < LANES ==>
                  state[i] == if Col(i) == x && Row(i) < y then Xor(old(state[i]), delta) else old(state[i])
    {
      state[Index(x, y)] := Xor(state[Index(x, y)], delta);
    }
  }

  /** What theta adds to a column, from the parities. */
  method DeltaOf(columns: array<nat>, x: nat, ghost s: seq<nat>) returns (delta: nat)
    requires columns.Length == 5 && x < 5 && |s| == LANES
    requires forall i :: 0 <= i < 5 ==> columns[i] == Parity(s, i)
    ensures delta == Delta(s, x)
  {
    hide Xor, Parity, RotateLeft, Mod5;
    delta := Xor(columns[Mod5(x + 4)], RotateLeft(columns[Mod5(x + 1)], 1));
  }

  /** Adds every column's value, given the parities. */
  method MixAll(state: array<nat>, columns: array<nat>, ghost s: seq<nat>)
    requires state.Length == LANES && columns.Length == 5 && state != columns && |s| == LANES
    requires forall i :: 0 <= i < LANES ==> state[i] == s[i]
    requires forall i :: 0 <= i < 5 ==> columns[i] == Parity(s, i)
    modifies state
    ensures forall i :: 0 <= i < LANES ==> state[i] == Xor(s[i], Delta(s, Col(i)))
  {
    hide Col, Xor, Parity, Delta;
    for x := 0 to 5
      invariant forall i :: 0 <= i < 5 ==> columns[i] == Parity(s, i)
      invariant forall i :: 0 <= i < LANES ==> state[i] == if Col(i) < x then Xor(s[i], Delta(s, Col(i))) else s[i]
    {
      var delta := DeltaOf(columns, x, s);
      MixColumn(state, x, delta);
    }
  }

  method MixColumns(state: array<nat>, columns: array<nat>)
    requires state.Length == LANES && columns.Length == 5 && state != columns
    modifies state, columns
    ensures state[..] == Theta(old(state[..]))
  {
    hide Col, Xor, Parity, Delta;
    ColumnParities(state, columns);
    MixAll(state, columns, state[..]);
  }

  /** Rotates the lanes of a column and moves them to their new positions. */
  method ScatterColumn(state: array<nat>, mixed: array<nat>, x: nat)
    requires state.Length == LANES && mixed.Length == LANES && state != mixed && x < 5
    modifies mixed
    ensures forall i :: 0 <= i < LANES ==>
              mixed[i] == if Col(Source(i)) == x then RotateLeft(state[Source(i)], Rotation(Source(i))) else old(mixed[i])
  {
    Positions();
    MovesAreAPermutation();
    hide RotateLeft, Col, Row, Mod5, Source, Index, Rotation;
    for y := 0 to 5
      invariant forall i :: 0 <= i < LANES ==>
                  mixed[i] == if Col(Source(i)) == x && Row(Source(i)) < y
                              then RotateLeft(state[Source(i)], Rotation(Source(i))) else old(mixed[i])
    {
      var destinationX := y;
      var destinationY := Mod5(2 * x + 3 * y);
      assert Index(destinationX, destinationY) == Destination(Index(x, y));
      mixed[Index(destinationX, destinationY)] := RotateLeft(state[Index(x, y)], Rotation(Index(x, y)));
    }
  }

  method Scatter(state: array<nat>, mixed: array<nat>)
    requires state.Length == LANES && mixed.Length == LANES && state != mixed
    modifies mixed
    ensures mixed[..] == RhoPi(state[..])
  {
    hide Col, Source, RotateLeft, Rotation;
    for x := 0 to 5
      invariant forall i :: 0 <= i < LANES && Col(Source(i)) < x ==>
                  mixed[i] == RotateLeft(state[Source(i)], Rotation(Source(i)))
    {
      ScatterColumn(state, mixed, x);
    }
  }

  /** One lane of the row mixing. */
  method ChiOf(mixed: array<nat>, x: nat, y: nat) returns (v: nat)
    requires mixed.Length == LANES && x < 5 && y < 5
    ensures v == ChiLane(mixed[..], x, y)
  {
    v := Xor(mixed[Index(x, y)], And(Not(mixed[Index(Mod5(x + 1), y)]), mixed[Index(Mod5(x + 2), y)]));
  }

  /** Mixes the lanes of one row. */
  method MixRow(state: array<nat>, mixed: array<nat>, y: nat)
    requires state.Length == LANES && mixed.Length == LANES && state != mixed && y < 5
    modifies state
    ensures forall i :: 0 <= i < LANES ==>
              state[i] == if Row(i) == y then ChiLane(mixed[..], Col(i), Row(i)) else old(state[i])
  {
    Positions();
    hide Col, Row, Index, ChiLane;
    for x := 0 to 5
      invariant forall i :: 0 <= i < LANES ==>
                  state[i] == if Row(i) == y && Col(i) < x then ChiLane(mixed[..], Col(i), Row(i)) else old(state[i])
    {
      state[Index(x, y)] := ChiOf(mixed, x, y);
    }
  }

  method MixRows(state: array<nat>, mixed: array<nat>)
    requires state.Length == LANES && mixed.Length == LANES && state != mixed
    modifies state
    ensures state[..] == Chi(mixed[..])
  {
    hide Col, Row, ChiLane;
    for y := 0 to 5
      invariant forall i :: 0 <= i < LANES && Row(i) < y ==> state[i] == ChiLane(mixed[..], Col(i), Row(i))
    {
      MixRow(state, mixed, y);
    }
  }

  /** The whole permutation: 24 rounds. */
  function KeccakF(s: seq<nat>): (t: seq<nat>)
    requires |s| == LANES
    ensures |t| == LANES
  {
    Rounds(s, ROUNDS)
  }

  method Permutation(state: array<nat>)
    requires state.Length == LANES
    modifies state
    ensures state[..] == KeccakF(old(state[..]))
  {
    NoRounds(state[..]);
    hide Rounds;
    RunRounds(state, 0, state[..]);
  }

  /** The rounds from `start` on, in place. */
  method RunRounds(state: array<nat>, start: nat, ghost s: seq<nat>)
    requires state.Length == LANES && |s| == LANES && start <= ROUNDS && state[..] == Rounds(s, start)
    modifies state
    ensures state[..] == Rounds(s, ROUNDS)
  {
    hide Rounds, Round, Constant;
    var columns := new nat[5];
    var mixed := new nat[LANES];
    for n := start to ROUNDS
      invariant state[..] == Rounds(s, n)
    {
      OneMoreRound(s, n);
      RunRound(state, columns, mixed, Constant(n));
    }
  }

  lemma NoRounds(s: seq<nat>)
    requires |s| == LANES
    ensures Rounds(s, 0) == s
  {}

  lemma OneMoreRound(s: seq<nat>, n: nat)
    requires |s| == LANES && n < ROUNDS
    ensures Rounds(s, n + 1) == Round(Rounds(s, n), Constant(n))
  {
    hide Round;
    assert ROUND_CONSTANTS[..n + 1][..n] == ROUND_CONSTANTS[..n];
  }

  method RunRound(state: array<nat>, columns: array<nat>, mixed: array<nat>, constant: nat)
    requires state.Length == LANES && columns.Length == 5 && mixed.Length == LANES
    requires state != columns && state != mixed && columns != mixed
    modifies state, columns, mixed
    ensures state[..] == Round(old(state[..]), constant)
  {
    hide Theta, RhoPi, Chi, Xor;
    MixColumns(state, columns);
    Scatter(state, mixed);
    MixRows(state, mixed);
    state[0] := Xor(state[0], constant);
  }
}
