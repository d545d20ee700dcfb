/**
 keccak256 as a sponge: padding, absorbing, squeezing, and the whole hash against
 the sponge of section 4 of FIPS 202 with the padding rule of section 5.1 and no suffix bits.
 */
module KeccakSponge {
  import opened Bits
  import opened Keccak
  import opened KeccakSteps

  const RATE := 136
  const RATE_BITS := 1088

  predicate Bytes(s: seq<nat>) { forall i :: 0 <= i < |s| ==> s[i] < 256 }

  function Zeros(n: nat): (z: seq<nat>)
    ensures |z| == n && forall i :: 0 <= i < n ==> z[i] == 0
  {
    seq(n, _ => 0)
  }

  /** The length is a whole number of blocks. */
  predicate Blocks(length: nat) { length % RATE == 0 }

  // ---- padding --------------------------------------------------------------

  function PaddedLength(n: nat): nat { (n + 1 + RATE - 1) / RATE * RATE }

  lemma PaddedLengthFits(n: nat)
    ensures PaddedLength(n) % RATE == 0 && n < PaddedLength(n) <= n + RATE
    ensures PaddedLength(n) == (n / RATE + 1) * RATE
  {}

  /** A one, as many zeros as are needed, and a one: in bytes, least significant bit first. */
  function Pad(message: seq<nat>): (p: seq<nat>)
    ensures |p| == PaddedLength(|message|)
  {
    PaddedLengthFits(|message|);
    var gap := PaddedLength(|message|) - |message|;
    if gap == 1 then message + [0x81] else message + [0x01] + Zeros(gap - 2) + [0x80]
  }

  lemma PadAt(message: seq<nat>, i: nat)
    requires i < PaddedLength(|message|)
    ensures var n := |message|; var last := PaddedLength(n) - 1;
            n <= last && Pad(message)[i] == if i < n then message[i]
                                            else if i == n then (if n == last then 0x81 else 0x01)
                                            else if i == last then 0x80 else 0
  {
    PaddedLengthFits(|message|);
    hide PaddedLength;
  }

  /** Different messages are padded differently. */
  lemma PaddingIsInjective(a: seq<nat>, b: seq<nat>)
    requires Pad(a) == Pad(b)
    ensures a == b
  {
    PaddedLengthFits(|a|);
    PaddedLengthFits(|b|);
    hide PaddedLength, Pad;
    if |a| < |b| {
      PadAt(a, |b|);
      PadAt(b, |b|);
    } else if |b| < |a| {
      PadAt(a, |a|);
      PadAt(b, |a|);
    } else {
      forall i | 0 <= i < |a| ensures a[i] == b[i] {
        PadAt(a, i);
        PadAt(b, i);
      }
    }
  }

  lemma OrTopBit()
    ensures Or(0x01, 0x80) == 0x81 && Or(0, 0x80) == 0x80
  {}

  method PadInput(message: seq<nat>) returns (padded: array<nat>)
    ensures fresh(padded) && padded[..] == Pad(message)
  {
    var n := |message|;
    PaddedLengthFits(n);
    var length := PaddedLength(n);
    hide PaddedLength, Or, Pad;
    padded := new nat[length](_ => 0);
    for i := 0 to n
      invariant forall j :: 0 <= j < i ==> padded[j] == message[j]
      invariant forall j :: i <= j < length ==> padded[j] == 0
    {
      padded[i] := message[i];
    }
    padded[n] := 0x01;
    OrTopBit();
    padded[length - 1] := Or(padded[length - 1], 0x80);
    forall i | 0 <= i < length ensures padded[i] == Pad(message)[i] { PadAt(message, i); }
  }

  // ---- the padding rule, in bits -------------------------------------------

  /** The bits of a byte string, least significant first. */
  function BitsOf(s: seq<nat>): (bits: seq<bool>)
    ensures |bits| == 8 * |s|
  {
    seq(8 * |s|, i requires 0 <= i < 8 * |s| => Bit(s[i / 8], i % 8))
  }

  /** pad10*1(x, m) of section 5.1. */
  function Pad101(x: nat, m: nat): seq<bool>
    requires x > 0
  {
    var j := (0 - m - 2) % x;
    [true] + seq(j, _ => false) + [true]
  }

  lemma ByteBits(i: nat)
    requires i < 8
    ensures Bit(0x01, i) == (i == 0) && Bit(0x80, i) == (i == 7) && Bit(0x81, i) == (i == 0 || i == 7) && !Bit(0, i)
  {
    match i
    case 0 => case 1 => case 2 => case 3 => case 4 => case 5 => case 6 => case _ =>
  }

  lemma ZerosBetween(n: nat)
    ensures (0 - 8 * n - 2) % RATE_BITS == 8 * PaddedLength(n) - 8 * n - 2
  {
    PaddedLengthFits(n);
    var q, r := n / RATE, n % RATE;
    assert 8 * PaddedLength(n) - 8 * n - 2 == RATE_BITS - 8 * r - 2;
    assert 0 - 8 * n - 2 == RATE_BITS * (0 - q - 1) + (RATE_BITS - 8 * r - 2);
    RemainderOf(0 - q - 1, RATE_BITS - 8 * r - 2);
  }

  lemma RemainderOf(q: int, r: nat)
    requires r < RATE_BITS
    ensures (RATE_BITS * q + r) % RATE_BITS == r
  {}

  /** The padded bytes are the message's bits followed by pad10*1, with nothing in between. */
  lemma PaddingIsStandard(message: seq<nat>)
    ensures BitsOf(Pad(message)) == BitsOf(message) + Pad101(RATE_BITS, 8 * |message|)
  {
    var n := |message|;
    PaddedLengthFits(n);
    ZerosBetween(n);
    var left, right := BitsOf(Pad(message)), BitsOf(message) + Pad101(RATE_BITS, 8 * n);
    assert |left| == |right|;
    forall i | 0 <= i < |left| ensures left[i] == right[i] { PaddedBit(message, i); }
  }

  lemma PaddedBit(message: seq<nat>, i: nat)
    requires i < 8 * PaddedLength(|message|)
    ensures var n := |message|; var last := 8 * PaddedLength(n) - 1;
            BitsOf(Pad(message))[i] == if i < 8 * n then BitsOf(message)[i] else i == 8 * n || i == last
  {
    PadAt(message, i / 8);
    ByteBits(i % 8);
    hide Pad, Bit, PaddedLength;
  }

  // ---- absorbing ------------------------------------------------------------

  /** The first `n` bytes as one number, least significant byte first. */
  function Packed(bytes: seq<nat>, n: nat): nat
    requires n <= |bytes|
  {
    if n == 0 then 0 else Or(Packed(bytes, n - 1), Shl(bytes[n - 1], 8 * (n - 1)))
  }

  lemma {:induction false} PackedBits(bytes: seq<nat>, n: nat, z: nat)
    requires Bytes(bytes) && n <= |bytes|
    ensures Bit(Packed(bytes, n), z) == (z < 8 * n && Bit(bytes[z / 8], z % 8))
    decreases n
  {
    if n == 0 {
      BitZero(z);
    } else {
      PackedBits(bytes, n - 1, z);
      PackedByte(bytes, n, z);
    }
  }

  lemma PackedByte(bytes: seq<nat>, n: nat, z: nat)
    requires Bytes(bytes) && 0 < n <= |bytes|
    ensures Bit(Packed(bytes, n), z)
            == (Bit(Packed(bytes, n - 1), z) || (8 * (n - 1) <= z < 8 * n && Bit(bytes[z / 8], z % 8)))
  {
    var top := bytes[n - 1];
    ByteIsEightBits();
    hide Bit, Or, Shl, Pow2;
    BitOr(Packed(bytes, n - 1), Shl(top, 8 * (n - 1)), z);
    BitShl(top, 8 * (n - 1), z);
    if z >= 8 * n { HighBitsAreZero(top, 8, z - 8 * (n - 1)); }
    if 8 * (n - 1) <= z < 8 * n { assert z / 8 == n - 1 && z % 8 == z - 8 * (n - 1); }
  }

  lemma ByteIsEightBits()
    ensures Pow2(8) == 256
  {
    assert Pow2(4) == 16;
    PowDouble(4, 16);
  }

  /** The bits of a lane beyond the sixty-fourth are zero, so the lane fits. */
  lemma PackedFits(bytes: seq<nat>)
    requires Bytes(bytes) && |bytes| == 8
    ensures Lane(Packed(bytes, 8))
  {
    LimitIsPower();
    hide Packed, Pow2;
    if Packed(bytes, 8) >= LIMIT {
      HighBitExists(Packed(bytes, 8), WIDTH);
      var z :| z >= WIDTH && Bit(Packed(bytes, 8), z);
      PackedBits(bytes, 8, z);
    }
  }

  /** A number that does not fit has a bit above. */
  lemma {:induction false} HighBitExists(a: nat, n: nat)
    requires a >= Pow2(n)
    ensures exists z: nat :: z >= n && Bit(a, z)
    decreases a
  {
    if n > 0 {
      HighBitExists(a / 2, n - 1);
      var z: nat :| z >= n - 1 && Bit(a / 2, z);
      assert Bit(a, z + 1);
    } else if a % 2 == 1 {
      assert Bit(a, 0);
    } else {
      HighBitExists(a / 2, 0);
      var z: nat :| z >= 0 && Bit(a / 2, z);
      assert Bit(a, z + 1);
    }
  }

  const RATE_LANES := 17

  /** One block added to the state. */
  function XorBlock(s: seq<nat>, block: seq<nat>): (t: seq<nat>)
    requires |s| == LANES && |block| == RATE
    ensures |t| == LANES
  {
    seq(LANES, i requires 0 <= i < LANES =>
      if i < RATE_LANES then Xor(s[i], Packed(block[8 * i..8 * i + 8], 8)) else s[i])
  }

  /** The state after all blocks. */
  function Absorbed(s: seq<nat>, padded: seq<nat>): (t: seq<nat>)
    requires |s| == LANES && Blocks(|padded|)
    ensures |t| == LANES
  {
    if padded == [] then s
    else
      var n := |padded| - RATE;
      KeccakF(XorBlock(Absorbed(s, padded[..n]), padded[n..]))
  }

  method PackLane(padded: array<nat>, start: nat) returns (value: nat)
    requires start + 8 <= padded.Length
    ensures value == Packed(padded[start..start + 8], 8)
  {
    ghost var bytes := padded[start..start + 8];
    hide Or, Shl;
    value := 0;
    for k := 0 to 8
      invariant value == Packed(bytes, k)
    {
      assert bytes[k] == padded[start + k];
      PackOneMore(bytes, k);
      value := Or(value, Shl(padded[start + k], k * 8));
    }
  }

  lemma PackOneMore(bytes: seq<nat>, k: nat)
    requires k < |bytes|
    ensures Packed(bytes, k + 1) == Or(Packed(bytes, k), Shl(bytes[k], 8 * k)) && Packed(bytes, 0) == 0
  {
    hide Or, Shl;
  }

  method AbsorbBlock(state: array<nat>, padded: array<nat>, offset: nat)
    requires state.Length == LANES && state != padded && offset + RATE <= padded.Length
    modifies state
    ensures state[..] == XorBlock(old(state[..]), padded[offset..offset + RATE])
  {
    ghost var block := padded[offset..offset + RATE];
    hide Xor, Packed;
    for lane := 0 to RATE_LANES
      invariant forall i :: 0 <= i < LANES ==>
                  state[i] == if i < lane then Xor(old(state[i]), Packed(block[8 * i..8 * i + 8], 8)) else old(state[i])
    {
      var value := PackLane(padded, offset + lane * 8);
      assert padded[offset + lane * 8..offset + lane * 8 + 8] == block[8 * lane..8 * lane + 8];
      state[lane] := Xor(state[lane], value);
    }
  }

  // ---- squeezing and the hash ----------------------------------------------

  function DigestByte(s: seq<nat>, i: nat): nat
    requires |s| == LANES && i < 32
  {
    And(Shr(s[i / 8], i % 8 * 8), 0xff)
  }

  function Squeezed(s: seq<nat>): (d: seq<nat>)
    requires |s| == LANES
    ensures |d| == 32
  {
    seq(32, i requires 0 <= i < 32 => DigestByte(s, i))
  }

  function Digest(message: seq<nat>): (d: seq<nat>)
    ensures |d| == 32
  {
    PaddedLengthFits(|message|);
    Squeezed(Absorbed(Zeros(LANES), Pad(message)))
  }

  lemma NextBlock(offset: nat, length: nat)
    requires Blocks(offset) && Blocks(length) && offset < length
    ensures offset < offset + RATE <= length && Blocks(offset + RATE)
  {}

  /** One block and the permutation. */
  method AbsorbAndPermute(state: array<nat>, padded: array<nat>, offset: nat, ghost s: seq<nat>, ghost p: seq<nat>)
    requires state.Length == LANES && |s| == LANES && state != padded && p == padded[..]
    requires Blocks(offset) && Blocks(offset + RATE) && offset + RATE <= |p|
    requires state[..] == Absorbed(s, p[..offset])
    modifies state
    ensures state[..] == Absorbed(s, p[..offset + RATE])
  {
    hide KeccakF, XorBlock, Absorbed;
    AbsorbOneMore(s, p, offset);
    assert p[offset..offset + RATE] == padded[offset..offset + RATE];
    AbsorbBlock(state, padded, offset);
    Permutation(state);
  }

  method AbsorbAll(state: array<nat>, padded: array<nat>)
    requires state.Length == LANES && state != padded && Blocks(padded.Length)
    modifies state
    ensures state[..] == Absorbed(old(state[..]), padded[..])
  {
    hide *;
    ghost var s, p := state[..], padded[..];
    AbsorbNone(s, p[..0]);
    NoBlocks();
    var offset := 0;
    while offset < padded.Length
      invariant Blocks(offset) && offset <= |p|
      invariant state[..] == Absorbed(s, p[..offset])
    {
      NextBlock(offset, |p|);
      AbsorbAndPermute(state, padded, offset, s, p);
      offset := offset + RATE;
    }
    assert p[..offset] == p;
  }

  lemma NoBlocks()
    ensures Blocks(0)
  {}

  lemma AbsorbNone(s: seq<nat>, padded: seq<nat>)
    requires |s| == LANES && padded == []
    ensures Absorbed(s, padded) == s
  {}

  method Keccak256(message: seq<nat>) returns (output: array<nat>)
    ensures output[..] == Digest(message)
  {
    PaddedLengthFits(|message|);
    hide Pad, PaddedLength, Absorbed, Squeezed;
    var padded := PadInput(message);
    var state := new nat[LANES](_ => 0);
    assert state[..] == Zeros(LANES);
    AbsorbAll(state, padded);
    output := Squeeze(state);
  }

  method Squeeze(state: array<nat>) returns (output: array<nat>)
    requires state.Length == LANES
    ensures output[..] == Squeezed(state[..])
  {
    hide And, Shr;
    output := new nat[32](_ => 0);
    for i := 0 to 32
      invariant forall j :: 0 <= j < i ==> output[j] == DigestByte(state[..], j)
    {
      output[i] := And(Shr(state[i / 8], i % 8 * 8), 0xff);
    }
  }

  lemma AbsorbOneMore(s: seq<nat>, padded: seq<nat>, offset: nat)
    requires |s| == LANES && Blocks(offset) && Blocks(offset + RATE) && offset + RATE <= |padded|
    ensures Absorbed(s, padded[..offset + RATE])
            == KeccakF(XorBlock(Absorbed(s, padded[..offset]), padded[offset..offset + RATE]))
  {
    hide KeccakF, XorBlock;
    var longer := padded[..offset + RATE];
    assert longer[..offset] == padded[..offset] && longer[offset..] == padded[offset..offset + RATE];
  }
}
