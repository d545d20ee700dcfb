/**
 The hash, end to end, against the sponge construction of section 4 of FIPS 202 on bits.
 */
module KeccakStandard {
  import opened Bits
  import opened Keccak
  import opened KeccakSteps
  import opened KeccakSponge

  /** A block of input bits added to the state, in the order of section 3.1.2. */
  ghost function AddBlock(a: Cube, bits: seq<bool>): Cube
    requires |bits| == RATE_BITS
  {
    (x, y, z) => a(x, y, z) != (Inside(x, y, z) && 64 * (x + 5 * y) + z < RATE_BITS && bits[64 * (x + 5 * y) + z])
  }

  predicate BitBlocks(n: nat) { n % RATE_BITS == 0 }

  /** The absorbing phase of the sponge: each block is added and the permutation applied. */
  ghost function Sponge(bits: seq<bool>): Cube
    requires BitBlocks(|bits|)
    decreases |bits|
  {
    if |bits| < RATE_BITS then (x, y, z) => false
    else
      var n := |bits| - RATE_BITS;
      StandardRounds(AddBlock(Sponge(bits[..n]), bits[n..]), ROUNDS)
  }

  lemma BlockBit(block: seq<nat>, i: nat, z: nat)
    requires |block| == RATE && Bytes(block) && i < RATE_LANES && z < WIDTH
    ensures Bit(Packed(block[8 * i..8 * i + 8], 8), z) == BitsOf(block)[64 * i + z]
  {
    PackedBits(block[8 * i..8 * i + 8], 8, z);
    assert (64 * i + z) / 8 == 8 * i + z / 8 && (64 * i + z) % 8 == z % 8;
    hide Bit, Packed;
  }

  lemma XorBlockBit(s: seq<nat>, a: Cube, block: seq<nat>, x: nat, y: nat, z: nat)
    requires |s| == LANES && Same(a, CubeOf(s)) && |block| == RATE && Bytes(block) && x < 5 && y < 5 && z < WIDTH
    ensures Bit(XorBlock(s, block)[Index(x, y)], z) == AddBlock(a, BitsOf(block))(x, y, z)
  {
    hide Bit, Xor, Packed, Same, CubeOf, BitsOf;
    var i := Index(x, y);
    LaneBit(s, a, x, y, z);
    assert Inside(x, y, z);
    if i < RATE_LANES {
      BlockBit(block, i, z);
      BitXor(s[i], Packed(block[8 * i..8 * i + 8], 8), z);
    }
  }

  lemma XorBlockFits(s: seq<nat>, block: seq<nat>)
    requires IsState(s) && |block| == RATE && Bytes(block)
    ensures IsState(XorBlock(s, block))
  {
    LimitIsPower();
    hide Xor, Packed, Pow2;
    forall i | 0 <= i < RATE_LANES ensures Lane(XorBlock(s, block)[i]) {
      PackedFits(block[8 * i..8 * i + 8]);
      XorFits(s[i], Packed(block[8 * i..8 * i + 8], 8), WIDTH);
    }
  }

  lemma XorBlockIsStandard(s: seq<nat>, a: Cube, block: seq<nat>)
    requires IsState(s) && Same(a, CubeOf(s)) && |block| == RATE && Bytes(block)
    ensures Same(AddBlock(a, BitsOf(block)), CubeOf(XorBlock(s, block))) && IsState(XorBlock(s, block))
  {
    XorBlockFits(s, block);
    hide Bit, Index, XorBlock, AddBlock, Same, CubeOf, BitsOf;
    forall x, y, z | 0 <= x < 5 && 0 <= y < 5 && 0 <= z < WIDTH
      ensures Bit(XorBlock(s, block)[Index(x, y)], z) == AddBlock(a, BitsOf(block))(x, y, z)
    {
      XorBlockBit(s, a, block, x, y, z);
    }
    Agree(AddBlock(a, BitsOf(block)), XorBlock(s, block));
  }

  lemma BitsOfParts(s: seq<nat>, n: nat)
    requires n <= |s|
    ensures BitsOf(s)[..8 * n] == BitsOf(s[..n]) && BitsOf(s)[8 * n..] == BitsOf(s[n..])
  {
    hide Bit;
    forall i | 0 <= i < 8 * (|s| - n) ensures BitsOf(s)[8 * n + i] == BitsOf(s[n..])[i] {
      assert (8 * n + i) / 8 == n + i / 8 && (8 * n + i) % 8 == i % 8;
    }
  }

  lemma ZeroStateIsStandard()
    ensures Same((x, y, z) => false, CubeOf(Zeros(LANES))) && IsState(Zeros(LANES))
  {
    forall z: nat ensures !Bit(0, z) { BitZero(z); }
    hide Bit, Index;
  }

  /** Absorbing byte blocks is absorbing their bits. */
  lemma {:induction false} AbsorbIsStandard(padded: seq<nat>)
    requires Bytes(padded) && Blocks(|padded|) && BitBlocks(8 * |padded|)
    ensures Same(Sponge(BitsOf(padded)), CubeOf(Absorbed(Zeros(LANES), padded))) && IsState(Absorbed(Zeros(LANES), padded))
    decreases |padded|
  {
    if padded == [] {
      AbsorbNone(Zeros(LANES), padded);
      ZeroStateIsStandard();
    } else {
      var n := |padded| - RATE;
      AbsorbIsStandard(padded[..n]);
      AbsorbStep(padded, n);
    }
  }

  lemma AbsorbStep(padded: seq<nat>, n: nat)
    requires Bytes(padded) && Blocks(|padded|) && n + RATE == |padded| && Blocks(n)
    requires BitBlocks(8 * |padded|) && BitBlocks(8 * n)
    requires var s := Absorbed(Zeros(LANES), padded[..n]); IsState(s) && Same(Sponge(BitsOf(padded[..n])), CubeOf(s))
    ensures Same(Sponge(BitsOf(padded)), CubeOf(Absorbed(Zeros(LANES), padded))) && IsState(Absorbed(Zeros(LANES), padded))
  {
    hide Absorbed, Sponge, KeccakF, XorBlock, StandardRounds, AddBlock, Same, CubeOf, BitsOf, Bytes, BitBlocks;
    var s, block := Absorbed(Zeros(LANES), padded[..n]), padded[n..];
    var a := Sponge(BitsOf(padded[..n]));
    assert padded[..n + RATE] == padded && padded[n..n + RATE] == block;
    AbsorbOneMore(Zeros(LANES), padded, n);
    BitsOfParts(padded, n);
    SpongeOneMore(BitsOf(padded), 8 * n);
    PartsAreBytes(padded, n);
    XorBlockIsStandard(s, a, block);
    PermutationIsStandard(XorBlock(s, block), AddBlock(a, BitsOf(block)));
  }

  lemma PartsAreBytes(s: seq<nat>, n: nat)
    requires Bytes(s) && n <= |s|
    ensures Bytes(s[..n]) && Bytes(s[n..])
  {}

  lemma SpongeOneMore(bits: seq<bool>, n: nat)
    requires BitBlocks(|bits|) && BitBlocks(n) && |bits| == n + RATE_BITS
    ensures Sponge(bits) == StandardRounds(AddBlock(Sponge(bits[..n]), bits[n..]), ROUNDS)
  {
    hide StandardRounds, AddBlock;
  }

  lemma PaddedIsBytes(message: seq<nat>)
    requires Bytes(message)
    ensures Bytes(Pad(message))
  {
    hide PaddedLength, Pad;
    forall i | 0 <= i < |Pad(message)| ensures Pad(message)[i] < 256 { PadAt(message, i); }
  }

  lemma ByteMask(k: nat)
    requires k < 8
    ensures Bit(0xff, k)
  {
    match k
    case 0 => case 1 => case 2 => case 3 => case 4 => case 5 => case 6 => case _ =>
  }

  lemma PositionInState(i: nat)
    requires i < 256
    ensures i / 8 / 8 == i / 64 && i / 8 % 8 * 8 + i % 8 == i % 64
    ensures Inside(i / 64, 0, i % 64) && Index(i / 64, 0) == i / 64
  {}

  /** The digest reads the state's bits in order. */
  lemma SqueezedBit(s: seq<nat>, i: nat)
    requires |s| == LANES && i < 256
    ensures Bit(Squeezed(s)[i / 8], i % 8) == CubeOf(s)(i / 64, 0, i % 64)
  {
    hide Bit, And, Shr;
    var b, k := i / 8, i % 8;
    ByteMask(k);
    PositionInState(i);
    BitAnd(Shr(s[b / 8], b % 8 * 8), 0xff, k);
    BitShr(s[b / 8], b % 8 * 8, k);
  }

  /**
   keccak256 is the sponge with capacity 512 and 256 bits of output, with pad10*1 and no suffix bits:
   bit i of the digest is bit i of the state after absorbing the message's bits and the padding.
   */
  lemma DigestIsStandard(message: seq<nat>, i: nat)
    requires Bytes(message) && i < 256
    ensures var input := BitsOf(message) + Pad101(RATE_BITS, 8 * |message|);
            BitBlocks(|input|) && Bit(Digest(message)[i / 8], i % 8) == Sponge(input)(i / 64, 0, i % 64)
  {
    hide Pad, PaddedLength, Sponge, Absorbed, Squeezed, BitsOf, Pad101, Bit, CubeOf, Bytes;
    PaddedLengthFits(|message|);
    PaddedIsBytes(message);
    PaddingIsStandard(message);
    AbsorbIsStandard(Pad(message));
    SqueezedBit(Absorbed(Zeros(LANES), Pad(message)), i);
    assert Inside(i / 64, 0, i % 64);
  }
}
