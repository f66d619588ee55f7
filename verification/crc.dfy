/**
 The MS-PST CRC (section 5.3 of [MS-PST]). `ComputeCrc` consumes an unaligned head, then eight bytes
 at a time through eight tables, then a tail. It is proved equal to the plain byte-at-a-time fold,
 for every alignment of the data in memory.
 */
module Crc {
  import opened Additive
  import opened CrcTables

  function Low(x: bv32): bv8 {
    (x & 0xFF) as bv8
  }

  /** One byte of the CRC through the single 256-entry table. */
  function ByteStep(crc: bv32, b: bv8): bv32 {
    Xor(Offset32(Low(Xor(crc, b as bv32))), crc >> 8)
  }

  /** The reference definition: one table step for each byte, in order. */
  function Bytewise(crc: bv32, data: seq<bv8>): bv32 {
    if data == [] then crc
    else ByteStep(Bytewise(crc, data[..|data| - 1]), data[|data| - 1])
  }

  /** Four bytes read as a little-endian word. */
  function LittleEndian(b0: bv8, b1: bv8, b2: bv8, b3: bv8): bv32 {
    b0 as bv32 | (b1 as bv32 << 8) | (b2 as bv32 << 16) | (b3 as bv32 << 24)
  }

  lemma LowHighBits(x: bv32)
    ensures x == (Low(x) as bv32) ^ (x & 0xFFFFFF00)
  {}

  lemma SplitLow(x: bv32)
    ensures Shift8(x) == Xor(Shift8(Low(x) as bv32), x >> 8)
  {
    LowHighBits(x);
    HighShifts(x);
    Shift8Linear();
    assert x == Xor(Low(x) as bv32, x & 0xFFFFFF00);
  }

  lemma HighShifts(x: bv32)
    ensures Shift8(x & 0xFFFFFF00) == x >> 8
  {}

  lemma OrIsXor(x: bv32, y: bv32)
    requires x & y == 0
    ensures x | y == Xor(x, y)
  {}

  lemma LanesDisjoint(b0: bv8, b1: bv8, b2: bv8, b3: bv8)
    ensures b0 as bv32 & (b1 as bv32 << 8) == 0
    ensures (b0 as bv32 | (b1 as bv32 << 8)) & (b2 as bv32 << 16) == 0
    ensures (b0 as bv32 | (b1 as bv32 << 8) | (b2 as bv32 << 16)) & (b3 as bv32 << 24) == 0
  {}

  lemma WordLanes(b0: bv8, b1: bv8, b2: bv8, b3: bv8)
    ensures LittleEndian(b0, b1, b2, b3)
         == Xor(Xor(Xor(b0 as bv32, b1 as bv32 << 8), b2 as bv32 << 16), b3 as bv32 << 24)
  {
    LanesDisjoint(b0, b1, b2, b3);
    OrIsXor(b0 as bv32, b1 as bv32 << 8);
    OrIsXor(b0 as bv32 | (b1 as bv32 << 8), b2 as bv32 << 16);
    OrIsXor(b0 as bv32 | (b1 as bv32 << 8) | (b2 as bv32 << 16), b3 as bv32 << 24);
  }

  lemma LaneShifts(b: bv8)
    ensures Shift8(b as bv32 << 8) == b as bv32
    ensures Shift8(b as bv32 << 16) == b as bv32 << 8
    ensures Shift8(b as bv32 << 24) == b as bv32 << 16
  {}
  lemma StepIsShift(crc: bv32, b: bv8)
    ensures ByteStep(crc, b) == Shift8(Xor(crc, b as bv32))
  {
    var x := Xor(crc, b as bv32);
    SplitLow(x);
    Offset32Shifts(Low(x));
    HighUnchanged(crc, b);
  }
  lemma HighUnchanged(crc: bv32, b: bv8)
    ensures Xor(crc, b as bv32) >> 8 == crc >> 8
  {}

  lemma XorAssociativeBits(x: bv32, y: bv32, z: bv32)
    ensures (x ^ y) ^ z == x ^ (y ^ z)
  {}

  lemma XorAssociative()
    ensures Associative(Xor)
  {
    forall x, y, z ensures Xor(Xor(x, y), z) == Xor(x, Xor(y, z)) {
      XorAssociativeBits(x, y, z);
    }
  }

  /** Four applications of `Shift8`: the effect of four zero bytes. */
  function Shift32(x: bv32): bv32 {
    Shift8(Shift8(Shift8(Shift8(x))))
  }

  lemma FourBytes(crc: bv32, b0: bv8, b1: bv8, b2: bv8, b3: bv8)
    ensures ByteStep(ByteStep(ByteStep(ByteStep(crc, b0), b1), b2), b3)
         == Shift32(Xor(crc, LittleEndian(b0, b1, b2, b3)))
  {
    StepIsShift(crc, b0);
    var c1 := ByteStep(crc, b0);
    StepIsShift(c1, b1);
    var c2 := ByteStep(c1, b1);
    StepIsShift(c2, b2);
    var c3 := ByteStep(c2, b2);
    StepIsShift(c3, b3);
    LaneShifts(b1);
    LaneShifts(b2);
    LaneShifts(b3);
    WordLanes(b0, b1, b2, b3);
    XorAssociative();
    Shift8Linear();
    FourSteps(Shift8, Xor, crc, b0 as bv32, b1 as bv32, b2 as bv32, b3 as bv32,
              b1 as bv32 << 8, b2 as bv32 << 16, b3 as bv32 << 24);
  }

  /** The table terms of the second word of a chunk. */
  lemma LowerTables(b0: bv8, b1: bv8, b2: bv8, b3: bv8)
    ensures Shift32(LittleEndian(b0, b1, b2, b3))
         == Xor(Xor(Xor(Offset56(b0), Offset48(b1)), Offset40(b2)), Offset32(b3))
  {
    Shift8Linear();
    LaneShifts(b1);
    LaneShifts(b2);
    LaneShifts(b3);
    WordLanes(b0, b1, b2, b3);
    FourLanes(Shift8, Xor, b0 as bv32, b1 as bv32, b2 as bv32, b3 as bv32,
              b1 as bv32 << 8, b2 as bv32 << 16, b3 as bv32 << 24);
    Offset32Shifts(b0); Offset40Shifts(b0); Offset48Shifts(b0); Offset56Shifts(b0);
    Offset32Shifts(b1); Offset40Shifts(b1); Offset48Shifts(b1);
    Offset32Shifts(b2); Offset40Shifts(b2);
    Offset32Shifts(b3);
  }

  lemma LanesOf(x: bv32)
    ensures x == LittleEndian(Low(x), Low(x >> 8), Low(x >> 16), Low(x >> 24))
  {}

  /** The table terms of the first word of a chunk, which four more bytes will follow. */
  lemma UpperTables(x: bv32)
    ensures Shift32(Shift32(x))
         == Xor(Xor(Xor(Offset88(Low(x)), Offset80(Low(x >> 8))), Offset72(Low(x >> 16))), Offset64(Low(x >> 24)))
  {
    var b0, b1, b2, b3 := Low(x), Low(x >> 8), Low(x >> 16), Low(x >> 24);
    LanesOf(x);
    LowerTables(b0, b1, b2, b3);
    Shift8Linear();
    FourfoldLinear(Shift8, Xor, Xor(Xor(Offset56(b0), Offset48(b1)), Offset40(b2)), Offset32(b3));
    FourfoldLinear(Shift8, Xor, Xor(Offset56(b0), Offset48(b1)), Offset40(b2));
    FourfoldLinear(Shift8, Xor, Offset56(b0), Offset48(b1));
    Offset64Shifts(b0); Offset72Shifts(b0); Offset80Shifts(b0); Offset88Shifts(b0);
    Offset56Shifts(b1); Offset64Shifts(b1); Offset72Shifts(b1); Offset80Shifts(b1);
    Offset48Shifts(b2); Offset56Shifts(b2); Offset64Shifts(b2); Offset72Shifts(b2);
    Offset40Shifts(b3); Offset48Shifts(b3); Offset56Shifts(b3); Offset64Shifts(b3);
  }

  /** Slicing by eight: the eight table terms of one chunk are eight steps of the single table. */
  lemma ChunkIsEightSteps(crc: bv32, d: seq<bv8>, x: bv32, upper: bv32, result: bv32)
    requires |d| == 8
    requires x == Xor(crc, LittleEndian(d[0], d[1], d[2], d[3]))
    requires upper == Xor(Xor(Xor(Offset88(Low(x)), Offset80(Low(x >> 8))), Offset72(Low(x >> 16))), Offset64(Low(x >> 24)))
    requires result == Xor(Xor(Xor(Xor(upper, Offset56(d[4])), Offset48(d[5])), Offset40(d[6])), Offset32(d[7]))
    ensures result == Bytewise(crc, d)
  {
    FourBytes(crc, d[0], d[1], d[2], d[3]);
    BytewiseFour(crc, d[..4]);
    var half := Shift32(x);
    FourBytes(half, d[4], d[5], d[6], d[7]);
    BytewiseFour(half, d[4..]);
    Concatenation(crc, d[..4], d[4..]);
    assert d[..4] + d[4..] == d;
    UpperTables(x);
    LowerTables(d[4], d[5], d[6], d[7]);
    Shift8Linear();
    FourfoldLinear(Shift8, Xor, half, LittleEndian(d[4], d[5], d[6], d[7]));
    XorAssociative();
    Regroup(Xor, upper, Offset56(d[4]), Offset48(d[5]), Offset40(d[6]), Offset32(d[7]));
  }

  lemma BytewiseFour(crc: bv32, d: seq<bv8>)
    requires |d| == 4
    ensures Bytewise(crc, d) == ByteStep(ByteStep(ByteStep(ByteStep(crc, d[0]), d[1]), d[2]), d[3])
  {
    assert d[..3][..2] == d[..2] && d[..2][..1] == d[..1] && d[..1][..0] == [];
    assert Bytewise(crc, d[..1]) == ByteStep(crc, d[0]);
    assert Bytewise(crc, d[..2]) == ByteStep(Bytewise(crc, d[..1]), d[1]);
    assert Bytewise(crc, d[..3]) == ByteStep(Bytewise(crc, d[..2]), d[2]);
  }

  /** The CRC of a concatenation is the CRC of the second piece started from the CRC of the first. */
  lemma {:induction false} Concatenation(crc: bv32, a: seq<bv8>, b: seq<bv8>)
    ensures Bytewise(crc, a + b) == Bytewise(Bytewise(crc, a), b)
  {
    if b == [] {
      assert a + b == a;
    } else {
      assert (a + b)[..|a + b| - 1] == a + b[..|b| - 1];
      Concatenation(crc, a, b[..|b| - 1]);
    }
  }

  lemma AppendByte(crc: bv32, data: seq<bv8>, i: nat)
    requires i < |data|
    ensures Bytewise(crc, data[..i + 1]) == ByteStep(Bytewise(crc, data[..i]), data[i])
  {
    assert data[..i + 1][..i] == data[..i];
  }

  lemma AppendChunk(crc: bv32, data: seq<bv8>, i: nat)
    requires i + 8 <= |data|
    ensures Bytewise(crc, data[..i + 8]) == Bytewise(Bytewise(crc, data[..i]), data[i..i + 8])
  {
    Concatenation(crc, data[..i], data[i..i + 8]);
    assert data[..i] + data[i..i + 8] == data[..i + 8];
  }

  /** The body of the chunk loop: eight bytes through eight tables. */
  method SliceChunk(before: bv32, chunk: seq<bv8>) returns (crc: bv32)
    requires |chunk| == 8
    ensures crc == Bytewise(before, chunk)
  {
    var first := LittleEndian(chunk[0], chunk[1], chunk[2], chunk[3]);
    crc := Xor(before, first);
    var mixed := crc;
    crc := Xor(Xor(Xor(Offset88(Low(crc)), Offset80(Low(crc >> 8))), Offset72(Low(crc >> 16))), Offset64(Low(crc >> 24)));
    var upper := crc;
    crc := Xor(Xor(Xor(Xor(crc, Offset56(chunk[4])), Offset48(chunk[5])), Offset40(chunk[6])), Offset32(chunk[7]));
    ChunkIsEightSteps(before, chunk, mixed, upper, crc);
  }

  /** The body of the head and tail loops: one byte through one table. */
  method SliceByte(before: bv32, b: bv8) returns (crc: bv32)
    ensures crc == ByteStep(before, b)
  {
    crc := Xor(Offset32(Low(Xor(before, b as bv32))), before >> 8);
  }

  /** The head loop and the tail loop. */
  method SliceBytes(before: bv32, data: seq<bv8>) returns (crc: bv32)
    ensures crc == Bytewise(before, data)
  {
    crc := before;
    for i := 0 to |data|
      invariant crc == Bytewise(before, data[..i])
    {
      AppendByte(before, data, i);
      crc := SliceByte(crc, data[i]);
    }
    assert data[..|data|] == data;
  }

  /** The chunk loop. */
  method SliceChunks(before: bv32, data: seq<bv8>, count: nat) returns (crc: bv32)
    requires |data| == 8 * count
    ensures crc == Bytewise(before, data)
  {
    crc := before;
    for k := 0 to count
      invariant crc == Bytewise(before, data[..8 * k])
    {
      AppendChunk(before, data, 8 * k);
      crc := SliceChunk(crc, data[8 * k..8 * k + 8]);
    }
    assert data[..8 * count] == data;
  }

  lemma ThreePieces(crc: bv32, data: seq<bv8>, i: nat, j: nat)
    requires i <= j <= |data|
    ensures Bytewise(Bytewise(Bytewise(crc, data[..i]), data[i..j]), data[j..]) == Bytewise(crc, data)
  {
    Concatenation(crc, data[..i], data[i..j]);
    Concatenation(crc, data[..i] + data[i..j], data[j..]);
    assert data[..i] + data[i..j] + data[j..] == data;
  }

  /** How many bytes precede the first aligned word, and how many whole chunks follow them. */
  function Split(length: nat, misalignment: nat): (r: (nat, nat))
    requires misalignment < 4
    ensures r.0 + 8 * r.1 <= length
    ensures length >= 4 ==> (misalignment + r.0) % 4 == 0 && length < r.0 + 8 * r.1 + 8
  {
    var alignedOffset := if length < 4 then 0 else misalignment;
    var head := if alignedOffset == 0 then 0 else 4 - alignedOffset;
    (head, if length < 4 then 0 else (length - head) / 8)
  }

  /**
   `misalignment` is the address of the data modulo the size of a 32-bit word, which decides how many
   bytes go through the head loop. The result does not depend on it.
   */
  method ComputeCrc(initial: bv32, data: seq<bv8>, misalignment: nat) returns (crc: bv32)
    requires misalignment < 4
    ensures crc == Bytewise(initial, data)
  {
    var (head, chunks) := Split(|data|, misalignment);
    var end := head + 8 * chunks;
    crc := SliceBytes(initial, data[..head]);
    crc := SliceChunks(crc, data[head..end], chunks);
    crc := SliceBytes(crc, data[end..]);
    ThreePieces(initial, data, head, end);
  }

  // What the checksum is for: two blocks that differ only inside a window of at most four
  // consecutive bytes never share a CRC.

  lemma ShiftInjective(x: bv32, y: bv32)
    requires Shift(x) == Shift(y)
    ensures x == y
  {}

  lemma Shift8Injective(x: bv32, y: bv32)
    requires Shift8(x) == Shift8(y)
    ensures x == y
  {
    var x4, y4 := Shift(Shift(Shift(Shift(x)))), Shift(Shift(Shift(Shift(y))));
    ShiftInjective(Shift(Shift(Shift(x4))), Shift(Shift(Shift(y4))));
    ShiftInjective(Shift(Shift(x4)), Shift(Shift(y4)));
    ShiftInjective(Shift(x4), Shift(y4));
    ShiftInjective(x4, y4);
    ShiftInjective(Shift(Shift(Shift(x))), Shift(Shift(Shift(y))));
    ShiftInjective(Shift(Shift(x)), Shift(Shift(y)));
    ShiftInjective(Shift(x), Shift(y));
    ShiftInjective(x, y);
  }

  lemma XorCancels(x: bv32, y: bv32, z: bv32)
    requires Xor(x, z) == Xor(y, z)
    ensures x == y
  {
    XorTwice(x, z);
    XorTwice(y, z);
  }

  lemma XorTwice(x: bv32, z: bv32)
    ensures Xor(Xor(x, z), z) == x
  {}

  lemma {:induction false} SeedInjective(x: bv32, y: bv32, data: seq<bv8>)
    requires Bytewise(x, data) == Bytewise(y, data)
    ensures x == y
  {
    if data != [] {
      var body, b := data[..|data| - 1], data[|data| - 1];
      var cx, cy := Bytewise(x, body), Bytewise(y, body);
      StepIsShift(cx, b);
      StepIsShift(cy, b);
      Shift8Injective(Xor(cx, b as bv32), Xor(cy, b as bv32));
      XorCancels(cx, cy, b as bv32);
      SeedInjective(x, y, body);
    }
  }

  lemma Shift32Injective(x: bv32, y: bv32)
    requires Shift32(x) == Shift32(y)
    ensures x == y
  {
    Shift8Injective(Shift8(Shift8(Shift8(x))), Shift8(Shift8(Shift8(y))));
    Shift8Injective(Shift8(Shift8(x)), Shift8(Shift8(y)));
    Shift8Injective(Shift8(x), Shift8(y));
    Shift8Injective(x, y);
  }

  lemma WindowInjective(crc: bv32, u: seq<bv8>, v: seq<bv8>)
    requires |u| == |v| == 4
    requires Bytewise(crc, u) == Bytewise(crc, v)
    ensures u == v
  {
    BytewiseFour(crc, u);
    BytewiseFour(crc, v);
    FourBytes(crc, u[0], u[1], u[2], u[3]);
    FourBytes(crc, v[0], v[1], v[2], v[3]);
    var wu, wv := LittleEndian(u[0], u[1], u[2], u[3]), LittleEndian(v[0], v[1], v[2], v[3]);
    var x, y := Xor(crc, wu), Xor(crc, wv);
    Shift32Injective(x, y);
    XorCommutes(crc, wu);
    XorCommutes(crc, wv);
    XorCancels(wu, wv, crc);
    SameWord(u, v);
  }

  lemma SameWord(u: seq<bv8>, v: seq<bv8>)
    requires |u| == |v| == 4
    requires LittleEndian(u[0], u[1], u[2], u[3]) == LittleEndian(v[0], v[1], v[2], v[3])
    ensures u == v
  {
    LanesInjective(u[0], u[1], u[2], u[3]);
    LanesInjective(v[0], v[1], v[2], v[3]);
  }

  lemma XorCommutes(x: bv32, y: bv32)
    ensures Xor(x, y) == Xor(y, x)
  {}

  lemma LanesInjective(b0: bv8, b1: bv8, b2: bv8, b3: bv8)
    ensures var w := LittleEndian(b0, b1, b2, b3);
      Low(w) == b0 && Low(w >> 8) == b1 && Low(w >> 16) == b2 && Low(w >> 24) == b3
  {}

  lemma BurstDetected(crc: bv32, before: seq<bv8>, u: seq<bv8>, v: seq<bv8>, after: seq<bv8>)
    requires |u| == |v| == 4 && u != v
    ensures Bytewise(crc, before + u + after) != Bytewise(crc, before + v + after)
  {
    Concatenation(crc, before + u, after);
    Concatenation(crc, before, u);
    Concatenation(crc, before + v, after);
    Concatenation(crc, before, v);
    var seed := Bytewise(crc, before);
    if Bytewise(crc, before + u + after) == Bytewise(crc, before + v + after) {
      SeedInjective(Bytewise(seed, u), Bytewise(seed, v), after);
      WindowInjective(seed, u, v);
    }
  }
}
