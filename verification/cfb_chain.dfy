/**
 The sector-chain walk over the file allocation table of a compound file, read from untrusted bytes.
 */
module CfbChain {
  import opened Wrappers

  type byte = x: int | 0 <= x < 256

  const END_OF_CHAIN: nat := 0xFFFF_FFFE

  datatype IoError = OffsetOverflow | UnexpectedEof

  /** The table as the walk sees it: where its sectors are, how many entries each holds, and the bytes. */
  datatype Table = Table(
    bytes: seq<byte>, sectorLength: nat, totalSectors: nat, fatSectors: seq<nat>, entriesPerSector: nat)

  ghost predicate WellFormed(t: Table) {
    t.entriesPerSector > 0 && t.totalSectors <= U32_MAX
  }

  function LittleEndian(b: seq<byte>): nat
    requires |b| == 4
  {
    var b0: int, b1: int, b2: int, b3: int := b[0], b[1], b[2], b[3];
    b0 + 0x100 * (b1 + 0x100 * (b2 + 0x100 * b3))
  }

  /** The entry of a sector: absent when the table is too short, an error when it cannot be read. */
  function Next(t: Table, sector: nat): Result<Option<nat>, IoError>
    requires WellFormed(t)
  {
    if sector / t.entriesPerSector >= |t.fatSectors| then Ok(None)
    else
      var fatSector := t.fatSectors[sector / t.entriesPerSector];
      var entryOffset := sector % t.entriesPerSector * 4;
      var offset := (fatSector + 1) * t.sectorLength + entryOffset;
      if offset > U64_MAX then Err(OffsetOverflow)
      else if offset + 4 > |t.bytes| then Err(UnexpectedEof)
      else Ok(Some(LittleEndian(t.bytes[offset..offset + 4])))
  }

  // The table as one sequence of entries.

  /** A sector of the file; the header before the first one is as long as a sector. */
  ghost function SectorBytes(t: Table, sector: nat): seq<byte> {
    var start := (sector + 1) * t.sectorLength;
    if start + t.sectorLength <= |t.bytes| then t.bytes[start..start + t.sectorLength] else []
  }

  /** The first n table sectors, one after the other. */
  ghost function TableBytes(t: Table, n: nat): seq<byte>
    requires n <= |t.fatSectors|
  {
    if n == 0 then [] else TableBytes(t, n - 1) + SectorBytes(t, t.fatSectors[n - 1])
  }

  /** The table sectors lie within a file of representable length, filled with entries of four bytes. */
  ghost predicate Laid(t: Table) {
    && WellFormed(t) && t.sectorLength == 4 * t.entriesPerSector && |t.bytes| <= U64_MAX
    && forall i :: 0 <= i < |t.fatSectors| ==> |SectorBytes(t, t.fatSectors[i])| == t.sectorLength
  }

  lemma {:induction false} TableLength(t: Table, n: nat)
    requires Laid(t) && n <= |t.fatSectors|
    ensures |TableBytes(t, n)| == n * t.sectorLength
  {
    if n > 0 {
      TableLength(t, n - 1);
      assert n * t.sectorLength == (n - 1) * t.sectorLength + t.sectorLength;
    }
  }

  lemma {:induction false} TableSector(t: Table, k: nat, n: nat, at: nat)
    requires Laid(t) && k < n <= |t.fatSectors| && at < t.sectorLength
    ensures k * t.sectorLength + at < |TableBytes(t, n)|
    ensures TableBytes(t, n)[k * t.sectorLength + at] == SectorBytes(t, t.fatSectors[k])[at]
  {
    TableLength(t, n - 1);
    if k < n - 1 {
      TableSector(t, k, n - 1, at);
    }
  }

  /** One byte of an entry, in the table and in the file. */
  lemma EntryByte(t: Table, k: nat, at: nat, place: nat, offset: nat)
    requires Laid(t) && k < |t.fatSectors| && at < t.sectorLength
    requires place == k * t.sectorLength + at && offset == (t.fatSectors[k] + 1) * t.sectorLength + at
    ensures place < |TableBytes(t, |t.fatSectors|)| && offset < |t.bytes|
    ensures TableBytes(t, |t.fatSectors|)[place] == t.bytes[offset]
  {
    SectorByte(t, t.fatSectors[k], at, offset - at);
    TableSector(t, k, |t.fatSectors|, at);
  }

  lemma SectorByte(t: Table, sector: nat, at: nat, start: nat)
    requires start == (sector + 1) * t.sectorLength && at < t.sectorLength == |SectorBytes(t, sector)|
    ensures start + at < |t.bytes| && SectorBytes(t, sector)[at] == t.bytes[start + at]
  {}

  /** The entry of a sector is the little-endian number at its place in the table. */
  lemma NextIsEntry(t: Table, sector: nat)
    requires Laid(t) && sector / t.entriesPerSector < |t.fatSectors|
    ensures 4 * sector + 3 < |TableBytes(t, |t.fatSectors|)|
    ensures var b := TableBytes(t, |t.fatSectors|);
      Next(t, sector) == Ok(Some(Number(b[4 * sector], b[4 * sector + 1], b[4 * sector + 2], b[4 * sector + 3])))
  {
    var k, r := sector / t.entriesPerSector, sector % t.entriesPerSector;
    EntryPlace(k, r, t.entriesPerSector, t.sectorLength, sector);
    var offset := (t.fatSectors[k] + 1) * t.sectorLength + 4 * r;
    EntryByte(t, k, 4 * r, 4 * sector, offset);
    EntryByte(t, k, 4 * r + 1, 4 * sector + 1, offset + 1);
    EntryByte(t, k, 4 * r + 2, 4 * sector + 2, offset + 2);
    EntryByte(t, k, 4 * r + 3, 4 * sector + 3, offset + 3);
    NextReads(t, sector, offset);
  }

  /** The number with these bytes, least significant first. */
  function Number(b0: int, b1: int, b2: int, b3: int): int {
    b0 + 256 * b1 + 65_536 * b2 + 16_777_216 * b3
  }

  lemma EntryPlace(k: nat, r: nat, entries: nat, length: nat, sector: nat)
    requires entries > 0 && length == 4 * entries && k == sector / entries && r == sector % entries
    ensures 4 * sector == k * length + 4 * r && 4 * r + 4 <= length
  {
    assert sector == k * entries + r;
    assert k * length == 4 * (k * entries);
  }

  lemma NextReads(t: Table, sector: nat, offset: nat)
    requires WellFormed(t) && sector / t.entriesPerSector < |t.fatSectors| && offset + 4 <= |t.bytes| <= U64_MAX
    requires offset == (t.fatSectors[sector / t.entriesPerSector] + 1) * t.sectorLength + 4 * (sector % t.entriesPerSector)
    ensures Next(t, sector)
         == Ok(Some(Number(t.bytes[offset], t.bytes[offset + 1], t.bytes[offset + 2], t.bytes[offset + 3])))
  {}

  /** Following the chain with a bound on the steps and no memory of where it has been. */
  function Walk(t: Table, current: nat, count: nat, maximum: nat): Result<Option<nat>, IoError>
    requires WellFormed(t)
    decreases maximum + 1 - count
  {
    if count > maximum then Ok(None)
    else if current == END_OF_CHAIN then Ok(Some(count))
    else if current >= t.totalSectors then Ok(None)
    else match Next(t, current)
      case Err(e) => Err(e)
      case Ok(None) => Ok(None)
      case Ok(Some(next)) => Walk(t, next, count + 1, maximum)
  }

  /** From this sector the chain ends after exactly n in-range sectors. */
  ghost predicate Ends(t: Table, current: nat, n: nat)
    requires WellFormed(t)
    decreases n
  {
    if n == 0 then current == END_OF_CHAIN
    else
      && current != END_OF_CHAIN && current < t.totalSectors
      && Next(t, current).Ok? && Next(t, current).value.Some?
      && Ends(t, Next(t, current).value.value, n - 1)
  }

  /** The walk finds a length exactly when the chain has it and it is within the bound. */
  lemma {:induction false} WalkFindsLength(t: Table, current: nat, count: nat, maximum: nat, n: nat)
    requires WellFormed(t) && count <= n
    ensures Walk(t, current, count, maximum) == Ok(Some(n)) <==> n <= maximum && Ends(t, current, n - count)
    decreases n - count
  {
    if count <= maximum && current != END_OF_CHAIN && current < t.totalSectors {
      match Next(t, current)
      case Err(_) =>
      case Ok(None) =>
      case Ok(Some(next)) =>
        if count < n {
          WalkFindsLength(t, next, count + 1, maximum, n);
        } else {
          WalkCountsUp(t, next, count + 1, maximum);
        }
    }
  }

  lemma {:induction false} WalkCountsUp(t: Table, current: nat, count: nat, maximum: nat)
    requires WellFormed(t)
    ensures var r := Walk(t, current, count, maximum); r.Ok? && r.value.Some? ==> count <= r.value.value
    decreases maximum + 1 - count
  {
    if count <= maximum && current != END_OF_CHAIN && current < t.totalSectors {
      match Next(t, current)
      case Err(_) =>
      case Ok(None) =>
      case Ok(Some(next)) => WalkCountsUp(t, next, count + 1, maximum);
    }
  }

  /** Every sector of the set is in range, readable, and leads to the set or to the given sector. */
  ghost predicate LeadsInto(t: Table, sectors: set<nat>, exit: nat)
    requires WellFormed(t)
  {
    forall x :: x in sectors ==>
      && x != END_OF_CHAIN && x < t.totalSectors
      && Next(t, x).Ok? && Next(t, x).value.Some?
      && (Next(t, x).value.value in sectors || Next(t, x).value.value == exit)
  }

  /** A chain that has returned to a visited sector never ends, however far it is followed. */
  lemma {:induction false} CycleNeverEnds(t: Table, sectors: set<nat>, current: nat, count: nat, maximum: nat)
    requires WellFormed(t) && current in sectors
    requires LeadsInto(t, sectors, current)
    ensures Walk(t, current, count, maximum) == Ok(None)
  {
    CycleFrom(t, sectors, current, current, count, maximum);
  }

  lemma {:induction false} CycleFrom(t: Table, sectors: set<nat>, exit: nat, current: nat, count: nat, maximum: nat)
    requires WellFormed(t) && exit in sectors && current in sectors
    requires LeadsInto(t, sectors, exit)
    ensures Walk(t, current, count, maximum) == Ok(None)
    decreases maximum + 1 - count
  {
    if count <= maximum {
      CycleFrom(t, sectors, exit, Next(t, current).value.value, count + 1, maximum);
    }
  }

  lemma {:induction false} BoundedSet(s: set<nat>, n: nat)
    requires forall x :: x in s ==> x < n
    ensures |s| <= n
  {
    if n > 0 {
      BoundedSet(s - {n - 1}, n - 1);
    } else {
      assert s == {};
    }
  }

  /**
   The walk with its set of visited sectors. The set rejects cycles early and never changes the answer,
   errors included; a chain that ends is no longer than the number of sectors.
   */
  method ChainLength(t: Table, first: nat, maximum: nat) returns (r: Result<Option<nat>, IoError>)
    requires WellFormed(t)
    ensures r == Walk(t, first, 0, maximum)
    ensures r.Ok? && r.value.Some? ==> r.value.value <= t.totalSectors
  {
    var current: nat := first;
    var seen: set<nat> := {};
    for count := 0 to maximum + 1
      invariant Walk(t, first, 0, maximum) == Walk(t, current, count, maximum)
      invariant LeadsInto(t, seen, current)
      invariant |seen| == count
    {
      if current == END_OF_CHAIN {
        BoundedSet(seen, t.totalSectors);
        return Ok(Some(count));
      }
      if current >= t.totalSectors {
        return Ok(None);
      }
      if current in seen {
        CycleNeverEnds(t, seen, current, count, maximum);
        return Ok(None);
      }
      seen := seen + {current};
      var next := Next(t, current);
      if next.Err? {
        return Err(next.error);
      }
      if next.value.None? {
        return Ok(None);
      }
      current := next.value.value;
    }
    return Ok(None);
  }
}
