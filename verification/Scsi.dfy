/**
 * The disk engine of user/scsi.c.  A LUN file is an array of bytes; fread and fwrite move any number of
 * bytes from one to the number asked for.  C integers appear with their widths: long and off_t hold 64 bits
 * and int holds 32, and every sum and product below is checked to fit.
 */
module Scsi {
  import opened Bytes

  newtype int32 = n: int | -0x8000_0000 <= n < 0x8000_0000
  newtype int64 = n: int | -0x8000_0000_0000_0000 <= n < 0x8000_0000_0000_0000

  const BLOCK: nat := 512
  const MIB: nat := 1024 * 1024
  const MAX_MB: nat := 2047

  const GOOD: byte := 0
  const CHECK_CONDITION: byte := 2

  /** The opcodes of scsi_sbc_commands whose handlers depend on the disk or on the LUN list. */
  datatype Op =
    | Read(lba: nat, blocks: nat)
    | Write(lba: nat, blocks: nat)
    | ReadCapacity
    | ReportLuns(alloc: nat)
    | Other

  function Decode(cdb: seq<byte>): (op: Op)
    requires |cdb| == 16
  {
    match cdb[0]
    case 0x28 => Read(FromBe32(cdb[2..6]), FromBe16(cdb[7..9]))
    case 0x0a => Write(FromBe16(cdb[2..4]), cdb[4])
    case 0x2a => Write(FromBe32(cdb[2..6]), FromBe16(cdb[7..9]))
    case 0xaa => Write(FromBe32(cdb[2..6]), FromBe32(cdb[6..10]))
    case 0x25 => ReadCapacity
    case 0xa0 => ReportLuns(FromBe32(cdb[6..10]))
    case _ => Other
  }

  /** How many CDB bytes Decode looks at: the CDB size of the opcode's table entry covers them. */
  function CdbSize(opcode: byte): nat {
    match opcode
    case 0x0a => 6
    case 0x28 => 10
    case 0x2a => 10
    case 0x25 => 10
    case 0xa0 => 12
    case 0xaa => 12
    case _ => 1
  }

  /** Bytes left over in the CDB field from an earlier command do not matter. */
  lemma DecodeIgnoresStaleBytes(a: seq<byte>, b: seq<byte>, n: nat)
    requires |a| == |b| == 16 && 1 <= n <= 16
    requires a[..n] == b[..n] && CdbSize(a[0]) <= n
    ensures Decode(a) == Decode(b)
  {
    assert forall k :: 0 <= k < n ==> a[..n][k] == a[k] && b[..n][k] == b[k];
    if a[0] == 0x28 || a[0] == 0x2a {
      assert a[2..6] == b[2..6] && a[7..9] == b[7..9];
    } else if a[0] == 0x0a {
      assert a[2..4] == b[2..4];
    } else if a[0] == 0xaa || a[0] == 0xa0 {
      assert a[2..6] == b[2..6] && a[6..10] == b[6..10];
    }
  }

  // ----- what the commands do, as functions of the disk and the request buffer

  predicate InRange(mb: nat, lba: nat, blocks: nat) {
    lba * BLOCK + blocks * BLOCK <= mb * MIB
  }

  /** The bytes of an extent that lies inside the disk. */
  function Extent(disk: seq<byte>, lba: nat, blocks: nat): (bytes: seq<byte>)
    requires (lba + blocks) * BLOCK <= |disk|
    ensures |bytes| == blocks * BLOCK
  {
    disk[lba * BLOCK..(lba + blocks) * BLOCK]
  }

  function WriteExtent(disk: seq<byte>, lba: nat, bytes: seq<byte>): (disk': seq<byte>)
    requires lba * BLOCK + |bytes| <= |disk|
    ensures |disk'| == |disk|
  {
    Patch(disk, lba * BLOCK, bytes)
  }

  /** The last block number READ CAPACITY(10) reports: all ones for an empty disk. */
  function LastBlock(size: nat): uint32
    requires size <= MAX_MB * MIB
  {
    if size / BLOCK == 0 then TWO32 - 1 else size / BLOCK - 1
  }

  function CapacityData(size: nat): (d: seq<byte>)
    requires size <= MAX_MB * MIB
    ensures |d| == 12
  {
    Be32(LastBlock(size)) + Be32(BLOCK) + Zeros(4)
  }

  /** What an initiator understands of the READ CAPACITY(10) data: the last block and the block size. */
  function DecodeCapacity(d: seq<byte>): (nat, nat)
    requires |d| >= 8
  {
    (FromBe32(d[..4]), FromBe32(d[4..8]))
  }

  /** REPORT LUNS data after entries n, n+1, ... have been filled in. */
  function FillLuns(data: seq<byte>, ids: seq<byte>, alloc: nat, n: nat): (data': seq<byte>)
    requires |data| > alloc
    ensures |data'| == |data|
    decreases |ids|
  {
    if ids == [] then data
    else FillLuns(if 9 + 8 * n <= alloc then data[9 + 8 * n := ids[0]] else data, ids[1..], alloc, n + 1)
  }

  function ReportLunsData(data: seq<byte>, ids: seq<byte>, alloc: nat): (data': seq<byte>)
    requires |data| > alloc && |data| >= 8 && |ids| <= 256
    ensures |data'| == |data|
  {
    Patch(FillLuns(Patch(data, 0, Zeros(alloc)), ids, alloc, 0), 0, Be32(8 * |ids|) + Zeros(4))
  }

  /** The LUNs an initiator finds in REPORT LUNS data of which it asked for alloc bytes. */
  function DecodeLuns(data: seq<byte>, alloc: nat): (ids: seq<byte>)
    requires 8 <= alloc <= |data|
  {
    var listed := FromBe32(data[..4]) / 8;
    seq(Min(listed, (alloc - 8) / 8), k requires 0 <= k < Min(listed, (alloc - 8) / 8) => data[9 + 8 * k])
  }

  // ----- properties of those functions

  /** READ CAPACITY agrees with access: on a disk that has blocks at all, a non-empty extent is accepted exactly
      when it ends at or before the reported last block.  On an empty disk the report is all ones and wrong. */
  lemma CapacityAgreesWithAccess(mb: nat)
    requires mb <= MAX_MB
    ensures DecodeCapacity(CapacityData(mb * MIB)).1 == 512
    ensures DecodeCapacity(CapacityData(mb * MIB)).0 == if mb == 0 then 0xFFFF_FFFF else 2048 * mb - 1
    ensures mb > 0 <==>
            (forall lba, blocks | 0 <= lba < TWO32 && 0 < blocks < TWO32 ::
               InRange(mb, lba, blocks) <==> lba + blocks - 1 <= DecodeCapacity(CapacityData(mb * MIB)).0)
  {
    var d := CapacityData(mb * MIB);
    assert d[..4] == Be32(LastBlock(mb * MIB)) && d[4..8] == Be32(BLOCK);
    assert mb * MIB / BLOCK == mb * 2048;
    if mb == 0 {
      assert !InRange(mb, 0, 1) && 0 + 1 - 1 <= DecodeCapacity(d).0;
    } else {
      assert LastBlock(mb * MIB) == mb * 2048 - 1;
      forall lba, blocks | 0 <= lba < TWO32 && 0 < blocks < TWO32
        ensures InRange(mb, lba, blocks) <==> lba + blocks - 1 <= DecodeCapacity(d).0
      {
        assert lba * BLOCK + blocks * BLOCK <= mb * MIB <==> lba + blocks <= mb * 2048;
      }
    }
  }

  /** A written extent reads back, and every byte outside it is as before. */
  lemma ExtentWritten(disk: seq<byte>, lba: nat, blocks: nat, bytes: seq<byte>, k: nat)
    requires (lba + blocks) * BLOCK <= |disk| && |bytes| == blocks * BLOCK
    ensures Extent(WriteExtent(disk, lba, bytes), lba, blocks) == bytes
    ensures k < |disk| && (k < lba * BLOCK || (lba + blocks) * BLOCK <= k) ==> WriteExtent(disk, lba, bytes)[k] == disk[k]
  {
  }

  /** CDBs of the three write commands for one extent. */
  function Write6Cdb(lba: nat, blocks: byte): seq<byte>
    requires lba < 0x1_0000
  {
    [0x0a, 0] + Be16(lba) + [blocks, 0] + Zeros(10)
  }

  function Write10Cdb(lba: uint32, blocks: nat): seq<byte>
    requires blocks < 0x1_0000
  {
    [0x2a, 0] + Be32(lba) + [0] + Be16(blocks) + [0] + Zeros(6)
  }

  function Write12Cdb(lba: uint32, blocks: uint32): seq<byte> {
    [0xaa, 0] + Be32(lba) + Be32(blocks) + [0, 0] + Zeros(4)
  }

  function Read10Cdb(lba: uint32, blocks: nat): seq<byte>
    requires blocks < 0x1_0000
  {
    [0x28, 0] + Be32(lba) + [0] + Be16(blocks) + [0] + Zeros(6)
  }

  function ReadCapacityCdb(): seq<byte> {
    [0x25] + Zeros(15)
  }

  function ReportLunsCdb(alloc: uint32): seq<byte> {
    [0xa0] + Zeros(5) + Be32(alloc) + Zeros(6)
  }

  /** READ(10) (SBC-2, section 5.6), READ CAPACITY(10) and REPORT LUNS as an initiator encodes them. */
  lemma ReadsDecode(lba: uint32, blocks: nat, alloc: uint32)
    requires blocks < 0x1_0000
    ensures Decode(Read10Cdb(lba, blocks)) == Read(lba, blocks)
    ensures Decode(ReadCapacityCdb()) == ReadCapacity && Decode(ReportLunsCdb(alloc)) == ReportLuns(alloc)
  {
    var ten, report := Read10Cdb(lba, blocks), ReportLunsCdb(alloc);
    assert ten[2..6] == Be32(lba) && ten[7..9] == Be16(blocks);
    assert report[6..10] == Be32(alloc);
  }

  /** Which bytes of a CDB name the address, the number of blocks and the allocation length, and how they are read;
      bytes 1, 6 and 9 to 15 of the ten-byte commands play no part. */
  lemma FieldsOfCdb(cdb: seq<byte>)
    requires |cdb| == 16
    ensures cdb[0] == 0x28 ==> Decode(cdb) == Read(BigEndian(cdb[2..6]), BigEndian(cdb[7..9]))
    ensures cdb[0] == 0x2a ==> Decode(cdb) == Write(BigEndian(cdb[2..6]), BigEndian(cdb[7..9]))
    ensures cdb[0] == 0xaa ==> Decode(cdb) == Write(BigEndian(cdb[2..6]), BigEndian(cdb[6..10]))
    ensures cdb[0] == 0x0a ==> Decode(cdb) == Write(BigEndian(cdb[2..4]), BigEndian([cdb[4]]))
    ensures cdb[0] == 0xa0 ==> Decode(cdb) == ReportLuns(BigEndian(cdb[6..10]))
    ensures cdb[0] == 0x25 <==> Decode(cdb).ReadCapacity?
    ensures Decode(cdb).Other? <==> cdb[0] !in [0x0a, 0x25, 0x28, 0x2a, 0xa0, 0xaa]
  {
    BigEndianIs(cdb[2..6]);
    BigEndianIs(cdb[6..10]);
    BigEndianIs(cdb[7..9]);
    BigEndianIs(cdb[2..4]);
    BigEndianIs([cdb[4]]);
  }

  /** The three encodings of one write name the same write, hence give the same status and the same disk. */
  lemma WritesAgree(lba: uint32, blocks: nat)
    requires blocks < 0x1_0000
    ensures Decode(Write10Cdb(lba, blocks)) == Decode(Write12Cdb(lba, blocks)) == Write(lba, blocks)
    ensures lba < 0x1_0000 && blocks < 256 ==> Decode(Write6Cdb(lba, blocks)) == Write(lba, blocks)
  {
    var ten, twelve := Write10Cdb(lba, blocks), Write12Cdb(lba, blocks);
    assert ten[2..6] == Be32(lba) && ten[7..9] == Be16(blocks);
    assert twelve[2..6] == Be32(lba) && twelve[6..10] == Be32(blocks);
    if lba < 0x1_0000 && blocks < 256 {
      assert Write6Cdb(lba, blocks)[2..4] == Be16(lba);
    }
  }

  /** WRITE(6) as section 5.24 of SBC-2 reads it: 21 address bits, and a zero length that means 256 blocks. */
  function StandardWrite6(cdb: seq<byte>): Op
    requires |cdb| == 16
  {
    Write((cdb[1] % 32) * 0x1_0000 + FromBe16(cdb[2..4]), if cdb[4] == 0 then 256 else cdb[4] as nat)
  }

  /** The code's WRITE(6) is the standard's exactly when the high address bits are clear and the length is not 0. */
  lemma Write6MeetsStandard(cdb: seq<byte>)
    requires |cdb| == 16 && cdb[0] == 0x0a
    ensures Decode(cdb) == StandardWrite6(cdb) <==> cdb[1] % 32 == 0 && cdb[4] != 0
  {
    assert FromBe16(cdb[2..4]) < 0x1_0000;
  }

  /** Entry n + i of the list holds LUN i if its position is not past alloc; nothing else changes. */
  lemma {:induction false} FillLunsAt(data: seq<byte>, ids: seq<byte>, alloc: nat, n: nat, p: nat)
    requires |data| > alloc && p < |data|
    ensures FillLuns(data, ids, alloc, n)[p] ==
            if p <= alloc && p >= 9 + 8 * n && (p - 9) % 8 == 0 && (p - 9) / 8 - n < |ids| then ids[(p - 9) / 8 - n]
            else data[p]
    decreases |ids|
  {
    if ids == [] {
    } else {
      var data' := if 9 + 8 * n <= alloc then data[9 + 8 * n := ids[0]] else data;
      FillLunsAt(data', ids[1..], alloc, n + 1, p);
      if p == 9 + 8 * n {
        assert (p - 9) / 8 == n;
      } else if p >= 9 + 8 * n && (p - 9) % 8 == 0 {
        assert (p - 9) / 8 > n;
      }
    }
  }

  /** For an allocation length that is a multiple of 8 and holds an entry, the response lists the first LUNs that
      fit, in list order, and its length field counts all of them. */
  lemma ReportLunsRoundTrip(data: seq<byte>, ids: seq<byte>, alloc: nat)
    requires |data| > alloc && |ids| <= 256
    requires alloc % 8 == 0 && alloc >= 16
    ensures FromBe32(ReportLunsData(data, ids, alloc)[..4]) == 8 * |ids|
    ensures DecodeLuns(ReportLunsData(data, ids, alloc), alloc) == ids[..Min(|ids|, (alloc - 8) / 8)]
    ensures ReportLunsData(data, ids, alloc)[alloc..] == data[alloc..]
  {
    var cleared := Patch(data, 0, Zeros(alloc));
    var filled := FillLuns(cleared, ids, alloc, 0);
    var r := ReportLunsData(data, ids, alloc);
    assert r[..4] == Be32(8 * |ids|);
    forall k | 0 <= k < Min(|ids|, (alloc - 8) / 8) ensures r[9 + 8 * k] == ids[k] {
      FillLunsAt(cleared, ids, alloc, 0, 9 + 8 * k);
    }
    forall p | alloc <= p < |data| ensures r[p] == data[p] {
      FillLunsAt(cleared, ids, alloc, 0, p);
    }
  }

  /** No byte past the allocation length is written, whatever the buffer held, exactly when the length field
      itself fits and the last entry does not start one byte past the end: the comparison that admits an entry
      is off by one. */
  ghost predicate StaysInside(ids: seq<byte>, alloc: nat) {
    alloc >= 8 && !(alloc % 8 == 1 && alloc >= 9 && (alloc - 9) / 8 < |ids|)
  }

  lemma ReportLunsStaysInside(ids: seq<byte>, alloc: nat)
    requires |ids| <= 256
    ensures StaysInside(ids, alloc) <==>
            (forall data: seq<byte> | |data| > alloc && |data| >= 8 ::
               ReportLunsData(data, ids, alloc)[alloc..] == data[alloc..])
  {
    if StaysInside(ids, alloc) {
      forall data: seq<byte> | |data| > alloc && |data| >= 8
        ensures ReportLunsData(data, ids, alloc)[alloc..] == data[alloc..]
      {
        var cleared := Patch(data, 0, Zeros(alloc));
        forall p | alloc <= p < |data| ensures ReportLunsData(data, ids, alloc)[p] == data[p] {
          FillLunsAt(cleared, ids, alloc, 0, p);
        }
      }
    } else {
      var data := ReportLunsWitness(ids, alloc);
      assert ReportLunsData(data, ids, alloc)[alloc..][0] != data[alloc..][0];
    }
  }

  lemma ReportLunsWitness(ids: seq<byte>, alloc: nat) returns (data: seq<byte>)
    requires |ids| <= 256 && !StaysInside(ids, alloc)
    ensures |data| > alloc && |data| >= 8 && ReportLunsData(data, ids, alloc)[alloc] != data[alloc]
  {
    var probe: seq<byte> := seq(alloc + 8, _ => 0);
    FillLunsAt(Patch(probe, 0, Zeros(alloc)), ids, alloc, 0, alloc);
    var after := ReportLunsData(probe, ids, alloc)[alloc];
    data := probe[alloc := if after == 0 then 1 else 0];
    assert Patch(data, 0, Zeros(alloc))[alloc] == data[alloc];
    FillLunsAt(Patch(data, 0, Zeros(alloc)), ids, alloc, 0, alloc);
  }
}
