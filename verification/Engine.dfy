/**
 * The command handlers of user/scsi.c working in place on a LUN file and a request buffer, each against the
 * function that says what it does.
 */
module Engine {
  import opened Bytes
  import opened Scsi

  const BUFFER_SIZE: nat := 135168

  /** A LUN as a value: its number, its configured size and the contents of its file. */
  datatype Lun = Lun(id: byte, mb: nat, disk: seq<byte>) {
    predicate Sized() {
      mb <= MAX_MB && |disk| == mb * MIB
    }
  }

  /** What a command leaves behind: its status, the disk and the request buffer. */
  datatype Reply = Reply(status: byte, disk: seq<byte>, buffer: seq<byte>)

  /** What the handlers need of the request buffer: they check their arguments against the disk and against
      data_size, but not against the memory behind the data pointer. */
  predicate Fits(op: Op, mb: nat, room: nat, size: nat) {
    match op
    case Read(lba, blocks) => InRange(mb, lba, blocks) ==> blocks * BLOCK <= room
    case Write(lba, blocks) => InRange(mb, lba, blocks) ==> blocks * BLOCK <= room
    case ReadCapacity => 12 <= room
    case ReportLuns(alloc) => alloc <= size ==> alloc < room && 8 <= room
    case Other => true
  }

  /** The effect of one command whose data pointer is buffer + at. */
  function Serve(lun: Lun, op: Op, ids: seq<byte>, buffer: seq<byte>, at: nat, size: nat): (r: Reply)
    requires lun.Sized() && |ids| <= 256 && !op.Other?
    requires at <= |buffer| && Fits(op, lun.mb, |buffer| - at, size)
    ensures |r.disk| == |lun.disk| && |r.buffer| == |buffer|
    ensures r.buffer[..at] == buffer[..at]
  {
    match op
    case Read(lba, blocks) =>
      if InRange(lun.mb, lba, blocks)
      then Reply(GOOD, lun.disk, Patch(buffer, at, Extent(lun.disk, lba, blocks)))
      else Reply(CHECK_CONDITION, lun.disk, buffer)
    case Write(lba, blocks) =>
      if InRange(lun.mb, lba, blocks)
      then Reply(GOOD, WriteExtent(lun.disk, lba, buffer[at..at + blocks * BLOCK]), buffer)
      else Reply(CHECK_CONDITION, lun.disk, buffer)
    case ReadCapacity => Reply(GOOD, lun.disk, Patch(buffer, at, CapacityData(|lun.disk|)))
    case ReportLuns(alloc) =>
      if alloc <= size
      then Reply(GOOD, lun.disk, buffer[..at] + ReportLunsData(buffer[at..], ids, alloc))
      else Reply(CHECK_CONDITION, lun.disk, buffer)
  }

  /** Status and reply data of a command that depends neither on the disk nor on the LUN list, or that has no handler. */
  datatype Canned = Canned(status: byte, data: seq<byte>)

  /** What the handler of any command makes of the disk and of the buffer. */
  function Handled(lun: Lun, op: Op, ids: seq<byte>, buffer: seq<byte>, at: nat, size: nat, canned: Canned): (r: Reply)
    requires lun.Sized() && |ids| <= 256 && at + |canned.data| <= |buffer| && Fits(op, lun.mb, |buffer| - at, size)
    ensures |r.disk| == |lun.disk| && |r.buffer| == |buffer|
  {
    if op.Other? then Reply(canned.status, lun.disk, Patch(buffer, at, canned.data))
    else Serve(lun, op, ids, buffer, at, size)
  }

  /** A READ(10) that is in range puts byte 512 * lba + k of the disk at position k, and nothing anywhere else. */
  lemma ReadReturns(lun: Lun, lba: uint32, blocks: nat, ids: seq<byte>, buffer: seq<byte>, at: nat, size: nat)
    requires lun.Sized() && |ids| <= 256 && blocks < 0x1_0000
    requires 512 * (lba + blocks) <= 1048576 * lun.mb && at + 512 * blocks <= |buffer|
    ensures var op := Decode(Read10Cdb(lba, blocks));
            && op.Read? && at <= |buffer| && Fits(op, lun.mb, |buffer| - at, size)
            && var r := Serve(lun, op, ids, buffer, at, size);
            && r.status == GOOD && r.disk == lun.disk && 512 * (lba + blocks) <= |lun.disk|
            && forall k :: 0 <= k < |buffer| ==>
                 r.buffer[k] == if at <= k < at + 512 * blocks then lun.disk[512 * lba + (k - at)] else buffer[k]
  {
    ReadsDecode(lba, blocks, 0);
  }

  /** READ(10) of an extent that one of the three write commands has written returns what was written, and every other
      byte of the disk is as before. */
  lemma WrittenIsRead(lun: Lun, lba: uint32, blocks: nat, cdb: seq<byte>, ids: seq<byte>, from: seq<byte>, src: nat,
                      to: seq<byte>, dst: nat, size: nat)
    requires lun.Sized() && |ids| <= 256 && blocks < 0x1_0000
    requires || cdb == Write10Cdb(lba, blocks) || cdb == Write12Cdb(lba, blocks)
             || (lba < 0x1_0000 && blocks < 256 && cdb == Write6Cdb(lba, blocks))
    requires 512 * (lba + blocks) <= 1048576 * lun.mb && src + 512 * blocks <= |from| && dst + 512 * blocks <= |to|
    ensures var w, r := Decode(cdb), Decode(Read10Cdb(lba, blocks));
            && w.Write? && r.Read?
            && Fits(w, lun.mb, |from| - src, size) && Fits(r, lun.mb, |to| - dst, size)
            && var written := Serve(lun, w, ids, from, src, size);
            && var lun' := lun.(disk := written.disk);
            && lun'.Sized()
            && var read := Serve(lun', r, ids, to, dst, size);
            && written.status == GOOD && read.status == GOOD
            && read.buffer[dst..dst + 512 * blocks] == from[src..src + 512 * blocks]
            && forall k :: 0 <= k < |lun.disk| && !(512 * lba <= k < 512 * (lba + blocks)) ==>
                 written.disk[k] == lun.disk[k]
  {
    hide Decode, Write6Cdb, Write10Cdb, Write12Cdb, Read10Cdb, Patch;
    WritesAgree(lba, blocks);
    ReadsDecode(lba, blocks, 0);
    var payload := from[src..src + 512 * blocks];
    StoredBytes(lun.disk, 512 * lba, payload);
    StoredBytes(to, dst, payload);
    assert lba * BLOCK == 512 * lba;
  }

  lemma StoredBytes(disk: seq<byte>, pos: nat, bytes: seq<byte>)
    requires pos + |bytes| <= |disk|
    ensures Patch(disk, pos, bytes)[pos..pos + |bytes|] == bytes
    ensures forall k :: 0 <= k < |disk| && !(pos <= k < pos + |bytes|) ==> Patch(disk, pos, bytes)[k] == disk[k]
  {
  }

  // ----- the handlers

  class LunData {
    const lun: byte
    const lunsizeinmb: int32
    const file: array<byte>

    constructor (lun: byte, lunsizeinmb: int32, file: array<byte>)
      ensures this.lun == lun && this.lunsizeinmb == lunsizeinmb && this.file == file
    {
      this.lun, this.lunsizeinmb, this.file := lun, lunsizeinmb, file;
    }

    /** The file is as large as the configuration says, and the size fits the int arithmetic of the handlers. */
    ghost predicate Valid()
    {
      && 0 <= lunsizeinmb as int <= MAX_MB
      && file.Length == lunsizeinmb as nat * MIB
    }

    ghost function View(): (v: Lun)
      requires Valid()
      reads file
      ensures v.Sized()
    {
      Lun(lun, lunsizeinmb as nat, file[..])
    }
  }

  /** fread after fseeko: moves any number of bytes from 1 to n. */
  method FRead(file: array<byte>, pos: nat, data: array<byte>, at: nat, n: nat) returns (got: nat)
    requires file != data
    requires 0 < n && pos + n <= file.Length && at + n <= data.Length
    modifies data
    ensures 1 <= got <= n
    ensures data[..] == Patch(old(data[..]), at, file[pos..pos + got])
  {
    got :| 1 <= got <= n;
    forall k | 0 <= k < got {
      data[at + k] := file[pos + k];
    }
  }

  /** fwrite after fseeko: moves any number of bytes from 1 to n. */
  method FWrite(file: array<byte>, pos: nat, data: array<byte>, at: nat, n: nat) returns (put: nat)
    requires file != data
    requires 0 < n && pos + n <= file.Length && at + n <= data.Length
    modifies file
    ensures 1 <= put <= n
    ensures file[..] == Patch(old(file[..]), pos, data[at..at + put])
  {
    put :| 1 <= put <= n;
    forall k | 0 <= k < put {
      file[pos + k] := data[at + k];
    }
  }

  /** The bounds check all four data commands share. */
  method OutOfRange(ld: LunData, lba: int64, transfer: int64) returns (out: bool)
    requires ld.Valid()
    requires 0 <= lba as int < TWO32 * BLOCK && 0 <= transfer as int < TWO32 * BLOCK
    ensures out <==> lba as nat + transfer as nat > ld.lunsizeinmb as nat * MIB
  {
    out := lba + transfer > (ld.lunsizeinmb * 1024 * 1024) as int64;
  }

  method SbcRead10(ld: LunData, cdb: seq<byte>, data: array<byte>, at: nat, size: nat) returns (status: byte, size': nat)
    requires ld.Valid() && ld.file != data
    requires |cdb| == 16 && cdb[0] == 0x28
    requires at <= data.Length && Fits(Decode(cdb), ld.lunsizeinmb as nat, data.Length - at, size)
    modifies data
    ensures Reply(status, ld.file[..], data[..]) ==
            Serve(ld.View(), Decode(cdb), [], old(data[..]), at, size)
    ensures size' == if status == GOOD then Decode(cdb).blocks * BLOCK else size
  {
    hide Patch;
    var lba := FromBe32(cdb[2..6]) as int64;
    var transfer := FromBe16(cdb[7..9]) as int64;
    lba, transfer := lba * 512, transfer * 512;
    size' := size;
    var out := OutOfRange(ld, lba, transfer);
    if out {
      return CHECK_CONDITION, size;
    }
    ghost var before := data[..];
    var count: int32 := 0;
    PatchNothing(before, at, ld.file[lba as nat..lba as nat]);
    while count as int64 < transfer
      invariant 0 <= count as int <= transfer as int
      invariant data[..] == Patch(before, at, ld.file[lba as nat..lba as nat + count as nat])
      decreases transfer as int - count as int
    {
      var got := FRead(ld.file, lba as nat + count as nat, data, at + count as nat, transfer as nat - count as nat);
      PatchMore(before, at, ld.file[..], lba as nat, count as nat, got);
      count := count + got as int32;
    }
    return GOOD, transfer as nat;
  }

  lemma PatchNothing(s: seq<byte>, at: nat, t: seq<byte>)
    requires at <= |s| && t == []
    ensures Patch(s, at, t) == s
  {
  }

  /** The partial transfers of the loops add up. */
  lemma PatchMore(s: seq<byte>, at: nat, src: seq<byte>, pos: nat, done: nat, more: nat)
    requires pos + done + more <= |src| && at + done + more <= |s|
    ensures Patch(Patch(s, at, src[pos..pos + done]), at + done, src[pos + done..pos + done + more])
         == Patch(s, at, src[pos..pos + (done + more)])
  {
    PatchPatch(s, at, src[pos..pos + done], src[pos + done..pos + done + more]);
    assert src[pos..pos + done] + src[pos + done..pos + done + more] == src[pos..pos + (done + more)];
  }

  /** The tail that sbc_write6, sbc_write10 and sbc_write12 have in common. */
  method WriteBlocks(ld: LunData, blockNo: uint32, blocks: uint32, data: array<byte>, at: nat, size: nat)
    returns (status: byte, size': nat)
    requires ld.Valid() && ld.file != data
    requires at <= data.Length && Fits(Write(blockNo, blocks), ld.lunsizeinmb as nat, data.Length - at, size)
    modifies ld.file
    ensures Reply(status, ld.file[..], data[..]) ==
            Serve(old(ld.View()), Write(blockNo, blocks), [], data[..], at, size)
    ensures size' == if status == GOOD then blocks * BLOCK else size
  {
    var lba, transfer := blockNo as int64 * 512, blocks as int64 * 512;
    var out := OutOfRange(ld, lba, transfer);
    if out {
      return CHECK_CONDITION, size;
    }
    assert data[..][at..at + transfer as nat] == data[at..at + transfer as nat];
    WriteLoop(ld.file, lba, transfer, data, at);
    return GOOD, transfer as nat;
  }

  method WriteLoop(file: array<byte>, lba: int64, transfer: int64, data: array<byte>, at: nat)
    requires file != data
    requires 0 <= lba as int && 0 <= transfer as int && lba as int + transfer as int <= file.Length <= MAX_MB * MIB
    requires at + transfer as nat <= data.Length
    modifies file
    ensures file[..] == Patch(old(file[..]), lba as nat, data[at..at + transfer as nat])
  {
    hide Patch;
    ghost var before := file[..];
    var count: int32 := 0;
    PatchNothing(before, lba as nat, data[at..at]);
    while count as int64 < transfer
      invariant 0 <= count as int <= transfer as int
      invariant file[..] == Patch(before, lba as nat, data[at..at + count as nat])
      decreases transfer as int - count as int
    {
      var res := FWrite(file, lba as nat + count as nat, data, at + count as nat, transfer as nat - count as nat);
      PatchMore(before, lba as nat, data[..], at, count as nat, res);
      count := count + res as int32;
    }
  }

  method SbcWrite6(ld: LunData, cdb: seq<byte>, data: array<byte>, at: nat, size: nat) returns (status: byte, size': nat)
    requires ld.Valid() && ld.file != data
    requires |cdb| == 16 && cdb[0] == 0x0a
    requires at <= data.Length && Fits(Decode(cdb), ld.lunsizeinmb as nat, data.Length - at, size)
    modifies ld.file
    ensures Reply(status, ld.file[..], data[..]) == Serve(old(ld.View()), Decode(cdb), [], data[..], at, size)
    ensures size' == if status == GOOD then Decode(cdb).blocks * BLOCK else size
  {
    status, size' := WriteBlocks(ld, FromBe16(cdb[2..4]), cdb[4], data, at, size);
  }

  method SbcWrite10(ld: LunData, cdb: seq<byte>, data: array<byte>, at: nat, size: nat) returns (status: byte, size': nat)
    requires ld.Valid() && ld.file != data
    requires |cdb| == 16 && cdb[0] == 0x2a
    requires at <= data.Length && Fits(Decode(cdb), ld.lunsizeinmb as nat, data.Length - at, size)
    modifies ld.file
    ensures Reply(status, ld.file[..], data[..]) == Serve(old(ld.View()), Decode(cdb), [], data[..], at, size)
    ensures size' == if status == GOOD then Decode(cdb).blocks * BLOCK else size
  {
    status, size' := WriteBlocks(ld, FromBe32(cdb[2..6]), FromBe16(cdb[7..9]), data, at, size);
  }

  method SbcWrite12(ld: LunData, cdb: seq<byte>, data: array<byte>, at: nat, size: nat) returns (status: byte, size': nat)
    requires ld.Valid() && ld.file != data
    requires |cdb| == 16 && cdb[0] == 0xaa
    requires at <= data.Length && Fits(Decode(cdb), ld.lunsizeinmb as nat, data.Length - at, size)
    modifies ld.file
    ensures Reply(status, ld.file[..], data[..]) == Serve(old(ld.View()), Decode(cdb), [], data[..], at, size)
    ensures size' == if status == GOOD then Decode(cdb).blocks * BLOCK else size
  {
    status, size' := WriteBlocks(ld, FromBe32(cdb[2..6]), FromBe32(cdb[6..10]), data, at, size);
  }

  /** A store through a pointer to long: the four bytes that htonl made, and four zero bytes after them. */
  method StoreLong(data: array<byte>, at: nat, v: uint32)
    requires at + 8 <= data.Length
    modifies data
    ensures data[..] == Patch(old(data[..]), at, Be32(v) + Zeros(4))
  {
    var b := Be32(v);
    forall k | 0 <= k < 8 {
      data[at + k] := if k < 4 then b[k] else 0;
    }
  }

  method SbcReadCapacity10(ld: LunData, data: array<byte>, at: nat) returns (status: byte, size': nat)
    requires ld.Valid() && ld.file != data
    requires at + 12 <= data.Length
    modifies data
    ensures Reply(status, ld.file[..], data[..]) == Serve(ld.View(), ReadCapacity, [], old(data[..]), at, 0)
    ensures size' == 8
  {
    hide Patch;
    ghost var before := data[..];
    forall k | at <= k < at + 8 {
      data[k] := 0;
    }
    ghost var v := LastBlock(ld.file.Length);
    CapacityStores(before, data[..], at, v);
    var blocks := ld.file.Length / 512 - 1;
    StoreLong(data, at, if blocks < 0 then TWO32 + blocks else blocks);
    StoreLong(data, at + 4, 512);
    return GOOD, 8;
  }

  /** The two stores overlap: each writes eight bytes, the second begins inside the first. */
  lemma CapacityStores(s: seq<byte>, cleared: seq<byte>, at: nat, v: uint32)
    requires at + 12 <= |s| == |cleared|
    requires cleared == s[..at] + Zeros(8) + s[at + 8..]
    ensures Patch(Patch(cleared, at, Be32(v) + Zeros(4)), at + 4, Be32(512) + Zeros(4))
         == Patch(s, at, Be32(v) + Be32(BLOCK) + Zeros(4))
  {
  }

  /** ids are the numbers of td->luns in list order. */
  method SpcReportLuns(ids: seq<byte>, cdb: seq<byte>, data: array<byte>, at: nat, size: nat)
    returns (status: byte, size': nat)
    requires |ids| <= 256
    requires |cdb| == 16 && cdb[0] == 0xa0
    requires at <= data.Length && Fits(Decode(cdb), 0, data.Length - at, size)
    modifies data
    ensures status == GOOD <==> Decode(cdb).alloc <= size
    ensures status == GOOD ==>
              data[..] == old(data[..at]) + ReportLunsData(old(data[at..]), ids, Decode(cdb).alloc)
    ensures status != GOOD ==> status == CHECK_CONDITION && data[..] == old(data[..])
    ensures size' == if status == GOOD then Decode(cdb).alloc else size
  {
    hide Patch;
    var alloc: nat := FromBe32(cdb[6..10]);
    if alloc > size {
      return CHECK_CONDITION, size;
    }
    ghost var head := data[..at];
    ghost var before := data[at..];
    forall k | at <= k < at + alloc {
      data[k] := 0;
    }
    ZeroedIsPatched(before, data[at..], alloc);
    ghost var filled := FillLuns(data[at..], ids, alloc, 0);
    var numluns := 0;
    assert ids[0..] == ids;
    while numluns < |ids|
      invariant 0 <= numluns <= |ids|
      invariant data[..at] == head
      invariant FillLuns(data[at..], ids[numluns..], alloc, numluns) == filled
    {
      assert ids[numluns..][0] == ids[numluns] && ids[numluns..][1..] == ids[numluns + 1..];
      ghost var now := data[at..];
      if 8 + 1 + numluns * 8 <= alloc {
        data[at + 8 + 1 + numluns * 8] := ids[numluns];
        assert data[at..] == now[9 + 8 * numluns := ids[numluns]];
      }
      numluns := numluns + 1;
    }
    ghost var whole := data[..];
    StoreLong(data, at, numluns * 8);
    PatchTail(whole, at, Be32(8 * |ids|) + Zeros(4));
    return GOOD, alloc;
  }

  lemma ZeroedIsPatched(s: seq<byte>, t: seq<byte>, n: nat)
    requires |s| == |t| >= n
    requires forall k :: 0 <= k < n ==> t[k] == 0
    requires forall k :: n <= k < |s| ==> t[k] == s[k]
    ensures t == Patch(s, 0, Zeros(n))
  {
  }

  lemma PatchTail(s: seq<byte>, at: nat, t: seq<byte>)
    requires at + |t| <= |s|
    ensures Patch(s, at, t) == s[..at] + Patch(s[at..], 0, t)
  {
  }
}
