/**
 * The data path of one command on values: what its flat buffer, the disk and memory are once a target has read
 * its header, fetched its data, run it and completed it.
 */
module DataPath {
  import opened Bytes
  import opened Wire
  import opened ScatterGather
  import opened Scsi
  import opened Engine
  import opened Protocol
  import S = Order

  /** Where the data of a command starts in the request buffer of its target. */
  function Offset(c: Command): nat {
    if c.toDevice then UHEADER_SIZE else COMPLETION_SIZE
  }

  /** The request buffer when the command starts to run; a command without data leaves it alone. */
  function Loaded(num: uint32, r: Request, buffer: seq<byte>): (b: seq<byte>)
    requires WellFormed(r) && |buffer| == BUFFER_SIZE
    ensures |b| == BUFFER_SIZE
  {
    if r.cmd.toDevice && r.cmd.bufflen > 0 then Patch(buffer, 0, Header(TYPE_D, num, r.cmd) + r.payload) else buffer
  }

  /** The run itself. */
  function RunOnLun(lun: Lun, ids: seq<byte>, num: uint32, r: Request, buffer: seq<byte>, canned: Canned): (reply: Reply)
    requires WellFormed(r) && |buffer| == BUFFER_SIZE && lun.Sized() && |ids| <= 256 && |canned.data| <= MAX_TRANSFER
  {
    RunFits(r, lun.mb);
    Handled(lun, Decode(r.cmd.cdb), ids, Loaded(num, r, buffer), Offset(r.cmd), r.cmd.bufflen, canned)
  }

  /** Memory after the reply has arrived. */
  function Landed(mem: seq<byte>, segs: seq<Sg>, c: Command, reply: Reply): (mem': seq<byte>)
    requires InMemory(|mem|, segs) && Total(segs) == c.bufflen && COMPLETION_SIZE + c.bufflen <= |reply.buffer|
    ensures |mem'| == |mem|
  {
    if reply.status == GOOD && !c.toDevice && c.bufflen > 0
    then Scatter(mem, segs, reply.buffer[COMPLETION_SIZE..COMPLETION_SIZE + c.bufflen])
    else mem
  }

  /** For transfers of up to 256 sectors the offsets 6 and 31 stay inside the request buffer, whatever the
      command asks for. */
  lemma RunFits(r: Request, mb: nat)
    requires WellFormed(r)
    ensures Offset(r.cmd) + MAX_TRANSFER <= BUFFER_SIZE
    ensures Fits(Decode(r.cmd.cdb), mb, BUFFER_SIZE - Offset(r.cmd), r.cmd.bufflen)
  {
  }

  /** A READ(10) that is in range brings the extent into the segments and nothing anywhere else; one that is not
      leaves memory alone.  The disk is untouched either way. */
  lemma ReadCarried(lun: Lun, ids: seq<byte>, num: uint32, r: Request, buffer: seq<byte>, canned: Canned,
                    mem: seq<byte>, segs: seq<Sg>)
    requires WellFormed(r) && Decode(r.cmd.cdb).Read? && |buffer| == BUFFER_SIZE && lun.Sized() && |ids| <= 256
    requires |canned.data| <= MAX_TRANSFER && InMemory(|mem|, segs) && Disjoint(segs) && Gather(mem, segs) == r.payload
    ensures var op, reply := Decode(r.cmd.cdb), RunOnLun(lun, ids, num, r, buffer, canned);
            var mem' := Landed(mem, segs, r.cmd, reply);
            && reply.disk == lun.disk
            && (InRange(lun.mb, op.lba, op.blocks) ==>
                  reply.status == GOOD && Gather(mem', segs) == Extent(lun.disk, op.lba, op.blocks))
            && (!InRange(lun.mb, op.lba, op.blocks) ==> reply.status == CHECK_CONDITION && mem' == mem)
            && forall a :: 0 <= a < |mem| && !Covers(segs, a) ==> mem'[a] == mem[a]
  {
    hide Header, Gather, Scatter, Total;
    RunFits(r, lun.mb);
    var op, reply := Decode(r.cmd.cdb), RunOnLun(lun, ids, num, r, buffer, canned);
    if InRange(lun.mb, op.lba, op.blocks) {
      var flat := Extent(lun.disk, op.lba, op.blocks);
      if r.cmd.bufflen > 0 {
        assert reply.buffer[COMPLETION_SIZE..COMPLETION_SIZE + r.cmd.bufflen] == flat;
        GatherScatter(mem, segs, flat);
        forall a | 0 <= a < |mem| && !Covers(segs, a) ensures Scatter(mem, segs, flat)[a] == mem[a] {
          ScatterFrame(mem, segs, flat, a);
        }
      } else {
        assert r.payload == [] && flat == [];
      }
    }
  }

  /** A write command that is in range replaces its extent by the contents of the segments and keeps every other
      byte of the disk; one that is not leaves the disk alone.  Memory is untouched either way. */
  lemma WriteCarried(lun: Lun, ids: seq<byte>, num: uint32, r: Request, buffer: seq<byte>, canned: Canned,
                    mem: seq<byte>, segs: seq<Sg>)
    requires WellFormed(r) && Decode(r.cmd.cdb).Write? && |buffer| == BUFFER_SIZE && lun.Sized() && |ids| <= 256
    requires |canned.data| <= MAX_TRANSFER && InMemory(|mem|, segs) && Gather(mem, segs) == r.payload
    ensures var op, reply := Decode(r.cmd.cdb), RunOnLun(lun, ids, num, r, buffer, canned);
            && Landed(mem, segs, r.cmd, reply) == mem
            && (InRange(lun.mb, op.lba, op.blocks) ==>
                  && reply.status == GOOD
                  && Extent(reply.disk, op.lba, op.blocks) == Gather(mem, segs)
                  && forall k :: 0 <= k < |lun.disk| && (k < op.lba * BLOCK || (op.lba + op.blocks) * BLOCK <= k) ==>
                       reply.disk[k] == lun.disk[k])
            && (!InRange(lun.mb, op.lba, op.blocks) ==> reply.status == CHECK_CONDITION && reply.disk == lun.disk)
  {
    hide Header, Gather, Scatter, Total, Patch;
    RunFits(r, lun.mb);
    var op := Decode(r.cmd.cdb);
    if InRange(lun.mb, op.lba, op.blocks) {
      var b := Loaded(num, r, buffer);
      if op.blocks > 0 {
        S.PayloadPlaced(buffer, Header(TYPE_D, num, r.cmd), r.payload);
      }
      assert b[Offset(r.cmd)..Offset(r.cmd) + op.blocks * BLOCK] == r.payload;
      forall k | 0 <= k < |lun.disk| && (k < op.lba * BLOCK || (op.lba + op.blocks) * BLOCK <= k)
        ensures WriteExtent(lun.disk, op.lba, r.payload)[k] == lun.disk[k]
      {
        ExtentWritten(lun.disk, op.lba, op.blocks, r.payload, k);
      }
      ExtentWritten(lun.disk, op.lba, op.blocks, r.payload, 0);
    }
  }

  /** What a target reads from the header is the command itself, whatever an earlier command left in the task. */
  lemma HeaderCarried(num: uint32, r: Request, stale: seq<byte>)
    requires WellFormed(r) && |stale| == 16
    ensures Header(TYPE_C, num, r.cmd)[10] <= 16
    ensures var t := ParseHeader(Header(TYPE_C, num, r.cmd), stale);
            && t.num == num && t.direction == Direction(r.cmd) && t.lun == r.cmd.lun && t.bufflen == r.cmd.bufflen
            && Decode(t.cdb) == Decode(r.cmd.cdb)
  {
    hide Header, ParseHeader;
    HeaderRoundTrip(TYPE_C, num, r.cmd, stale);
    var t, n := ParseHeader(Header(TYPE_C, num, r.cmd), stale), r.cmd.cdbLen as nat;
    assert t.cdb[..n][0] == r.cmd.cdb[..n][0];
    DecodeIgnoresStaleBytes(t.cdb, r.cmd.cdb, n);
  }

  /** What the kernel takes out of a completion is the reply: its copy length, computed from the command, is the
      length of the target's payload. */
  lemma CompletionCarried(num: uint32, r: Request, reply: Reply, mem: seq<byte>, segs: seq<Sg>)
    requires WellFormed(r) && |reply.buffer| == BUFFER_SIZE
    requires InMemory(|mem|, segs) && Total(segs) == r.cmd.bufflen && forall g :: g in segs ==> g.kaddr != 0
    ensures var b := Patch(reply.buffer, 0, CompletionHead(num, reply.status));
            var count := if r.cmd.toDevice then COMPLETION_SIZE else COMPLETION_SIZE + r.cmd.bufflen;
            && b[..count] == Completion(reply.buffer, num, reply.status, count - COMPLETION_SIZE)
            && b[0] == TYPE_D && CompletedNum(b) == num && b[5] == reply.status
            && ScatterGather.Complete(segs, |b| - COMPLETION_SIZE)
            && (if reply.status == GOOD && count > COMPLETION_SIZE then CopiedIn(mem, segs, b, COMPLETION_SIZE) else mem)
               == Landed(mem, segs, r.cmd, reply)
  {
    hide Scatter, Total;
    var b := Patch(reply.buffer, 0, CompletionHead(num, reply.status));
    assert b[1..5] == Le32(num);
    ServedWhole(segs, |b| - COMPLETION_SIZE);
    var n := COMPLETION_SIZE + r.cmd.bufflen;
    assert b[COMPLETION_SIZE..n] == reply.buffer[COMPLETION_SIZE..n];
  }
}
