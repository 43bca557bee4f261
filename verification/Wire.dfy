/**
 * The two messages between kernel and target: the 31-byte task header and the completion with its 6-byte header,
 * both built and read field by field through an advancing pointer.
 */
module Wire {
  import opened Bytes

  const UHEADER_SIZE: nat := 31
  const COMPLETION_SIZE: nat := 6

  const TYPE_C: byte := 67
  const TYPE_D: byte := 68
  const DIR_IN: byte := 73
  const DIR_OUT: byte := 79

  /** The host byte of a result: no target is connected. */
  const DID_NO_CONNECT: nat := 1

  /** The parts of a struct scsi_cmnd that the header carries. */
  datatype Command = Command(lun: uint32, toDevice: bool, cdbLen: byte, cdb: seq<byte>, bufflen: uint32) {
    predicate Valid() {
      |cdb| == 16
    }
  }

  /** struct user_scsitap_task, without the request buffer. */
  datatype UserTask = UserTask(num: uint32, kind: byte, direction: byte, lun: uint32,
                               cdblen: byte, cdb: seq<byte>, bufflen: uint32)

  function Direction(c: Command): byte {
    if c.toDevice then DIR_OUT else DIR_IN
  }

  function Header(kind: byte, num: uint32, c: Command): (h: seq<byte>)
    requires c.Valid()
    ensures |h| == UHEADER_SIZE
  {
    [kind, Direction(c)] + Le32(num) + Le32(c.lun) + [c.cdbLen] + c.cdb + Le32(c.bufflen)
  }

  /** The task after the header has been read into it; CDB bytes past cdblen keep what an earlier command left. */
  function ParseHeader(h: seq<byte>, stale: seq<byte>): (t: UserTask)
    requires |h| >= UHEADER_SIZE && |stale| == 16 && h[10] <= 16
    ensures |t.cdb| == 16
  {
    UserTask(FromLe32(h[2..6]), h[0], h[1], FromLe32(h[6..10]), h[10],
             h[11..11 + h[10] as nat] + stale[h[10] as nat..], FromLe32(h[27..31]))
  }

  /** Where each field of a command is in its header, and in which byte order. */
  lemma HeaderLayout(kind: byte, num: uint32, c: Command)
    requires c.Valid()
    ensures var h := Header(kind, num, c);
            && |h| == 31 && h[0] == kind && h[1] == (if c.toDevice then 79 else 73)
            && LittleEndian(h[2..6]) == num && LittleEndian(h[6..10]) == c.lun
            && h[10] == c.cdbLen && h[11..27] == c.cdb && LittleEndian(h[27..31]) == c.bufflen
  {
    var h := Header(kind, num, c);
    assert h[2..6] == Le32(num) && h[6..10] == Le32(c.lun) && h[27..31] == Le32(c.bufflen);
    LittleEndianIs(h[2..6]);
    LittleEndianIs(h[6..10]);
    LittleEndianIs(h[27..31]);
  }

  /** Reading a printed header recovers every field the kernel put in. */
  lemma HeaderRoundTrip(kind: byte, num: uint32, c: Command, stale: seq<byte>)
    requires c.Valid() && c.cdbLen <= 16 && |stale| == 16
    ensures Header(kind, num, c)[10] == c.cdbLen
    ensures var t := ParseHeader(Header(kind, num, c), stale);
            && t.num == num && t.kind == kind && t.direction == Direction(c)
            && t.lun == c.lun && t.cdblen == c.cdbLen && t.bufflen == c.bufflen
            && t.cdb[..c.cdbLen as nat] == c.cdb[..c.cdbLen as nat]
            && t.cdb[c.cdbLen as nat..] == stale[c.cdbLen as nat..]
  {
    var h := Header(kind, num, c);
    assert h[2..6] == Le32(num) && h[6..10] == Le32(c.lun) && h[27..31] == Le32(c.bufflen);
    var n := c.cdbLen as nat;
    assert h[11..27] == c.cdb;
    assert h[11..11 + n] == c.cdb[..n];
  }

  /** The first bytes of the request buffer when a command is completed. */
  function CompletionHead(num: uint32, status: byte): (h: seq<byte>)
    ensures |h| == COMPLETION_SIZE
  {
    [TYPE_D] + Le32(num) + [status]
  }

  /** The message that complete_scsi_task writes: head and len bytes of data. */
  function Completion(buffer: seq<byte>, num: uint32, status: byte, len: nat): (m: seq<byte>)
    requires COMPLETION_SIZE + len <= |buffer|
    ensures |m| == COMPLETION_SIZE + len
  {
    CompletionHead(num, status) + buffer[COMPLETION_SIZE..COMPLETION_SIZE + len]
  }

  /** The result word of a completion that carries this SCSI status: a status with the top bit set comes with
      sense data and is cut to five bits. */
  function ResultOf(status: byte): nat {
    if status < 128 then status else status % 32
  }

  /** Without the top bit the result is the status itself; with it, the result is what is left of the status without
      its three upper bits. */
  lemma ResultMeans(status: byte)
    ensures status < 128 ==> ResultOf(status) == status
    ensures status >= 128 ==>
              ResultOf(status) < 32 && exists upper :: 4 <= upper < 8 && status == 32 * upper + ResultOf(status)
  {
    if status >= 128 {
      assert status == 32 * (status / 32) + ResultOf(status);
    }
  }

  /** What the kernel reads of a completion. */
  function CompletedNum(m: seq<byte>): uint32
    requires |m| >= 5
  {
    FromLe32(m[1..5])
  }

  function Payload(m: seq<byte>): seq<byte>
    requires |m| >= COMPLETION_SIZE
  {
    m[COMPLETION_SIZE..]
  }

  /** Where each part of a completion is: the payload starts at byte 6 of the message as it does in the buffer. */
  lemma CompletionLayout(buffer: seq<byte>, num: uint32, status: byte, len: nat)
    requires COMPLETION_SIZE + len <= |buffer|
    ensures var m := Completion(buffer, num, status, len);
            && |m| == 6 + len && m[0] == 68 && LittleEndian(m[1..5]) == num && m[5] == status
            && LittleEndian(m[1..5]) == CompletedNum(m)
            && forall k :: 6 <= k < |m| ==> m[k] == buffer[k]
  {
    var m := Completion(buffer, num, status, len);
    assert m[1..5] == Le32(num);
    LittleEndianIs(m[1..5]);
  }

  /** The kernel recovers number, status and data. */
  lemma CompletionRoundTrip(buffer: seq<byte>, num: uint32, status: byte, len: nat)
    requires COMPLETION_SIZE + len <= |buffer|
    ensures var m := Completion(buffer, num, status, len);
            && m[0] == TYPE_D && CompletedNum(m) == num && m[5] == status
            && Payload(m) == buffer[COMPLETION_SIZE..COMPLETION_SIZE + len]
  {
    var m := Completion(buffer, num, status, len);
    assert m[1..5] == Le32(num);
  }

  /** The target's side of the messages. */
  class UserScsiTask {
    var cmd_number: uint32
    var kind: byte
    var direction: byte
    var lun: uint32
    var cdblen: byte
    const cdb: array<byte>
    var request_bufflen: uint32
    const request_buffer: array<byte>
    var status: byte

    constructor (bufferSize: nat)
      ensures fresh(cdb) && fresh(request_buffer) && cdb != request_buffer
      ensures fresh(this) && cdb.Length == 16 && request_buffer.Length == bufferSize
      ensures request_buffer[..] == Zeros(bufferSize) && View() == UserTask(0, 0, 0, 0, 0, Zeros(16), 0) && status == 0
    {
      cdb := new byte[16](_ => 0);
      request_buffer := new byte[bufferSize](_ => 0);
      cmd_number, kind, direction, lun, cdblen, request_bufflen, status := 0, 0, 0, 0, 0, 0, 0;
    }

    ghost function View(): UserTask
      reads this, cdb
    {
      UserTask(cmd_number, kind, direction, lun, cdblen, cdb[..], request_bufflen)
    }

    /** task_buffer_to_task: the memcpy of the CDB moves cdblen bytes into a field of 16. */
    method TaskBufferToTask(task_buffer: array<byte>)
      requires cdb.Length == 16 && cdb != task_buffer
      requires task_buffer.Length >= UHEADER_SIZE && task_buffer[10] <= 16
      modifies this, cdb
      ensures View() == ParseHeader(task_buffer[..], old(cdb[..]))
      ensures status == old(status)
    {
      var p := 0;
      kind := task_buffer[p];
      p := p + 1;
      direction := task_buffer[p];
      p := p + 1;
      cmd_number := FromLe32(task_buffer[p..p + 4]);
      p := p + 4;
      lun := FromLe32(task_buffer[p..p + 4]);
      p := p + 4;
      cdblen := task_buffer[p];
      p := p + 1;
      forall k | 0 <= k < cdblen as nat {
        cdb[k] := task_buffer[p + k];
      }
      p := p + 16;
      request_bufflen := FromLe32(task_buffer[p..p + 4]);
      assert task_buffer[..][2..6] == task_buffer[2..6];
      assert task_buffer[..][6..10] == task_buffer[6..10];
      assert task_buffer[..][27..31] == task_buffer[27..31];
    }

    /** The part of complete_scsi_task before the write system call; the message is the first
        request_bufflen + 6 bytes of the request buffer. */
    method PrepareCompletion() returns (count: nat)
      requires request_buffer != cdb
      requires COMPLETION_SIZE + request_bufflen <= request_buffer.Length
      modifies request_buffer
      ensures count == COMPLETION_SIZE + request_bufflen
      ensures request_buffer[..count] == Completion(old(request_buffer[..]), cmd_number, status, request_bufflen)
      ensures request_buffer[COMPLETION_SIZE..] == old(request_buffer[COMPLETION_SIZE..])
    {
      var n := Le32(cmd_number);
      request_buffer[0] := TYPE_D;
      forall k | 0 <= k < 4 {
        request_buffer[1 + k] := n[k];
      }
      request_buffer[5] := status;
      count := request_bufflen + 6;
    }
  }
}
