/**
 * kernel/device.c: read and write of the control device, with the copies between user buffers and commands.
 * A user buffer is an array; the bytes past its end fault.
 */
module Device {
  import opened Bytes
  import opened Wire
  import opened ScatterGather
  import opened Hba
  import Q = Queue

  const SUCCESS: int := 0x2002
  const EBADF: int := 9
  const EFAULT: int := 14
  const EINVAL: int := 22

  /** An open file of the control device. */
  class CtlFile {
    const minor: nat
    var privateData: Session?
    var fPos: nat

    constructor (minor: nat)
      ensures this.minor == minor && privateData == null && fPos == 0
    {
      this.minor, privateData, fPos := minor, null, 0;
    }
  }

  /** What the driver relies on in a command: a CDB of 16 bytes, and a buffer that lies in memory and is as long as
      request_bufflen says; without scatter/gather it is one segment with an address. */
  ghost predicate BufferOk(sc: ScsiCmnd, memory: nat) {
    && sc.command.Valid() && InMemory(memory, sc.segs) && Total(sc.segs) == sc.command.bufflen
    && (!sc.useSg ==> |sc.segs| == 1 && sc.segs[0].kaddr != 0)
  }

  ghost predicate BuffersOk(s: Session, memory: nat)
    reads s
  {
    forall i :: 0 <= i < |s.queue| ==> BufferOk(s.queue[i].sc, memory)
  }

  // ----- read

  /** scsitap_task_to_user. */
  method TaskToUser(task: Task, buffer: array<byte>, kind: byte) returns (ret: int)
    requires task.sc.command.Valid() && task.lun == task.sc.command.lun
    modifies buffer
    ensures buffer.Length >= UHEADER_SIZE ==>
              ret == UHEADER_SIZE && buffer[..] == Patch(old(buffer[..]), 0, Header(kind, task.cmdNumber, task.sc.command))
    ensures buffer.Length < UHEADER_SIZE ==> ret == -EFAULT
  {
    hide Patch;
    var c := task.sc.command;
    ghost var before := buffer[..];
    // put_user ignores faults, so the first bytes are stored as far as the buffer reaches
    var left := CopyToUser(buffer, 0, [kind, if c.toDevice then DIR_OUT else DIR_IN]);
    if buffer.Length < 2 {
      return -EFAULT;
    }
    ghost var h := [kind, Direction(c)];
    left := CopyToUser(buffer, 2, Le32(task.cmdNumber));
    if left != 0 {
      return -EFAULT;
    }
    PatchPatch(before, 0, h, Le32(task.cmdNumber));
    h := h + Le32(task.cmdNumber);
    left := CopyToUser(buffer, 6, Le32(task.lun));
    if left != 0 {
      return -EFAULT;
    }
    PatchPatch(before, 0, h, Le32(task.lun));
    h := h + Le32(task.lun);
    left := CopyToUser(buffer, 10, [c.cdbLen]);
    if buffer.Length < 11 {
      return -EFAULT;
    }
    PatchPatch(before, 0, h, [c.cdbLen]);
    h := h + [c.cdbLen];
    left := CopyToUser(buffer, 11, c.cdb);
    if left != 0 {
      return -EFAULT;
    }
    PatchPatch(before, 0, h, c.cdb);
    h := h + c.cdb;
    left := CopyToUser(buffer, 27, Le32(c.bufflen));
    if left != 0 {
      return -EFAULT;
    }
    PatchPatch(before, 0, h, Le32(c.bufflen));
    assert h + Le32(c.bufflen) == Header(kind, task.cmdNumber, c);
    return 31;
  }

  /** A buffer without scatter/gather is a list of one segment. */
  lemma OneSegment(mem: seq<byte>, buffer: seq<byte>, p: nat, g: Sg)
    requires p <= |buffer| && g.End() <= |mem| && g.kaddr != 0
    ensures Complete([g], |buffer| - p) <==> g.length <= |buffer| - p
    ensures g.length <= |buffer| - p ==>
              && CopiedOut(mem, buffer, p, [g]) == Patch(buffer, p, mem[g.Start()..g.End()])
              && CopiedIn(mem, [g], buffer, p) == Patch(mem, g.Start(), buffer[p..p + g.length])
    ensures g.length > |buffer| - p ==>
              && CopiedOut(mem, buffer, p, [g]) == Patch(buffer, p, mem[g.Start()..g.Start() + (|buffer| - p)])
              && CopiedIn(mem, [g], buffer, p) == Patch(mem, g.Start(), buffer[p..])
  {
    hide CopiedOut, CopiedIn, Complete, Patch;
    assert [g][1..] == [];
    CompleteStep([g], |buffer| - p);
    CopyOutStep(mem, buffer, p, [g]);
    CopyInStep(mem, [g], buffer, p);
    if g.length <= |buffer| - p {
      CompleteStep([], |buffer| - p - g.length);
      CopyOutStep(mem, Patch(buffer, p, mem[g.Start()..g.End()]), p + g.length, []);
      CopyInStep(Patch(mem, g.Start(), buffer[p..p + g.length]), [], buffer, p + g.length);
    }
  }

  /** The command's buffer to the user, with or without scatter/gather. */
  method TransferOut(sc: ScsiCmnd, memory: array<byte>, buffer: array<byte>, at: nat) returns (r: nat)
    requires memory != buffer && at <= buffer.Length && BufferOk(sc, memory.Length)
    modifies buffer
    ensures buffer[..] == CopiedOut(memory[..], old(buffer[..]), at, sc.segs)
    ensures r == 0 <==> Complete(sc.segs, buffer.Length - at)
  {
    hide CopiedOut, Complete, Patch;
    if sc.useSg {
      r := CopyToUserSg(memory, buffer, at, sc.segs);
    } else {
      var g := sc.segs[0];
      assert sc.segs == [g];
      OneSegment(memory[..], buffer[..], at, g);
      var piece := memory[g.Start()..g.End()];
      assert piece == memory[..][g.Start()..g.End()];
      assert g.length > buffer.Length - at ==>
          piece[..buffer.Length - at] == memory[..][g.Start()..g.Start() + (buffer.Length - at)];
      r := CopyToUser(buffer, at, piece);
    }
  }

  /** User bytes into the command's buffer. */
  method TransferIn(sc: ScsiCmnd, memory: array<byte>, buffer: array<byte>, at: nat) returns (r: nat)
    requires memory != buffer && at <= buffer.Length && BufferOk(sc, memory.Length)
    modifies memory
    ensures memory[..] == CopiedIn(old(memory[..]), sc.segs, buffer[..], at)
    ensures r == 0 <==> Complete(sc.segs, buffer.Length - at)
  {
    hide CopiedIn, Complete, Patch;
    if sc.useSg {
      r := CopyFromUserSg(memory, sc.segs, buffer, at);
    } else {
      var g := sc.segs[0];
      assert sc.segs == [g];
      OneSegment(memory[..], buffer[..], at, g);
      assert buffer[..][at..] == buffer[at..];
      assert g.length <= buffer.Length - at ==> buffer[..][at..at + g.length] == buffer[at..at + g.length];
      r := CopyFromUser(memory, g.Start(), buffer, at, g.length);
    }
  }

  /** The branch of scsitap_ctl_read for a task header. */
  method ReadHeader(s: Session, buffer: array<byte>) returns (ret: int)
    requires s.Valid() && forall i :: 0 <= i < |s.queue| ==> HasHeader(s.queue[i])
    modifies buffer
    ensures var i := Q.FirstSubmitted(s.View().queue);
            && (i == |s.queue| ==> ret == 0 && buffer[..] == old(buffer[..]))
            && (i < |s.queue| && buffer.Length < UHEADER_SIZE ==> ret == -EFAULT)
            && (i < |s.queue| && buffer.Length >= UHEADER_SIZE ==>
                  && ret == UHEADER_SIZE && s.queue[i].sc.command.Valid()
                  && buffer[..] == Patch(old(buffer[..]), 0, Header(TYPE_C, s.queue[i].cmdNumber, s.queue[i].sc.command)))
  {
    hide Patch, Header, Session.Linked;
    for i := 0 to |s.queue|
      invariant forall j :: 0 <= j < i ==> s.queue[j].flags == TASK_RECEIVED
      invariant buffer[..] == old(buffer[..])
    {
      if s.queue[i].flags == TASK_SUBMITTED {
        Q.FirstSubmittedIs(s.View().queue, i);
        ret := TaskToUser(s.queue[i], buffer, TYPE_C);
        return;
      }
    }
    Q.FirstSubmittedIs(s.View().queue, |s.queue|);
    return 0;
  }

  ghost predicate HasHeader(t: Task) {
    t.sc.command.Valid() && t.lun == t.sc.command.lun
  }

  /** The branch of scsitap_ctl_read for a command's data; count is more than the header size. */
  method ReadData(s: Session, fp: nat, memory: array<byte>, buffer: array<byte>, count: nat) returns (ret: int)
    requires s.Valid() && BuffersOk(s, memory.Length) && memory != buffer
    requires forall i :: 0 <= i < |s.queue| ==> HasHeader(s.queue[i])
    modifies buffer
    ensures var i := Q.IndexOfNum(s.View().queue, fp % TWO32);
            && (i == |s.queue| || s.queue[i].flags != TASK_RECEIVED ==> ret == 0 && buffer[..] == old(buffer[..]))
            && (i < |s.queue| && s.queue[i].flags == TASK_RECEIVED ==>
                  var sc := s.queue[i].sc;
                  if count != UHEADER_SIZE + sc.command.bufflen then ret == -EBADF && buffer[..] == old(buffer[..])
                  else if buffer.Length < UHEADER_SIZE then ret == -EFAULT
                  else if sc.command.bufflen > 0 && !Complete(sc.segs, buffer.Length - UHEADER_SIZE) then ret == -EFAULT
                  else && ret == UHEADER_SIZE
                       && UHEADER_SIZE + sc.command.bufflen <= buffer.Length
                       && buffer[..] == Patch(old(buffer[..]), 0,
                            Header(TYPE_D, s.queue[i].cmdNumber, sc.command) + Gather(memory[..], sc.segs)))
  {
    hide Patch, Header, Session.Linked, Session.Flagged, Views, Q.IndexOfNum, Complete, CopiedOut, Gather, Total,
      InMemory;
    var task := s.TaskOfCmd(fp % TWO32);
    if task == null || task.flags != TASK_RECEIVED {
      return 0;
    }
    var sc := task.sc;
    if count != UHEADER_SIZE + sc.command.bufflen {
      return -EBADF;
    }
    ghost var before := buffer[..];
    ret := TaskToUser(task, buffer, TYPE_D);
    if ret < 0 {
      return;
    }
    ghost var mid := buffer[..];
    DataAfterHeader(before, Header(TYPE_D, task.cmdNumber, sc.command), memory[..], sc.segs);
    if sc.command.bufflen > 0 {
      var r := TransferOut(sc, memory, buffer, UHEADER_SIZE);
      if r != 0 {
        ret := -EFAULT;
      }
    }
  }

  lemma DataAfterHeader(before: seq<byte>, h: seq<byte>, mem: seq<byte>, segs: seq<Sg>)
    requires |h| <= |before| && InMemory(|mem|, segs)
    ensures Complete(segs, |before| - |h|) ==>
              && |h| + Total(segs) <= |before|
              && CopiedOut(mem, Patch(before, 0, h), |h|, segs) == Patch(before, 0, h + Gather(mem, segs))
    ensures Total(segs) == 0 ==> Patch(before, 0, h) == Patch(before, 0, h + Gather(mem, segs))
  {
    hide Patch, Gather, CopiedOut, Complete;
    if Complete(segs, |before| - |h|) {
      CopiedOutWhole(mem, Patch(before, 0, h), |h|, segs);
      PatchPatch(before, 0, h, Gather(mem, segs));
    }
    if Total(segs) == 0 {
      assert h + Gather(mem, segs) == h;
    }
  }

  /** In a user buffer that is long enough, only a segment without an address can fail; in one that is not, something
      does. */
  lemma AllServed(s: Session, room: nat)
    ensures forall i :: 0 <= i < |s.queue| && UHEADER_SIZE + Total(s.queue[i].sc.segs) <= room ==>
              (Complete(s.queue[i].sc.segs, room - UHEADER_SIZE) <==>
               !exists g :: g in s.queue[i].sc.segs && g.kaddr == 0)
    ensures forall i :: 0 <= i < |s.queue| && UHEADER_SIZE <= room < UHEADER_SIZE + Total(s.queue[i].sc.segs) ==>
              !Complete(s.queue[i].sc.segs, room - UHEADER_SIZE)
  {
    forall i | 0 <= i < |s.queue| && UHEADER_SIZE <= room
      ensures UHEADER_SIZE + Total(s.queue[i].sc.segs) <= room ==>
                (Complete(s.queue[i].sc.segs, room - UHEADER_SIZE) <==>
                 !exists g :: g in s.queue[i].sc.segs && g.kaddr == 0)
      ensures room < UHEADER_SIZE + Total(s.queue[i].sc.segs) ==> !Complete(s.queue[i].sc.segs, room - UHEADER_SIZE)
    {
      ServedWhole(s.queue[i].sc.segs, room - UHEADER_SIZE);
    }
  }

  /** scsitap_ctl_read, after the wait for a non-empty queue. */
  method ScsitapCtlRead(file: CtlFile, memory: array<byte>, buffer: array<byte>, count: nat) returns (ret: int)
    requires memory != buffer
    requires file.privateData != null ==>
               file.privateData.Valid() && BuffersOk(file.privateData, memory.Length)
               && forall i :: 0 <= i < |file.privateData.queue| ==> HasHeader(file.privateData.queue[i])
    modifies buffer
    ensures file.privateData == null ==> ret == -EFAULT && buffer[..] == old(buffer[..])
    ensures file.privateData != null && file.privateData.flags != CONNECTION_READY ==>
              ret == -EINVAL && buffer[..] == old(buffer[..])
    ensures file.privateData != null && file.privateData.flags == CONNECTION_READY ==>
              var s := file.privateData;
              && (count < UHEADER_SIZE ==> ret == -EINVAL && buffer[..] == old(buffer[..]))
              && (count == UHEADER_SIZE && buffer.Length >= UHEADER_SIZE ==>
                    var i := Q.FirstSubmitted(s.View().queue);
                    && buffer[..] == (if i == |s.queue| then old(buffer[..])
                                      else Patch(old(buffer[..]), 0,
                                                 Header(TYPE_C, s.queue[i].cmdNumber, s.queue[i].sc.command)))
                    && ret == if i == |s.queue| then 0 else UHEADER_SIZE)
              && (count == UHEADER_SIZE && buffer.Length < UHEADER_SIZE ==>
                    ret == if Q.FirstSubmitted(s.View().queue) == |s.queue| then 0 else -EFAULT)
              && (count > UHEADER_SIZE && buffer.Length < count ==>
                    var i := Q.IndexOfNum(s.View().queue, file.fPos % TWO32);
                    if i == |s.queue| || s.queue[i].flags != TASK_RECEIVED then ret == 0 && buffer[..] == old(buffer[..])
                    else if count != UHEADER_SIZE + s.queue[i].sc.command.bufflen then ret == -EBADF
                      && buffer[..] == old(buffer[..])
                    else ret == -EFAULT)
              && (count > UHEADER_SIZE && buffer.Length >= count ==>
                    var i := Q.IndexOfNum(s.View().queue, file.fPos % TWO32);
                    if i == |s.queue| || s.queue[i].flags != TASK_RECEIVED then ret == 0 && buffer[..] == old(buffer[..])
                    else if count != UHEADER_SIZE + s.queue[i].sc.command.bufflen then ret == -EBADF
                      && buffer[..] == old(buffer[..])
                    else if exists g :: g in s.queue[i].sc.segs && g.kaddr == 0 then ret == -EFAULT
                    else && ret == UHEADER_SIZE
                         && buffer[..] == Patch(old(buffer[..]), 0,
                              Header(TYPE_D, s.queue[i].cmdNumber, s.queue[i].sc.command)
                              + Gather(memory[..], s.queue[i].sc.segs)))
  {
    hide Patch, Header, Session.Linked, Complete, Gather, Total;
    var s := file.privateData;
    if s == null {
      return -EFAULT;
    }
    if s.flags != CONNECTION_READY {
      return -EINVAL;
    }
    if count == UHEADER_SIZE {
      ret := ReadHeader(s, buffer);
    } else if count > UHEADER_SIZE {
      AllServed(s, buffer.Length);
      ret := ReadData(s, file.fPos, memory, buffer, count);
    } else {
      ret := -EINVAL;
    }
  }

  // ----- write

  /** The sense buffer after 14 bytes have been copied into it, as far as the user buffer reaches. */
  function SenseFrom(sense: seq<byte>, user: seq<byte>): (s: seq<byte>)
    requires |sense| == SENSE_SIZE
    ensures |s| == SENSE_SIZE
  {
    var n := Min(14, |user|);
    user[..n] + sense[n..]
  }

  /** The status byte of a completion, read with get_user, which gives 0 when it faults. */
  function StatusIn(m: seq<byte>): byte {
    if |m| >= COMPLETION_SIZE then m[5] else 0
  }

  /** Whether the kernel can take everything the completion brings with it. */
  ghost predicate Acceptable(sc: ScsiCmnd, m: seq<byte>, count: nat) {
    if StatusIn(m) == 0 then count > COMPLETION_SIZE ==> Complete(sc.segs, |m| - Min(COMPLETION_SIZE, |m|))
    else StatusIn(m) >= 128 ==> |m| >= COMPLETION_SIZE + 14
  }

  /** The sense buffer of a command completed with message m. */
  function SenseOf(sense: seq<byte>, m: seq<byte>): (s: seq<byte>)
    requires |sense| == SENSE_SIZE
    ensures |s| == SENSE_SIZE
  {
    if StatusIn(m) == 0 then Zeros(SENSE_SIZE)
    else if StatusIn(m) < 128 then IllegalSense()
    else SenseFrom(sense, m[COMPLETION_SIZE..])
  }

  /** What an initiator reads in the sense buffer of a completed command: nothing after status 0; the default after
      a status below 128; otherwise the 14 bytes the target sent, and behind them what was there before. */
  lemma SenseTaken(sense: seq<byte>, m: seq<byte>)
    requires |sense| == SENSE_SIZE && |m| >= 20
    ensures m[5] == 0 ==> forall k :: 0 <= k < SENSE_SIZE ==> SenseOf(sense, m)[k] == 0
    ensures 0 < m[5] < 128 ==> DecodeSense(SenseOf(sense, m)) == FixedSense(0x70, NO_SENSE, 6, 0x00, 0x00)
    ensures m[5] >= 128 ==>
              forall k :: 0 <= k < SENSE_SIZE ==> SenseOf(sense, m)[k] == if k < 14 then m[6 + k] else sense[k]
  {
    IllegalSenseMeans();
  }

  /** Memory after the kernel has taken the data of a completion. */
  ghost function MemoryOf(memory: seq<byte>, sc: ScsiCmnd, m: seq<byte>, count: nat): seq<byte>
    requires InMemory(|memory|, sc.segs)
  {
    if StatusIn(m) == 0 && count > COMPLETION_SIZE then CopiedIn(memory, sc.segs, m, Min(COMPLETION_SIZE, |m|)) else memory
  }

  /** The part of scsitap_ctl_write that takes data or sense of a found task; ok tells whether nothing faulted. */
  method TakeCompletion(sc: ScsiCmnd, memory: array<byte>, buffer: array<byte>, count: nat)
    returns (ok: bool, status: byte)
    requires memory != buffer && BufferOk(sc, memory.Length)
    requires |sc.sense| == SENSE_SIZE
    modifies memory, sc`sense
    ensures ok <==> Acceptable(sc, buffer[..], count)
    ensures memory[..] == MemoryOf(old(memory[..]), sc, buffer[..], count)
    ensures ok ==> sc.sense == SenseOf(old(sc.sense), buffer[..]) && status as nat == ResultOf(StatusIn(buffer[..]))
    ensures |sc.sense| == SENSE_SIZE
  {
    hide CopiedIn, Complete;
    status := if buffer.Length >= 6 then buffer[5] else 0;
    if status == 0 {
      if count > 6 {
        // nothing can be read from an address past the end of the buffer
        var r := TransferIn(sc, memory, buffer, Min(6, buffer.Length));
        if r != 0 {
          return false, status;
        }
      }
      sc.sense := Zeros(SENSE_SIZE);
    } else if status / 128 == 0 {
      sc.sense := IllegalSense();
    } else {
      var n := Min(14, buffer.Length - 6);
      assert buffer[..][6..][..n] == buffer[6..6 + n];
      sc.sense := buffer[6..6 + n] + sc.sense[n..];
      if n != 14 {
        return false, status;
      }
      status := status % 32;
    }
    ok := true;
  }

  /** The message is a completion as far as its type and its number can be read. */
  predicate IsCompletion(m: seq<byte>) {
    |m| >= 5 && m[0] == TYPE_D
  }

  /** The type can be read, but not the number. */
  predicate Truncated(m: seq<byte>) {
    1 <= |m| < 5 && m[0] == TYPE_D
  }

  /** scsitap_ctl_write. */
  method ScsitapCtlWrite(file: CtlFile, memory: array<byte>, buffer: array<byte>, count: nat) returns (ret: int)
    requires memory != buffer
    requires file.privateData != null ==> file.privateData.Valid() && BuffersOk(file.privateData, memory.Length)
    modifies memory, file.privateData, if file.privateData == null then {} else set t | t in file.privateData.queue :: t.sc
    ensures file.privateData == old(file.privateData)
    ensures file.privateData == null ==> ret == -EFAULT && memory[..] == old(memory[..])
    ensures file.privateData != null ==>
              var s := file.privateData;
              s.Valid() && s.commands == old(s.commands) && s.next == old(s.next)
              && (s.View() == old(s.View()) ==> s.queue == old(s.queue))
    ensures file.privateData != null && (old(file.privateData.flags) != CONNECTION_READY || !IsCompletion(buffer[..])) ==>
              && ret == (if old(file.privateData.flags) != CONNECTION_READY then -EINVAL
                         else if Truncated(buffer[..]) then -EFAULT
                         else 0)
              && file.privateData.View() == old(file.privateData.View()) && memory[..] == old(memory[..])
    ensures file.privateData != null && old(file.privateData.flags) == CONNECTION_READY && IsCompletion(buffer[..]) ==>
              var s := file.privateData;
              var q := old(s.queue);
              var i := Q.IndexOfNum(old(s.View()).queue, CompletedNum(buffer[..]));
              if i == |q| then
                && ret == count && s.View() == old(s.View()) && memory[..] == old(memory[..]) && s.handed == old(s.handed)
                && forall t :: t in q ==> unchanged(t.sc)
              else if !Acceptable(q[i].sc, buffer[..], count) then
                ret == -EFAULT && s.View() == old(s.View()) && s.handed == old(s.handed)
              else
                && ret == count && s.View() == Q.Remove(old(s.View()), i) && s.handed == old(s.handed) + [q[i].sc]
                && s.queue == Q.Without(q, i)
                && q[i].sc.ptr == null && q[i].sc.result == ResultOf(StatusIn(buffer[..]))
                && |old(q[i].sc.sense)| == SENSE_SIZE && q[i].sc.sense == SenseOf(old(q[i].sc.sense), buffer[..])
                && InMemory(memory.Length, q[i].sc.segs)
                && memory[..] == MemoryOf(old(memory[..]), q[i].sc, buffer[..], count)
                && forall t :: t in q && t.sc != q[i].sc ==> unchanged(t.sc)
  {
    hide Session.TasksLinked, Session.CommandsLinked, Session.Distinct, Session.CommandsSane, Session.Flagged, Views,
      Acceptable, SenseOf, MemoryOf, ResultOf, BufferOk;
    var s := file.privateData;
    if s == null {
      return -EFAULT;
    }
    if s.flags != CONNECTION_READY {
      return -EINVAL;
    }
    var kind := if buffer.Length >= 1 then buffer[0] else 0;
    if kind != TYPE_D {
      return 0;
    }
    if buffer.Length < 5 {
      return -EFAULT;
    }
    assert buffer[..][1..5] == buffer[1..5];
    var task := s.TaskOfCmd(FromLe32(buffer[1..5]));
    if task == null {
      return count;
    }
    ghost var i := Q.IndexOfNum(s.View().queue, FromLe32(buffer[1..5]));
    ret := FinishTask(s, task, i, memory, buffer, count);
  }

  /** The rest of it, once the task has been found. */
  method FinishTask(s: Session, task: Task, ghost i: nat, memory: array<byte>, buffer: array<byte>, count: nat)
    returns (ret: int)
    requires memory != buffer
    requires s.Valid() && BuffersOk(s, memory.Length) && i < |s.queue| && s.queue[i] == task
    modifies memory, s`queue, s`cmdNumbers, s`handed, task.sc
    ensures s.Valid() && InMemory(memory.Length, task.sc.segs) && |old(task.sc.sense)| == SENSE_SIZE
    ensures !Acceptable(task.sc, buffer[..], count) ==>
              ret == -EFAULT && s.View() == old(s.View()) && s.queue == old(s.queue) && s.handed == old(s.handed)
    ensures Acceptable(task.sc, buffer[..], count) ==>
              && ret == count && s.View() == Q.Remove(old(s.View()), i) && s.handed == old(s.handed) + [task.sc]
              && s.queue == Q.Without(old(s.queue), i)
              && task.sc.ptr == null && task.sc.result == ResultOf(StatusIn(buffer[..]))
              && task.sc.sense == SenseOf(old(task.sc.sense), buffer[..])
              && memory[..] == MemoryOf(old(memory[..]), task.sc, buffer[..], count)
  {
    hide Session.TasksLinked, Session.CommandsLinked, Session.Distinct, Session.CommandsSane, Session.Flagged, Views,
      Acceptable, SenseOf, MemoryOf, ResultOf, Position;
    s.TasksOfLinked();
    s.SensesSized();
    s.NotAborted();
    s.OnlyAt(i);
    s.PositionIs(i);
    assert BufferOk(s.queue[i].sc, memory.Length);
    var ok, status := TakeCompletion(task.sc, memory, buffer, count);
    s.Resensed(task.sc);
    s.FlagsKept();
    if !ok {
      return -EFAULT;
    }
    label taken:
    task.sc.result := status;
    s.Resensed@taken(task.sc);
    s.CompleteTask(task);
    s.ViewTakenOut(i);
    return count;
  }
}
