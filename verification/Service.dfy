/**
 * The target's side: the system-call wrappers of user/vscsiapi.c and one turn of the service loop in user/main.c,
 * on the objects of the driver.  A turn here is undisturbed; the protocol module interleaves its pieces.
 */
module Service {
  import opened Bytes
  import opened Wire
  import opened ScatterGather
  import opened Scsi
  import opened Engine
  import opened Hba
  import opened Device
  import opened DataPath
  import P = Protocol
  import T = Target
  import R = Registry
  import Q = Queue

  /** A session whose pending commands are well formed as far as the driver relies on it. */
  ghost predicate Sane(s: Session, memory: nat)
    reads s, s.queue, s.commands
  {
    && s.Valid() && BuffersOk(s, memory)
    && forall i :: 0 <= i < |s.queue| ==> HasHeader(s.queue[i]) && s.queue[i].sc.command.cdbLen <= 16
  }

  ghost predicate Ready(s: Session, memory: nat)
    reads s, s.queue, s.commands
  {
    s.flags == CONNECTION_READY && Sane(s, memory)
  }

  ghost predicate Connected(file: CtlFile, memory: nat)
    reads file, file.privateData, if file.privateData == null then {} else file.privateData.commands,
      if file.privateData == null then {} else set t | t in file.privateData.queue
  {
    file.privateData != null && Ready(file.privateData, memory)
  }

  /** The header of this queued task has been read into a target's task that still held this CDB. */
  ghost predicate HoldsHeader(t: UserTask, queued: Task, stale: seq<byte>)
    requires |stale| == 16
  {
    var c := queued.sc.command;
    && c.Valid() && Header(TYPE_C, queued.cmdNumber, c)[10] <= 16
    && t == ParseHeader(Header(TYPE_C, queued.cmdNumber, c), stale)
  }

  /** The first half of get_scsi_task. */
  method ReadTaskHeader(task: UserScsiTask, file: CtlFile, memory: array<byte>) returns (x: int)
    requires task.cdb.Length == 16
    requires file.privateData != null ==> Sane(file.privateData, memory.Length)
    modifies task, task.cdb
    ensures task.status == old(task.status)
    ensures !Connected(file, memory.Length) ==> x < 0 && task.View() == old(task.View())
    ensures Connected(file, memory.Length) ==>
              var s := file.privateData;
              var i := Q.FirstSubmitted(s.View().queue);
              && (i == |s.queue| ==> x == 0 && task.View() == old(task.View()))
              && (i < |s.queue| ==> x == 31 && HoldsHeader(task.View(), s.queue[i], old(task.cdb[..]))
                                    && task.cmd_number == s.queue[i].cmdNumber)
  {
    hide Header, ParseHeader, Session.Linked, Session.Flagged, Views, Patch, Q.FirstSubmitted;
    var task_buffer := new byte[32];
    ghost var before := task_buffer[..];
    x := ScsitapCtlRead(file, memory, task_buffer, UHEADER_SIZE);
    if x != 31 {
      return;
    }
    ghost var s := file.privateData;
    ghost var t := s.queue[Q.FirstSubmitted(s.View().queue)];
    HeaderInBuffer(before, task_buffer[..], t.cmdNumber, t.sc.command, task.cdb[..]);
    task.TaskBufferToTask(task_buffer);
  }

  /** get_scsi_task. */
  method GetScsiTask(task: UserScsiTask, file: CtlFile, memory: array<byte>) returns (ret: int)
    requires task.cdb.Length == 16
    requires file.privateData != null ==> Sane(file.privateData, memory.Length)
    modifies task, task.cdb, if file.privateData == null then {} else set t | t in file.privateData.queue
    ensures task.status == old(task.status)
    ensures !old(Connected(file, memory.Length)) ==> ret == -1 && task.View() == old(task.View())
    ensures old(Connected(file, memory.Length)) ==>
              var s := file.privateData;
              var i := Q.FirstSubmitted(old(s.View()).queue);
              && Connected(file, memory.Length)
              && (i == |s.queue| ==> ret == 1 && s.View() == old(s.View()) && task.View() == old(task.View()))
              && (i < |s.queue| ==> ret == 0 && HoldsHeader(task.View(), s.queue[i], old(task.cdb[..]))
                                    && s.View() == Q.Claim(old(s.View()), s.queue[i].cmdNumber))
  {
    hide Session.Linked, Session.Flagged, Views, Q.Claim, Q.IndexOfNum, Q.FirstSubmitted, HoldsHeader, BuffersOk,
      HasHeader;
    var x := ReadTaskHeader(task, file, memory);
    if x != 31 {
      return if x == 0 then 1 else -1;
    }
    ghost var t := task.View();
    var r := R.ReceiveTask(file, task.cmd_number);
    assert task.View() == t;
    return if r < 0 then -1 else 0;
  }

  lemma HeaderInBuffer(before: seq<byte>, after: seq<byte>, num: uint32, c: Command, stale: seq<byte>)
    requires c.Valid() && c.cdbLen <= 16 && |before| == 32 && |stale| == 16
    requires after == Patch(before, 0, Header(TYPE_C, num, c))
    ensures after[10] <= 16 && Header(TYPE_C, num, c)[10] <= 16
    ensures ParseHeader(after, stale) == ParseHeader(Header(TYPE_C, num, c), stale)
    ensures ParseHeader(after, stale).num == num
  {
    HeaderRoundTrip(TYPE_C, num, c, stale);
    var h := Header(TYPE_C, num, c);
    assert forall k :: 0 <= k < 31 ==> after[k] == h[k];
    assert after[2..6] == h[2..6] && after[6..10] == h[6..10] && after[27..31] == h[27..31];
    assert after[11..11 + h[10] as nat] == h[11..11 + h[10] as nat];
  }

  /** receive_scsi_data. */
  method ReceiveScsiData(task: UserScsiTask, file: CtlFile, memory: array<byte>) returns (ret: int)
    requires memory != task.request_buffer && UHEADER_SIZE + task.request_bufflen <= task.request_buffer.Length
    requires file.privateData != null ==> Sane(file.privateData, memory.Length)
    modifies file`fPos, task.request_buffer
    ensures task.direction != DIR_OUT ==> ret == 1 && task.request_buffer[..] == old(task.request_buffer[..])
    ensures task.direction == DIR_OUT && !Connected(file, memory.Length) ==>
              ret == -1 && task.request_buffer[..] == old(task.request_buffer[..])
    ensures task.direction == DIR_OUT && Connected(file, memory.Length) && task.request_bufflen == 0 ==>
              // the count is the header size, so the read is answered with a header
              var s := file.privateData;
              var i := Q.FirstSubmitted(s.View().queue);
              && ret == (if i == |s.queue| then -1 else 0)
              && task.request_buffer[..] ==
                 if i == |s.queue| then old(task.request_buffer[..])
                 else Patch(old(task.request_buffer[..]), 0, Header(TYPE_C, s.queue[i].cmdNumber, s.queue[i].sc.command))
    ensures task.direction == DIR_OUT && Connected(file, memory.Length) && task.request_bufflen > 0 ==>
              var s := file.privateData;
              var i := Q.IndexOfNum(s.View().queue, task.cmd_number);
              if i < |s.queue| && Fetchable(s.queue[i], task.request_bufflen) then
                && ret == 0
                && task.request_buffer[..] ==
                   Patch(old(task.request_buffer[..]), 0,
                         Header(TYPE_D, s.queue[i].cmdNumber, s.queue[i].sc.command)
                         + Gather(memory[..], s.queue[i].sc.segs))
              else ret == -1
  {
    hide Header, Session.Linked, Session.Flagged, Views, Patch, Q.FirstSubmitted, Q.IndexOfNum, Gather;
    if task.direction != 79 {
      return 1;
    }
    var r := R.SetTask(file, task.cmd_number);
    r := ScsitapCtlRead(file, memory, task.request_buffer, task.request_bufflen + UHEADER_SIZE);
    return if r != 31 then -1 else 0;
  }

  /** A data read of this length succeeds. */
  ghost predicate Fetchable(t: Task, length: nat)
    reads t
  {
    t.flags == TASK_RECEIVED && t.sc.command.bufflen == length && !exists g :: g in t.sc.segs && g.kaddr == 0
  }

  /** complete_scsi_task. */
  method CompleteScsiTask(task: UserScsiTask, file: CtlFile, memory: array<byte>) returns (ret: int)
    requires memory != task.request_buffer && task.cdb != task.request_buffer
    requires COMPLETION_SIZE + task.request_bufflen <= task.request_buffer.Length
    requires file.privateData != null ==> file.privateData.Valid() && BuffersOk(file.privateData, memory.Length)
    modifies memory, task.request_buffer, file.privateData,
      if file.privateData == null then {} else set t | t in file.privateData.queue :: t.sc
    ensures task.request_buffer[..] == Patch(old(task.request_buffer[..]), 0, CompletionHead(task.cmd_number, task.status))
    ensures file.privateData == null ==> ret == -1 && memory[..] == old(memory[..])
    ensures file.privateData != null ==>
              var s := file.privateData;
              s.Valid() && s.commands == old(s.commands) && s.next == old(s.next)
              && (s.View() == old(s.View()) ==> s.queue == old(s.queue))
    ensures file.privateData != null && old(file.privateData.flags) != CONNECTION_READY ==>
              ret == -1 && file.privateData.View() == old(file.privateData.View()) && memory[..] == old(memory[..])
    ensures file.privateData != null && old(file.privateData.flags) == CONNECTION_READY ==>
              var s, b, count := file.privateData, task.request_buffer[..], COMPLETION_SIZE + task.request_bufflen;
              var i := Q.IndexOfNum(old(s.View()).queue, task.cmd_number);
              if i == |old(s.queue)| then
                ret == 0 && s.View() == old(s.View()) && memory[..] == old(memory[..]) && s.handed == old(s.handed)
              else if !Acceptable(old(s.queue)[i].sc, b, count) then
                ret == -1 && s.View() == old(s.View()) && s.handed == old(s.handed)
              else
                var sc := old(s.queue)[i].sc;
                && ret == 0 && s.View() == Q.Remove(old(s.View()), i) && s.queue == Q.Without(old(s.queue), i)
                && s.handed == old(s.handed) + [sc]
                && sc.ptr == null && sc.result == ResultOf(task.status)
                && |old(sc.sense)| == SENSE_SIZE && sc.sense == SenseOf(old(sc.sense), b)
                && InMemory(memory.Length, sc.segs) && memory[..] == MemoryOf(old(memory[..]), sc, b, count)
  {
    hide CompletionHead, Completion, Session.Linked, Session.Flagged, Views, Patch, Q.IndexOfNum, Acceptable, SenseOf,
      MemoryOf, ResultOf, CompletedNum;
    ghost var before := task.request_buffer[..];
    var count := task.PrepareCompletion();
    CompletionInBuffer(before, task.request_buffer[..], task.cmd_number, task.status, task.request_bufflen);
    var r := ScsitapCtlWrite(file, memory, task.request_buffer, count);
    return if r != count then -1 else 0;
  }

  lemma CompletionInBuffer(before: seq<byte>, after: seq<byte>, num: uint32, status: byte, len: nat)
    requires |before| == |after| && COMPLETION_SIZE + len <= |before|
    requires after[..COMPLETION_SIZE + len] == Completion(before, num, status, len)
    requires after[COMPLETION_SIZE..] == before[COMPLETION_SIZE..]
    ensures after == Patch(before, 0, CompletionHead(num, status))
    ensures after[0] == TYPE_D && CompletedNum(after) == num && after[5] == status
  {
    hide CompletedNum;
    var h := CompletionHead(num, status);
    assert after[..COMPLETION_SIZE] == after[..COMPLETION_SIZE + len][..COMPLETION_SIZE] == h;
    assert after == after[..COMPLETION_SIZE] + after[COMPLETION_SIZE..];
    assert after[0] == h[0] && after[5] == h[5];
    assert after[1..5] == h[1..5] == Le32(num);
    NumberIs(after, num);
  }

  lemma NumberIs(m: seq<byte>, num: uint32)
    requires |m| >= 5 && m[1..5] == Le32(num)
    ensures CompletedNum(m) == num
  {
  }

  // ----- the service loop

  /** The command as the protocol has it: its flat buffer is what its segments hold. */
  ghost function RequestOf(sc: ScsiCmnd, mem: seq<byte>): P.Request
    requires InMemory(|mem|, sc.segs)
  {
    P.Request(sc.id, sc.command, Gather(mem, sc.segs))
  }

  /** What a turn of the loop assumes of the command it serves: the mid layer's guarantees and segments with
      addresses. */
  ghost predicate Servable(sc: ScsiCmnd, luns: seq<Lun>, mem: seq<byte>) {
    && |luns| <= 256 && (forall j :: 0 <= j < |luns| ==> luns[j].Sized())
    && InMemory(|mem|, sc.segs) && Total(sc.segs) == sc.command.bufflen && (forall g :: g in sc.segs ==> g.kaddr != 0)
    && P.WellFormed(RequestOf(sc, mem))
  }

  predicate HasLun(sc: ScsiCmnd, luns: seq<Lun>) {
    P.FindLun(luns, sc.command.lun % 256) < |luns|
  }

  /** What a handler that depends neither on the disk nor on the LUN list can answer. */
  predicate Plausible(canned: Canned) {
    (canned.status == GOOD || canned.status == CHECK_CONDITION) && |canned.data| <= P.MAX_TRANSFER
  }

  /** How a turn of the loop ends: the loop goes on, calls exit, or the target crashes. */
  datatype Ending = GoesOn | Exits | Crashes

  /** A data-out command without data: its data read asks for a header's length and is taken for a header read. */
  predicate Dataless(c: Command) {
    c.toDevice && c.bufflen == 0
  }

  /** The read finds no header, and the target gives up. */
  predicate Starves(q: seq<Q.Task>, c: Command) {
    Dataless(c) && Q.FirstSubmitted(q) == |q|
  }

  /** The request buffer that the command finds apart from its own data: behind such a read the header of the next
      unclaimed task. */
  function Headed(q: seq<Q.Task>, tasks: seq<Task>, c: Command, buffer: seq<byte>): (b: seq<byte>)
    requires |q| == |tasks| && (forall j :: 0 <= j < |tasks| ==> tasks[j].sc.command.Valid()) && |buffer| == BUFFER_SIZE
    ensures |b| == BUFFER_SIZE
  {
    var j := Q.FirstSubmitted(q);
    if Dataless(c) && j < |q| then Patch(buffer, 0, Header(TYPE_C, tasks[j].cmdNumber, tasks[j].sc.command)) else buffer
  }

  /** The run of the command on these LUNs, with this memory and in this request buffer. */
  ghost function RunOf(sc: ScsiCmnd, num: uint32, luns: seq<Lun>, mem: seq<byte>, buffer: seq<byte>, canned: Canned)
    : (reply: Reply)
    requires Servable(sc, luns, mem) && HasLun(sc, luns) && |buffer| == BUFFER_SIZE && Plausible(canned)
    ensures |reply.buffer| == BUFFER_SIZE
  {
    RunOnLun(luns[P.FindLun(luns, sc.command.lun % 256)], P.Ids(luns), num, RequestOf(sc, mem), buffer, canned)
  }

  /** The LUNs after the run. */
  ghost function LunsAfter(sc: ScsiCmnd, luns: seq<Lun>, reply: Reply): seq<Lun>
    requires P.FindLun(luns, sc.command.lun % 256) < |luns|
  {
    var k := P.FindLun(luns, sc.command.lun % 256);
    luns[k := luns[k].(disk := reply.disk)]
  }

  /** The command object once it has been handed back with this reply. */
  ghost predicate HandedBack(sc: ScsiCmnd, reply: Reply)
    reads sc
  {
    && sc.ptr == null && sc.result == reply.status as nat
    && sc.sense == if reply.status == GOOD then Zeros(SENSE_SIZE) else IllegalSense()
  }

  /** run_scsi_command on the task in hand, as the loop calls it. */
  method RunTask(t: T.TargetData, task: UserScsiTask, at: nat, canned: Canned, ghost sc: ScsiCmnd, ghost num: uint32,
                 ghost mem: seq<byte>, ghost buffer: seq<byte>) returns (crashed: bool)
    requires t.Valid() && |buffer| == BUFFER_SIZE && Servable(sc, T.Views(t.luns), mem) && Plausible(canned)
    requires task.cdb.Length == 16 && task.request_buffer.Length == BUFFER_SIZE && task.cdb != task.request_buffer
    requires forall l :: l in t.luns ==> l.file != task.request_buffer && l.file != task.cdb
    requires Decode(task.cdb[..]) == Decode(sc.command.cdb)
    requires task.lun == sc.command.lun && task.request_bufflen == sc.command.bufflen
    requires at == Offset(sc.command) && task.request_buffer[..] == Loaded(num, RequestOf(sc, mem), buffer)
    modifies task`status, task.request_buffer, set l | l in t.luns :: l.file
    ensures t.Valid() && t.luns == old(t.luns) && crashed == !HasLun(sc, old(T.Views(t.luns)))
    ensures crashed ==> T.Views(t.luns) == old(T.Views(t.luns))
    ensures !crashed ==>
              var reply := RunOf(sc, num, old(T.Views(t.luns)), mem, buffer, canned);
              && task.status == reply.status && task.request_buffer[..] == reply.buffer
              && T.Views(t.luns) == LunsAfter(sc, old(T.Views(t.luns)), reply)
  {
    hide Handled, T.Views, P.FindLun, P.Ids, Loaded, Fits, P.WellFormed, Gather, Total;
    ghost var luns := T.Views(t.luns);
    ghost var k := P.FindLun(luns, sc.command.lun % 256);
    if k < |luns| {
      RunFits(RequestOf(sc, mem), luns[k].mb);
    }
    RunFits(RequestOf(sc, mem), 0);
    var status;
    crashed, status := t.RunScsiCommand(task.lun % 256, task.cdb[..], task.request_buffer, at, task.request_bufflen,
                                         canned);
    if !crashed {
      task.status := status;
      ghost var reply := RunOf(sc, num, luns, mem, buffer, canned);
      assert Reply(status, t.luns[k].file[..], task.request_buffer[..]) == reply;
    }
  }

  /** The arrays of a turn are distinct. */
  ghost predicate Apart(t: T.TargetData, task: UserScsiTask, memory: array<byte>)
    reads t
  {
    && task.cdb.Length == 16 && task.request_buffer.Length == BUFFER_SIZE
    && task.cdb != task.request_buffer && memory != task.request_buffer && memory != task.cdb
    && forall l :: l in t.luns ==> l.file != task.request_buffer && l.file != task.cdb && l.file != memory
  }

  /** The task in hand describes task i of the session, which has been claimed and is the first with its number. */
  ghost predicate InHand(task: UserScsiTask, s: Session, i: nat)
    reads task, task.cdb, s, s.queue
  {
    && i < |s.queue| && s.queue[i].flags == TASK_RECEIVED
    && Q.IndexOfNum(s.View().queue, s.queue[i].cmdNumber) == i
    && var c := s.queue[i].sc.command;
    && c.Valid() && task.cdb.Length == 16 && Decode(task.cdb[..]) == Decode(c.cdb)
    && task.cmd_number == s.queue[i].cmdNumber && task.direction == Direction(c)
    && task.lun == c.lun && task.request_bufflen == c.bufflen
  }

  /** complete_scsi_task after a run: the command whose header was read is handed back with the reply. */
  method FinishTurn(task: UserScsiTask, file: CtlFile, memory: array<byte>, ghost s: Session, ghost i: nat,
                    ghost reply: Reply)
    returns (ok: bool)
    requires file.privateData == s && Ready(s, memory.Length) && i < |s.queue|
    requires Q.IndexOfNum(s.View().queue, task.cmd_number) == i
    requires memory != task.request_buffer && task.cdb != task.request_buffer && task.request_buffer.Length == BUFFER_SIZE
    requires var sc := s.queue[i].sc;
             && InMemory(memory.Length, sc.segs) && Total(sc.segs) == sc.command.bufflen
               && (forall g :: g in sc.segs ==> g.kaddr != 0)
             && P.WellFormed(RequestOf(sc, memory[..]))
             && task.request_bufflen == if sc.command.toDevice then 0 else sc.command.bufflen
    requires task.request_buffer[..] == reply.buffer && task.status == reply.status
    requires reply.status == GOOD || reply.status == CHECK_CONDITION
    requires COMPLETION_SIZE + task.request_bufflen <= BUFFER_SIZE
    modifies task.request_buffer, memory, s, set q | q in s.queue :: q.sc
    ensures var sc := old(s.queue)[i].sc;
            && ok && s.Valid() && s.View() == Q.Remove(old(s.View()), i) && s.handed == old(s.handed) + [sc]
            && HandedBack(sc, reply) && memory[..] == Landed(old(memory[..]), sc.segs, sc.command, reply)
            && task.request_buffer[..] == Patch(reply.buffer, 0, CompletionHead(task.cmd_number, reply.status))
  {
    hide Session.Linked, Session.Flagged, Views, Q.IndexOfNum, Q.Remove, P.WellFormed, Gather, Total, Landed,
      MemoryOf, Acceptable, SenseOf, CompletionHead;
    ghost var sc := s.queue[i].sc;
    s.SensesSized();
    Accepted(sc, task.cmd_number, reply, memory[..], sc.sense);
    var r := CompleteScsiTask(task, file, memory);
    return r >= 0;
  }

  /** What a turn makes of task i of a session: it has left the queue (of which the rest is as in v), its command has
      been handed back with the status of the run, and the disks and memory are as the run and the reply leave them.
      v, handed, luns, mem and buffer are the session, the commands handed back so far, the LUNs, memory and the
      request buffer before the run. */
  ghost predicate Turned(s: Session, queued: Task, i: nat, t: T.TargetData, task: UserScsiTask,
                         memory: array<byte>, v: Q.Session, handed: seq<ScsiCmnd>, luns: seq<Lun>, mem: seq<byte>,
                         buffer: seq<byte>, canned: Canned)
    reads s, s.queue, s.commands, queued.sc, t, set l | l in t.luns :: l.file, memory, task.request_buffer
  {
    var sc := queued.sc;
    && i < |v.queue| && |buffer| == BUFFER_SIZE && Servable(sc, luns, mem) && HasLun(sc, luns) && Plausible(canned)
    && t.Valid()
    && var reply := RunOf(sc, queued.cmdNumber, luns, mem, buffer, canned);
    && s.Valid() && s.View() == Q.Remove(v, i) && s.handed == handed + [sc]
    && HandedBack(sc, reply) && T.Views(t.luns) == LunsAfter(sc, luns, reply)
    && memory[..] == Landed(mem, sc.segs, sc.command, reply)
    && task.request_buffer[..] == Patch(reply.buffer, 0, CompletionHead(queued.cmdNumber, reply.status))
  }

  /** The branch of the loop for a command that brings data in. */
  method ServeIn(t: T.TargetData, task: UserScsiTask, file: CtlFile, memory: array<byte>, canned: Canned,
                 ghost s: Session, ghost i: nat)
    returns (ending: Ending)
    requires file.privateData == s && Ready(s, memory.Length) && t.Valid() && Apart(t, task, memory)
    requires InHand(task, s, i) && task.direction == DIR_IN && Plausible(canned)
    requires Servable(s.queue[i].sc, T.Views(t.luns), memory[..])
    modifies task`status, task.request_buffer, memory, s,
      set q | q in s.queue :: q.sc, set l | l in t.luns :: l.file
    ensures t.Valid() && t.luns == old(t.luns)
    ensures ending == if HasLun(old(s.queue)[i].sc, old(T.Views(t.luns))) then GoesOn else Crashes
    ensures ending.GoesOn? ==>
              Turned(s, old(s.queue)[i], i, t, task, memory, old(s.View()), old(s.handed), old(T.Views(t.luns)),
                     old(memory[..]), old(task.request_buffer[..]), canned)
    ensures !ending.GoesOn? ==>
              s.View() == old(s.View()) && s.handed == old(s.handed) && memory[..] == old(memory[..])
              && T.Views(t.luns) == old(T.Views(t.luns))
  {
    hide Patch, CompletionHead, BuffersOk, HasHeader, Session.Linked, Session.Flagged, Views, T.Views, Q.IndexOfNum,
      Q.Remove, RunOnLun, P.FindLun, P.Ids, P.WellFormed, Gather, Total, LunsAfter, Landed, HandedBack, Servable,
      RunOf, HasLun, T.TargetData.Valid;
    ghost var sc, num := s.queue[i].sc, s.queue[i].cmdNumber;
    ghost var luns, mem, buffer := T.Views(t.luns), memory[..], task.request_buffer[..];
    FetchFits(sc, luns, mem);
    var crashed := RunTask(t, task, 6, canned, sc, num, mem, buffer);
    if crashed {
      return Crashes;
    }
    StatusOfRun(sc, num, luns, mem, buffer, canned);
    var ok := FinishTurn(task, file, memory, s, i, RunOf(sc, num, luns, mem, buffer, canned));
    return if ok then GoesOn else Exits;
  }

  /** receive_scsi_data for the command in hand: its data are in place behind the header; without data another header
      is in front, or there is none and the target gives up. */
  method LoadTask(task: UserScsiTask, file: CtlFile, memory: array<byte>, ghost s: Session, ghost i: nat) returns (r: int)
    requires file.privateData == s && Ready(s, memory.Length) && InHand(task, s, i) && task.direction == DIR_OUT
    requires memory != task.request_buffer && task.request_buffer.Length == BUFFER_SIZE
    requires var sc := s.queue[i].sc;
             && UHEADER_SIZE + sc.command.bufflen <= BUFFER_SIZE && (forall g :: g in sc.segs ==> g.kaddr != 0)
             && InMemory(memory.Length, sc.segs) && P.WellFormed(RequestOf(sc, memory[..]))
    modifies file`fPos, task.request_buffer
    ensures r < 0 <==> Starves(s.View().queue, s.queue[i].sc.command)
    ensures r >= 0 ==>
              var q := s.queue[i];
              var before := Headed(s.View().queue, s.queue, q.sc.command, old(task.request_buffer[..]));
              task.request_buffer[..] == Loaded(q.cmdNumber, RequestOf(q.sc, memory[..]), before)
  {
    hide Session.Linked, Session.Flagged, Views, Q.IndexOfNum, Q.FirstSubmitted, P.WellFormed, Gather, Total, Header,
      Patch;
    r := ReceiveScsiData(task, file, memory);
  }

  /** The first half of the branch for a command that takes data out: fetch the data and run. */
  method FetchAndRun(t: T.TargetData, task: UserScsiTask, file: CtlFile, memory: array<byte>, canned: Canned,
                     ghost s: Session, ghost i: nat)
    returns (ending: Ending)
    requires file.privateData == s && Ready(s, memory.Length) && t.Valid() && Apart(t, task, memory)
    requires InHand(task, s, i) && task.direction == DIR_OUT && Plausible(canned)
    requires Servable(s.queue[i].sc, T.Views(t.luns), memory[..])
    modifies file`fPos, task`status, task.request_buffer, set l | l in t.luns :: l.file
    ensures t.Valid() && ending == Fate(s.View().queue, s.queue[i].sc, old(T.Views(t.luns)))
    ensures !ending.GoesOn? ==> T.Views(t.luns) == old(T.Views(t.luns))
    ensures ending.GoesOn? ==>
              var q := s.queue[i];
              var before := Headed(s.View().queue, s.queue, q.sc.command, old(task.request_buffer[..]));
              var reply := RunOf(q.sc, q.cmdNumber, old(T.Views(t.luns)), memory[..], before, canned);
              && task.status == reply.status && task.request_buffer[..] == reply.buffer
              && T.Views(t.luns) == LunsAfter(q.sc, old(T.Views(t.luns)), reply)
  {
    hide Session.Linked, Session.Flagged, Views, T.Views, Q.IndexOfNum, P.FindLun, P.Ids, P.WellFormed, Gather, Total,
      LunsAfter, Loaded, Servable, RunOf, Starves, Headed, T.TargetData.Valid;
    ghost var sc, num := s.queue[i].sc, s.queue[i].cmdNumber;
    ghost var luns, mem, buffer := T.Views(t.luns), memory[..], task.request_buffer[..];
    FetchFits(sc, luns, mem);
    var r := LoadTask(task, file, memory, s, i);
    if r < 0 {
      return Exits;
    }
    var crashed := RunTask(t, task, 31, canned, sc, num, mem, Headed(s.View().queue, s.queue, sc.command, buffer));
    return if crashed then Crashes else GoesOn;
  }

  /** How the turn of a command ends once it is claimed. */
  ghost function Fate(q: seq<Q.Task>, sc: ScsiCmnd, luns: seq<Lun>): Ending {
    if Starves(q, sc.command) then Exits else if HasLun(sc, luns) then GoesOn else Crashes
  }

  /** The branch for a command that takes data out. */
  method ServeOut(t: T.TargetData, task: UserScsiTask, file: CtlFile, memory: array<byte>, canned: Canned,
                  ghost s: Session, ghost i: nat)
    returns (ending: Ending)
    requires file.privateData == s && Ready(s, memory.Length) && t.Valid() && Apart(t, task, memory)
    requires InHand(task, s, i) && task.direction == DIR_OUT && Plausible(canned)
    requires Servable(s.queue[i].sc, T.Views(t.luns), memory[..])
    modifies file`fPos, task`status, task`request_bufflen, task.request_buffer, memory, s,
      set q | q in s.queue :: q.sc, set l | l in t.luns :: l.file
    ensures t.Valid() && t.luns == old(t.luns)
    ensures ending == Fate(old(s.View()).queue, old(s.queue)[i].sc, old(T.Views(t.luns)))
    ensures ending.GoesOn? ==>
              var q := old(s.queue)[i];
              Turned(s, q, i, t, task, memory, old(s.View()), old(s.handed), old(T.Views(t.luns)), old(memory[..]),
                     Headed(old(s.View()).queue, old(s.queue), q.sc.command, old(task.request_buffer[..])), canned)
    ensures !ending.GoesOn? ==>
              s.View() == old(s.View()) && s.handed == old(s.handed) && memory[..] == old(memory[..])
              && T.Views(t.luns) == old(T.Views(t.luns))
  {
    hide Patch, CompletionHead, BuffersOk, Session.Linked, Session.Flagged, Views, T.Views, Q.IndexOfNum, Q.Remove,
      RunOnLun, P.FindLun, P.Ids, P.WellFormed, Gather, Total, Starves, HasLun, Headed, LunsAfter, Landed, HandedBack,
      Servable, RunOf, T.TargetData.Valid;
    ghost var sc, num := s.queue[i].sc, s.queue[i].cmdNumber;
    ghost var luns, mem := T.Views(t.luns), memory[..];
    ghost var before := Headed(s.View().queue, s.queue, sc.command, task.request_buffer[..]);
    FetchFits(sc, luns, mem);
    ending := FetchAndRun(t, task, file, memory, canned, s, i);
    if !ending.GoesOn? {
      return;
    }
    task.request_bufflen := 0;
    StatusOfRun(sc, num, luns, mem, before, canned);
    var ok := FinishTurn(task, file, memory, s, i, RunOf(sc, num, luns, mem, before, canned));
    return if ok then GoesOn else Exits;
  }

  lemma FetchFits(sc: ScsiCmnd, luns: seq<Lun>, mem: seq<byte>)
    requires Servable(sc, luns, mem)
    ensures UHEADER_SIZE + sc.command.bufflen <= BUFFER_SIZE
    ensures InMemory(|mem|, sc.segs) && P.WellFormed(RequestOf(sc, mem)) && (forall g :: g in sc.segs ==> g.kaddr != 0)
    ensures Total(sc.segs) == sc.command.bufflen && |luns| <= 256
  {
  }

  /** The kernel accepts a completion with this reply, and takes from it what the data path says. */
  lemma Accepted(sc: ScsiCmnd, num: uint32, reply: Reply, mem: seq<byte>, sense: seq<byte>)
    requires |reply.buffer| == BUFFER_SIZE && (reply.status == GOOD || reply.status == CHECK_CONDITION)
    requires InMemory(|mem|, sc.segs) && Total(sc.segs) == sc.command.bufflen && forall g :: g in sc.segs ==> g.kaddr != 0
    requires P.WellFormed(RequestOf(sc, mem)) && |sense| == SENSE_SIZE
    ensures var b := Patch(reply.buffer, 0, CompletionHead(num, reply.status));
            var count := if sc.command.toDevice then COMPLETION_SIZE else COMPLETION_SIZE + sc.command.bufflen;
            && Acceptable(sc, b, count) && ResultOf(reply.status) == reply.status as nat
            && SenseOf(sense, b) == (if reply.status == GOOD then Zeros(SENSE_SIZE) else IllegalSense())
            && MemoryOf(mem, sc, b, count) == Landed(mem, sc.segs, sc.command, reply)
  {
    hide Total, CopiedIn, Landed, Patch, CompletionHead, CompletedNum, Complete;
    CompletionCarried(num, RequestOf(sc, mem), reply, mem, sc.segs);
  }

  lemma StatusOfRun(sc: ScsiCmnd, num: uint32, luns: seq<Lun>, mem: seq<byte>, buffer: seq<byte>, canned: Canned)
    requires Servable(sc, luns, mem) && HasLun(sc, luns) && |buffer| == BUFFER_SIZE && Plausible(canned)
    ensures var status := RunOf(sc, num, luns, mem, buffer, canned).status; status == GOOD || status == CHECK_CONDITION
    ensures COMPLETION_SIZE + sc.command.bufflen <= BUFFER_SIZE
  {
  }

  /** After get_scsi_task the task in hand describes the task that was claimed. */
  lemma ClaimedInHand(t: UserTask, v: Q.Session, queued: Task, i: nat, mem: seq<byte>, stale: seq<byte>)
    requires i < |v.queue| && v.queue[i].num == queued.cmdNumber && Q.IndexOfNum(v.queue, queued.cmdNumber) == i
    requires |stale| == 16 && HoldsHeader(t, queued, stale)
    requires InMemory(|mem|, queued.sc.segs) && P.WellFormed(RequestOf(queued.sc, mem))
    ensures var v', c := Q.Claim(v, queued.cmdNumber), queued.sc.command;
            && |v'.queue| == |v.queue| && v'.queue[i].flag == Q.Received && Q.IndexOfNum(v'.queue, queued.cmdNumber) == i
            && Q.Remove(v', i) == Q.Remove(v, i)
            && t.num == queued.cmdNumber && t.direction == Direction(c) && t.lun == c.lun && t.bufflen == c.bufflen
            && Decode(t.cdb) == Decode(c.cdb)
  {
    hide Header, ParseHeader, Q.IndexOfNum, Gather;
    HeaderCarried(queued.cmdNumber, RequestOf(queued.sc, mem), stale);
    Q.IndexOfNumIs(Q.Claim(v, queued.cmdNumber).queue, queued.cmdNumber, i);
    assert Q.Without(v.queue[i := v.queue[i].(flag := Q.Received)], i) == Q.Without(v.queue, i);
  }

  /** The oldest task that no target has claimed. */
  ghost function Oldest(s: Session): (i: nat)
    reads s, s.queue
    ensures i <= |s.queue|
  {
    Q.FirstSubmitted(s.View().queue)
  }

  /** What a turn assumes of the task it will find: its number is its own, and its command can be served. */
  ghost predicate Prepared(s: Session, t: T.TargetData, memory: array<byte>)
    reads s, s.queue, t, set l | l in t.luns :: l.file, memory
  {
    && t.Valid()
    && var i := Oldest(s);
    i < |s.queue| ==> Q.IndexOfNum(s.View().queue, s.queue[i].cmdNumber) == i
                      && Servable(s.queue[i].sc, T.Views(t.luns), memory[..])
  }

  /** One turn of the loop in main: the oldest unclaimed command is carried through header, claim, data, engine and
      completion, and nothing else changes; without one the loop goes round.  A data-out command without data makes
      the target give up if no other command is unclaimed, and a command for a LUN that does not exist crashes it; both
      leave the command claimed. */
  method ServeOne(t: T.TargetData, task: UserScsiTask, file: CtlFile, memory: array<byte>, canned: Canned, ghost s: Session)
    returns (ending: Ending)
    requires file.privateData == s && Ready(s, memory.Length) && Apart(t, task, memory) && Prepared(s, t, memory)
    requires Plausible(canned)
    modifies file`fPos, task, task.cdb, task.request_buffer, memory, s, s.queue,
      set q | q in s.queue :: q.sc, set l | l in t.luns :: l.file
    ensures t.luns == old(t.luns) && t.Valid()
    ensures ending == if old(Oldest(s)) == |old(s.queue)| then GoesOn
                      else Fate(Taken(old(s.View()), old(s.queue), old(Oldest(s))).queue,
                                old(s.queue)[old(Oldest(s))].sc, old(T.Views(t.luns)))
    ensures old(Oldest(s)) == |old(s.queue)| ==> s.View() == old(s.View())
    ensures old(Oldest(s)) == |old(s.queue)| || !ending.GoesOn? ==>
              s.handed == old(s.handed) && memory[..] == old(memory[..]) && T.Views(t.luns) == old(T.Views(t.luns))
    ensures old(Oldest(s)) < |old(s.queue)| ==>
              var i, tasks := old(Oldest(s)), old(s.queue);
              var q, v := tasks[i], Taken(old(s.View()), tasks, i);
              if ending.GoesOn? then
                Turned(s, q, i, t, task, memory, v, old(s.handed), old(T.Views(t.luns)), old(memory[..]),
                       Headed(v.queue, tasks, q.sc.command, old(task.request_buffer[..])), canned)
              else s.View() == v
  {
    hide Session.Linked, Session.Flagged, Views, T.Views, Q.IndexOfNum, Q.Remove, Q.Claim, Q.FirstSubmitted, Servable,
      Turned, HoldsHeader, Headed, Fate, T.TargetData.Valid;
    ghost var stale := task.cdb[..];
    var x := GetScsiTask(task, file, memory);
    if x < 0 {
      return Exits;
    }
    if x != 0 {
      return GoesOn;
    }
    ghost var i := old(Oldest(s));
    ghost var queued, v := s.queue[i], old(s.View());
    ServableParts(queued.sc, T.Views(t.luns), memory[..]);
    ClaimedInHand(task.View(), v, queued, i, memory[..], stale);
    ghost var q, luns := s.View().queue, T.Views(t.luns);
    if task.direction == 73 {
      FateWithData(q, queued.sc, luns);
      HeadedWithData(q, s.queue, queued.sc.command, task.request_buffer[..]);
      ending := ServeIn(t, task, file, memory, canned, s, i);
    } else {
      ending := ServeOut(t, task, file, memory, canned, s, i);
    }
  }

  lemma FateWithData(q: seq<Q.Task>, sc: ScsiCmnd, luns: seq<Lun>)
    requires !Dataless(sc.command)
    ensures Fate(q, sc, luns) == if HasLun(sc, luns) then GoesOn else Crashes
  {
  }

  lemma HeadedWithData(q: seq<Q.Task>, tasks: seq<Task>, c: Command, buffer: seq<byte>)
    requires !Dataless(c)
    requires |q| == |tasks| && (forall j :: 0 <= j < |tasks| ==> tasks[j].sc.command.Valid()) && |buffer| == BUFFER_SIZE
    ensures Headed(q, tasks, c, buffer) == buffer
  {
  }

  /** The session once its task i is claimed. */
  ghost function Taken(v: Q.Session, tasks: seq<Task>, i: nat): Q.Session
    requires i < |tasks|
  {
    Q.Claim(v, tasks[i].cmdNumber)
  }

  lemma ServableParts(sc: ScsiCmnd, luns: seq<Lun>, mem: seq<byte>)
    requires Servable(sc, luns, mem)
    ensures InMemory(|mem|, sc.segs) && P.WellFormed(RequestOf(sc, mem))
  {
  }

  /** End to end, a READ(10) in range leaves exactly the addressed disk bytes in the command's segments. */
  lemma TurnReads(s: Session, queued: Task, i: nat, t: T.TargetData, task: UserScsiTask, memory: array<byte>,
                  v: Q.Session, handed: seq<ScsiCmnd>, luns: seq<Lun>, mem: seq<byte>, buffer: seq<byte>,
                  canned: Canned)
    requires Turned(s, queued, i, t, task, memory, v, handed, luns, mem, buffer, canned)
    requires Decode(queued.sc.command.cdb).Read? && Disjoint(queued.sc.segs)
    ensures var sc, op := queued.sc, Decode(queued.sc.command.cdb);
            var lun := luns[P.FindLun(luns, sc.command.lun % 256)];
            && T.Views(t.luns) == luns
            && (InRange(lun.mb, op.lba, op.blocks) ==>
                  sc.result == GOOD as nat && Gather(memory[..], sc.segs) == Extent(lun.disk, op.lba, op.blocks))
            && (!InRange(lun.mb, op.lba, op.blocks) ==> sc.result == CHECK_CONDITION as nat && memory[..] == mem)
            && forall a :: 0 <= a < |mem| && !Covers(sc.segs, a) ==> memory[a] == mem[a]
  {
    hide Session.Linked, Session.Flagged, Views, T.Views, Q.Remove, P.FindLun, P.Ids, P.WellFormed, Gather, Total,
      RunOnLun, Landed, T.TargetData.Valid;
    var sc := queued.sc;
    var k := P.FindLun(luns, sc.command.lun % 256);
    ReadCarried(luns[k], P.Ids(luns), queued.cmdNumber, RequestOf(sc, mem), buffer, canned, mem, sc.segs);
    assert luns[k].(disk := luns[k].disk) == luns[k];
  }

  /** End to end, a write in range replaces the addressed disk bytes by the contents of the command's segments, on
      the addressed LUN and nowhere else. */
  lemma TurnWrites(s: Session, queued: Task, i: nat, t: T.TargetData, task: UserScsiTask, memory: array<byte>,
                   v: Q.Session, handed: seq<ScsiCmnd>, luns: seq<Lun>, mem: seq<byte>, buffer: seq<byte>,
                  canned: Canned)
    requires Turned(s, queued, i, t, task, memory, v, handed, luns, mem, buffer, canned)
    requires Decode(queued.sc.command.cdb).Write?
    ensures var sc, op := queued.sc, Decode(queued.sc.command.cdb);
            var k, luns' := P.FindLun(luns, sc.command.lun % 256), T.Views(t.luns);
            && memory[..] == mem && |luns'| == |luns|
            && (forall j :: 0 <= j < |luns| && j != k ==> luns'[j] == luns[j])
            && (InRange(luns[k].mb, op.lba, op.blocks) ==>
                  && sc.result == GOOD as nat && |luns'[k].disk| == |luns[k].disk|
                  && Extent(luns'[k].disk, op.lba, op.blocks) == Gather(mem, sc.segs)
                  && forall p :: 0 <= p < |luns[k].disk| && (p < op.lba * BLOCK || (op.lba + op.blocks) * BLOCK <= p) ==>
                       luns'[k].disk[p] == luns[k].disk[p])
            && (!InRange(luns[k].mb, op.lba, op.blocks) ==> sc.result == CHECK_CONDITION as nat && luns' == luns)
  {
    hide Session.Linked, Session.Flagged, Views, T.Views, Q.Remove, P.FindLun, P.Ids, P.WellFormed, Gather, Total,
      RunOnLun, Landed, T.TargetData.Valid;
    var sc := queued.sc;
    var k := P.FindLun(luns, sc.command.lun % 256);
    WriteCarried(luns[k], P.Ids(luns), queued.cmdNumber, RequestOf(sc, mem), buffer, canned, mem, sc.segs);
    assert luns[k].(disk := luns[k].disk) == luns[k];
  }
}
