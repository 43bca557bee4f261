/**
 * The methods of the driver next to the steps of the protocol: every call on the objects, in whatever state it finds
 * them, does what the corresponding step does to a state that stands for them.
 */
module Lockstep {
  import opened Bytes
  import opened Wire
  import opened Scsi
  import opened Engine
  import opened ScatterGather
  import opened Hba
  import opened Device
  import opened DataPath
  import opened Service
  import R = Registry
  import Q = Queue
  import P = Protocol
  import I = Invariant
  import S = Steps
  import T = Turns
  import V = Service
  import M = Streams
  import O = Order
  import G = Guarantees
  import F = Refinement
  import C = Target

  /** The state w stands for this session, and for the contents of memory in the buffers of its commands. */
  ghost predicate Mirrors(w: P.World, s: Session, memory: array<byte>)
    reads s, s.queue, s.commands, memory
  {
    && Sane(s, memory.Length) && s.next == |w.reqs|
    && T.StandsFor(w, s.View(), s.queue, memory[..], w.luns)
  }

  /** The buffer of a command and what the mid layer guarantees of it. */
  ghost predicate FromMidLayer(sc: ScsiCmnd, memory: array<byte>)
    reads memory
  {
    && BufferOk(sc, memory.Length) && sc.command.cdbLen <= 16 && P.WellFormed(RequestOf(sc, memory[..]))
  }

  /** A command of this host has a task exactly if the protocol has a pointer for it, and the two agree. */
  lemma PointerIs(w: P.World, s: Session, memory: array<byte>, sc: ScsiCmnd)
    requires I.Safe(w) && Mirrors(w, s, memory) && sc in s.commands
    ensures sc.ptr == null <==> sc.id !in w.ptr
    ensures sc.ptr != null ==> sc.ptr in s.queue && w.ptr[sc.id] == s.View().queue[Position(s.queue, sc.ptr)].gid
  {
    var q := s.View().queue;
    assert I.Pointers(q, w.ptr, w.reqs);
    if sc.ptr != null {
      var j := Position(s.queue, sc.ptr);
      assert s.queue[j].sc == sc && q[j].sc == sc.id;
    }
    if sc.id in w.ptr {
      var k :| 0 <= k < |q| && q[k].gid == w.ptr[sc.id];
      assert q[k].sc == sc.id && s.queue[k].sc in s.commands;
    }
  }

  lemma AcceptStands(w: P.World, v: Q.Session, tasks: seq<Task>, mem: seq<byte>, sc: ScsiCmnd, t: Task, w': P.World)
    requires T.StandsFor(w, v, tasks, mem, w.luns) && InMemory(|mem|, sc.segs) && sc.command.Valid()
    requires t.sc == sc && t.cmdNumber == Q.NextNumber(v)
    requires w'.sess == P.Some(Q.Accept(v, |w.reqs|, sc.id)) && w'.reqs == w.reqs + [RequestOf(sc, mem)]
    requires w'.luns == w.luns
    ensures T.StandsFor(w', Q.Accept(v, |w.reqs|, sc.id), tasks + [t], mem, w'.luns)
  {
    hide Gather;
    var v', tasks' := Q.Accept(v, |w.reqs|, sc.id), tasks + [t];
    forall j | 0 <= j < |tasks'| ensures tasks'[j].sc.command.Valid() && T.SameTask(w'.reqs, v'.queue[j], tasks'[j], mem) {
      if j < |tasks| {
        assert T.SameTask(w.reqs, v.queue[j], tasks[j], mem);
      }
    }
  }

  lemma SaneMore(before: seq<Task>, t: Task, after: seq<Task>, memory: nat)
    requires after == before + [t] && AllSane(before, memory) && SaneTask(t, memory)
    ensures AllSane(after, memory)
  {
  }

  ghost predicate SaneTask(t: Task, memory: nat) {
    BufferOk(t.sc, memory) && HasHeader(t) && t.sc.command.cdbLen <= 16
  }

  ghost predicate AllSane(q: seq<Task>, memory: nat) {
    forall i :: 0 <= i < |q| ==> SaneTask(q[i], memory)
  }

  lemma SaneIs(s: Session, memory: nat)
    ensures Sane(s, memory) <==> s.Valid() && AllSane(s.queue, memory)
  {
  }

  lemma NotQueued(w: P.World, s: Session, memory: array<byte>, sc: ScsiCmnd)
    requires Mirrors(w, s, memory) && sc in s.commands && forall i :: 0 <= i < |s.queue| ==> s.queue[i].sc != sc
    ensures forall i :: 0 <= i < |s.View().queue| ==> s.View().queue[i].sc != sc.id
  {
    forall i | 0 <= i < |s.View().queue| ensures s.View().queue[i].sc != sc.id {
      assert s.queue[i].sc in s.commands;
    }
  }

  /** scsitap_queuecommand. */
  method QueueCommand(s: Session, sc: ScsiCmnd, slot: bool, memory: array<byte>, ghost w: P.World)
    returns (ret: int, ghost w': P.World)
    requires I.Safe(w) && Mirrors(w, s, memory) && sc in s.commands && FromMidLayer(sc, memory)
    requires forall i :: 0 <= i < |s.queue| ==> s.queue[i].sc != sc
    modifies s, sc
    ensures var l := P.Submit(RequestOf(sc, memory[..]), slot);
            P.Shaped(w) && P.Enabled(w, l) && w' == P.Next(w, l)
    ensures Mirrors(w', s, memory)
    ensures w'.reqs != w.reqs ==> ret == 0 && sc.ptr != null && s.handed == old(s.handed)
    ensures w'.reqs == w.reqs ==>
              sc.ptr == null &&
              if old(s.flags) == CONNECTION_READY then ret == HOST_BUSY && s.handed == old(s.handed)
              else ret == 0 && s.handed == old(s.handed) + [sc] && NotConnected(sc, old(sc.sense))
  {
    hide I.Safe, Session.Linked, Session.Flagged, Views, Gather, P.WellFormed, Sane, T.SameTask, NotConnected;
    SafeShaped(w);
    SaneIs(s, memory.Length);
    NotQueued(w, s, memory, sc);
    PointerIs(w, s, memory, sc);
    s.NoTaskNoPointer(sc);
    ghost var v, q := s.View(), s.queue;
    w' := P.NextSubmit(w, RequestOf(sc, memory[..]), slot);
    ret := s.QueueCommand(sc, slot);
    if v.ready && slot {
      assert s.View().queue[|q|] == s.queue[|q|].View();
      AcceptStands(w, v, q, memory[..], sc, sc.ptr, w');
      SaneMore(q, sc.ptr, s.queue, memory.Length);
    }
    SaneIs(s, memory.Length);
    assert w.ptr - {sc.id} == w.ptr;
  }

  lemma SafeShaped(w: P.World)
    requires I.Safe(w)
    ensures P.Shaped(w)
  {
  }

  // ----- tasks leave the queue

  lemma LeavesStands(w: P.World, v: Q.Session, tasks: seq<Task>, mem: seq<byte>, i: nat, w': P.World)
    requires T.StandsFor(w, v, tasks, mem, w.luns) && i < |tasks|
    requires w'.sess == P.Some(Q.Remove(v, i)) && w'.reqs == w.reqs
    ensures T.StandsFor(w', Q.Remove(v, i), Q.Without(tasks, i), mem, w'.luns)
  {
    hide T.SameTask;
    var v', tasks' := Q.Remove(v, i), Q.Without(tasks, i);
    forall k | 0 <= k < |tasks'|
      ensures tasks'[k].sc.command.Valid() && T.SameTask(w'.reqs, v'.queue[k], tasks'[k], mem)
    {
      var j := if k < i then k else k + 1;
      assert tasks'[k] == tasks[j] && v'.queue[k] == v.queue[j] && T.SameTask(w.reqs, v.queue[j], tasks[j], mem);
    }
  }

  lemma SaneLess(before: seq<Task>, i: nat, memory: nat)
    requires i < |before| && AllSane(before, memory)
    ensures AllSane(Q.Without(before, i), memory)
  {
    var after := Q.Without(before, i);
    assert forall k :: 0 <= k < |after| ==> after[k] == before[if k < i then k else k + 1];
  }

  /** The task of a pending command is where the protocol finds its index. */
  lemma TaskAt(w: P.World, s: Session, memory: array<byte>, sc: ScsiCmnd)
    requires I.Safe(w) && Mirrors(w, s, memory) && sc in s.commands && sc.ptr != null
    ensures sc.ptr in s.queue && sc.id in w.ptr
    ensures Position(s.queue, sc.ptr) == Q.IndexOfTask(s.View().queue, w.ptr[sc.id])
    ensures s.View().queue[Position(s.queue, sc.ptr)].gid == w.ptr[sc.id]
  {
    hide I.QueueOk, I.Accounted, I.Holders, I.HeadersInOrder, I.StreamsOk, Sane;
    PointerIs(w, s, memory, sc);
    var q, i := s.View().queue, Position(s.queue, sc.ptr);
    assert Q.Ordered(q) by { SafeOrdered(w); }
    var j := Q.IndexOfTask(q, w.ptr[sc.id]);
    assert j <= i;
  }

  lemma SafeOrdered(w: P.World)
    requires I.Safe(w) && w.sess.Some?
    ensures Q.Ordered(w.sess.value.queue)
  {
  }

  /** scsitap_eh_abort. */
  method EhAbort(s: Session, sc: ScsiCmnd, memory: array<byte>, ghost w: P.World) returns (ghost w': P.World)
    requires I.Safe(w) && Mirrors(w, s, memory) && sc in s.commands
    modifies s, sc, sc.ptr
    ensures P.Shaped(w) && P.Enabled(w, P.Abort(sc.id)) && w' == P.Next(w, P.Abort(sc.id))
    ensures Mirrors(w', s, memory) && sc.ptr == null && s.handed == old(s.handed)
  {
    hide I.Safe, Session.Linked, Session.Flagged, Views, Gather, P.WellFormed, Sane, T.SameTask, Position,
      Q.IndexOfTask;
    SafeShaped(w);
    SaneIs(s, memory.Length);
    PointerIs(w, s, memory, sc);
    ghost var v, q := s.View(), s.queue;
    w' := P.NextAbort(w, sc.id);
    if sc.ptr != null {
      TaskAt(w, s, memory, sc);
      LeavesStands(w, v, q, memory[..], Position(q, sc.ptr), w');
      SaneLess(q, Position(q, sc.ptr), memory.Length);
    }
    s.EhAbort(sc);
    SaneIs(s, memory.Length);
  }

  /** scsitap_eh_host_reset. */
  method EhHostReset(s: Session, memory: array<byte>, ghost w: P.World) returns (ghost w': P.World)
    requires I.Safe(w) && Mirrors(w, s, memory)
    modifies s`queue, s`cmdNumbers, s`handed, s.queue, set t | t in s.queue :: t.sc
    ensures P.Shaped(w) && P.Enabled(w, P.Reset) && w' == P.Next(w, P.Reset)
    ensures Mirrors(w', s, memory) && s.handed == old(s.handed)
  {
    hide I.Safe, Session.Linked, Session.Flagged, Views, Gather, P.WellFormed, Sane, T.SameTask;
    SafeShaped(w);
    SaneIs(s, memory.Length);
    w' := P.Next(w, P.Reset);
    s.EhHostReset();
    SaneIs(s, memory.Length);
  }

  // ----- a target

  /** The objects of target f are what the protocol has for it; an attached one uses this session. */
  ghost predicate Acts(w: P.World, f: nat, file: CtlFile, task: UserScsiTask, s: Session?)
    reads file, task, task.cdb, task.request_buffer
  {
    && f in w.files && task.cdb.Length == 16 && task.request_buffer.Length == BUFFER_SIZE
    && task.cdb != task.request_buffer
    && w.files[f].task == task.View() && w.files[f].buffer == task.request_buffer[..] && w.files[f].status == task.status
    && (file.privateData == null <==> w.files[f].private.None?) && (file.privateData != null ==> file.privateData == s)
  }

  lemma Attached(w: P.World, s: Session, memory: array<byte>, file: CtlFile, task: UserScsiTask, f: nat)
    requires I.Safe(w) && Mirrors(w, s, memory) && Acts(w, f, file, task, s)
    ensures file.privateData != null ==> P.Usable(w, w.files[f])
    ensures file.privateData != null ==> s.flags == CONNECTION_READY && Connected(file, memory.Length)
    ensures file.privateData == null ==> !Connected(file, memory.Length)
  {
    hide Sane, Session.Linked, Views;
    if file.privateData != null {
      S.AttachedIsUsable(w, f);
    }
  }

  /** The header in the protocol is the one that the driver prints. */
  lemma SameHeader(w: P.World, v: Q.Session, tasks: seq<Task>, mem: seq<byte>, i: nat, kind: byte)
    requires T.StandsFor(w, v, tasks, mem, w.luns) && P.Shaped(w) && i < |tasks|
    ensures v.queue[i].gid < |w.reqs| && w.reqs[v.queue[i].gid].cmd.Valid() && tasks[i].sc.command.Valid()
    ensures P.HeaderOf(w, v.queue[i], kind) == Header(kind, tasks[i].cmdNumber, tasks[i].sc.command)
    ensures w.reqs[v.queue[i].gid].cmd == tasks[i].sc.command && v.queue[i].num == tasks[i].cmdNumber
    ensures InMemory(|mem|, tasks[i].sc.segs) && w.reqs[v.queue[i].gid].payload == Gather(mem, tasks[i].sc.segs)
  {
    hide T.SameTask, Header;
    T.SameCommand(w, v, tasks, mem, w.luns);
    T.SameNumber(w.reqs, v.queue[i], tasks[i], mem);
  }

  lemma MirrorsStay(w: P.World, w': P.World, v: Q.Session, tasks: seq<Task>, mem: seq<byte>)
    requires T.StandsFor(w, v, tasks, mem, w.luns) && w'.sess == w.sess && w'.reqs == w.reqs
    ensures T.StandsFor(w', v, tasks, mem, w'.luns)
  {
    hide T.SameTask;
  }

  /** The read of get_scsi_task. */
  method ReadHeader(s: Session, file: CtlFile, task: UserScsiTask, memory: array<byte>, f: nat, ghost w: P.World)
    returns (x: int, ghost w': P.World)
    requires I.Safe(w) && Mirrors(w, s, memory) && Acts(w, f, file, task, s) && w.files[f].pc == P.Idle
    requires memory != task.cdb
    modifies task, task.cdb
    ensures P.Shaped(w) && P.Enabled(w, P.ReadHeader(f)) && w' == P.Next(w, P.ReadHeader(f))
    ensures Mirrors(w', s, memory) && f in w'.files
    ensures x == 31 ==> Acts(w', f, file, task, s) && w'.files[f].pc == P.HasHeader
    ensures x == 0 ==> Acts(w', f, file, task, s) && w' == w
    ensures x != 31 && x != 0 ==> x < 0 && w'.files[f].pc == P.Exited
  {
    hide I.Safe, Session.Linked, Session.Flagged, Views, Gather, P.WellFormed, Sane, T.SameTask, Header, ParseHeader,
      Q.FirstSubmitted, P.NextReadHeader, T.StandsFor, P.HeaderOf;
    SafeShaped(w);
    Attached(w, s, memory, file, task, f);
    ghost var v, q := s.View(), s.queue;
    ghost var i := Q.FirstSubmitted(v.queue);
    StandsFacts(w, v, q, memory[..]);
    if i < |q| {
      SameHeader(w, v, q, memory[..], i, TYPE_C);
    }
    w' := P.NextReadHeader(w, f);
    ReadOutcome(w, f);
    MirrorsStay(w, w', v, q, memory[..]);
    x := ReadTaskHeader(task, file, memory);
  }

  lemma StandsFacts(w: P.World, v: Q.Session, tasks: seq<Task>, mem: seq<byte>)
    requires T.StandsFor(w, v, tasks, mem, w.luns)
    ensures w.sess == P.Some(v) && |tasks| == |v.queue|
  {
  }

  /** The step, case by case. */
  lemma ReadOutcome(w: P.World, f: nat)
    requires P.Shaped(w) && f in w.files && (w.files[f].private.Some? ==> P.Usable(w, w.files[f]))
    ensures var w' := P.NextReadHeader(w, f);
            && w'.sess == w.sess && w'.reqs == w.reqs && f in w'.files
            && (w.files[f].private.None? ==> w'.files[f].pc == P.Exited)
            && (w.files[f].private.Some? ==>
                  var q := w.sess.value.queue;
                  var i := Q.FirstSubmitted(q);
                  && (i == |q| ==> w' == w)
                  && (i < |q| ==>
                        && q[i].gid < |w.reqs| && w.reqs[q[i].gid].cmd.Valid()
                        && P.HeaderOf(w, q[i], TYPE_C)[10] <= 16
                        && w'.files[f] == w.files[f].(pc := P.HasHeader, gid := q[i].gid,
                             task := ParseHeader(P.HeaderOf(w, q[i], TYPE_C), w.files[f].task.cdb))))
  {
    hide ParseHeader, Header, P.Flushed, P.WithoutStreams, Q.FirstSubmitted;
    if w.files[f].private.Some? {
      var q := w.sess.value.queue;
      var i := Q.FirstSubmitted(q);
      if i < |q| {
        S.CommandFits(w.reqs[q[i].gid]);
        HeaderRoundTrip(TYPE_C, q[i].num, w.reqs[q[i].gid].cmd, w.files[f].task.cdb);
      }
    }
  }

  /** The ioctl of get_scsi_task. */
  method ReceiveTask(s: Session, file: CtlFile, task: UserScsiTask, memory: array<byte>, f: nat, ghost w: P.World)
    returns (r: int, ghost w': P.World)
    requires I.Safe(w) && Mirrors(w, s, memory) && Acts(w, f, file, task, s) && w.files[f].pc == P.HasHeader
    modifies s.queue
    ensures P.Shaped(w) && P.Enabled(w, P.ClaimTask(f)) && w' == P.Next(w, P.ClaimTask(f))
    ensures r >= 0 && Mirrors(w', s, memory) && Acts(w', f, file, task, s) && w'.files[f].pc == P.Claimed
  {
    hide I.Safe, Session.Linked, Session.Flagged, Views, Gather, P.WellFormed, Sane, T.SameTask, Q.IndexOfNum,
      Q.Claim, T.StandsFor;
    SafeShaped(w);
    SaneIs(s, memory.Length);
    HolderAttached(w, f);
    Attached(w, s, memory, file, task, f);
    ghost var v, q := s.View(), s.queue;
    StandsFacts(w, v, q, memory[..]);
    w' := P.NextClaim(w, f);
    T.ClaimStands(w, v, q, memory[..], w.luns, task.cmd_number, w');
    r := R.ReceiveTask(file, task.cmd_number);
    SaneIs(s, memory.Length);
  }

  lemma HolderAttached(w: P.World, f: nat)
    requires I.Safe(w) && f in w.files && I.Holding(w.files[f].pc)
    ensures w.files[f].private.Some?
  {
  }

  /** All segments of queued commands have addresses, so that no copy faults. */
  ghost predicate Addressed(q: seq<Task>) {
    forall i :: 0 <= i < |q| ==> !exists g :: g in q[i].sc.segs && g.kaddr == 0
  }

  /** The step, case by case. */
  lemma FetchOutcome(w: P.World, f: nat)
    requires I.Safe(w) && P.Enabled(w, P.Fetch(f))
    ensures P.Shaped(w) && P.Usable(w, w.files[f]) && UHEADER_SIZE + w.files[f].task.bufflen <= BUFFER_SIZE
    ensures var w', file, q := P.NextFetch(w, f), w.files[f], w.sess.value.queue;
            var i := if file.task.bufflen == 0 then Q.FirstSubmitted(q) else Q.IndexOfNum(q, file.task.num);
            && w'.sess == w.sess && w'.reqs == w.reqs && f in w'.files && i <= |q|
            && (i < |q| ==> q[i].gid < |w.reqs| && w.reqs[q[i].gid].cmd.Valid())
            && if i == |q| then w'.files[f].pc == P.Exited
               else if file.task.bufflen == 0 then
                 w'.files[f] == file.(pc := P.HasData, buffer := Patch(file.buffer, 0, P.HeaderOf(w, q[i], TYPE_C)))
               else if q[i].flag == Q.Received && w.reqs[q[i].gid].cmd.bufflen == file.task.bufflen then
                 && UHEADER_SIZE + |w.reqs[q[i].gid].payload| <= |file.buffer|
                 && w'.files[f] == file.(pc := P.HasData,
                      buffer := Patch(file.buffer, 0, P.HeaderOf(w, q[i], TYPE_D) + w.reqs[q[i].gid].payload))
               else w'.files[f].pc == P.Exited
  {
    hide Header, P.Flushed, P.WithoutStreams, Q.FirstSubmitted, Q.IndexOfNum, Patch, I.Pointers, I.Accounted,
      I.QueueOk, I.HeadersInOrder, I.StreamsOk, P.WellFormed, I.Describes, I.ClaimedBefore, Q.NumOf;
    HolderAttached(w, f);
    S.HeldFacts(w, f);
    S.CommandFits(w.reqs[w.files[f].gid]);
    var file, q := w.files[f], w.sess.value.queue;
    var i := if file.task.bufflen == 0 then Q.FirstSubmitted(q) else Q.IndexOfNum(q, file.task.num);
    if i < |q| {
      assert P.WellFormed(w.reqs[q[i].gid]);
      S.CommandFits(w.reqs[q[i].gid]);
    }
  }

  /** receive_scsi_data. */
  method ReceiveScsiData(s: Session, file: CtlFile, task: UserScsiTask, memory: array<byte>, f: nat, ghost w: P.World)
    returns (r: int, ghost w': P.World)
    requires I.Safe(w) && Mirrors(w, s, memory) && Acts(w, f, file, task, s) && P.Enabled(w, P.Fetch(f))
    requires memory != task.request_buffer && Addressed(s.queue)
    modifies file`fPos, task.request_buffer
    ensures P.Shaped(w) && w' == P.Next(w, P.Fetch(f))
    ensures Mirrors(w', s, memory) && f in w'.files
    ensures r >= 0 ==> Acts(w', f, file, task, s) && w'.files[f].pc == P.HasData
    ensures r < 0 ==> w'.files[f].pc == P.Exited
  {
    hide I.Safe, Session.Linked, Session.Flagged, Views, Gather, P.WellFormed, Sane, T.SameTask, Header, P.NextFetch,
      Q.FirstSubmitted, Q.IndexOfNum, T.StandsFor, P.HeaderOf, Patch;
    HolderAttached(w, f);
    Attached(w, s, memory, file, task, f);
    FetchOutcome(w, f);
    ghost var v, q := s.View(), s.queue;
    StandsFacts(w, v, q, memory[..]);
    ghost var i := if task.request_bufflen == 0 then Q.FirstSubmitted(v.queue) else Q.IndexOfNum(v.queue, task.cmd_number);
    if i < |q| {
      SameHeader(w, v, q, memory[..], i, if task.request_bufflen == 0 then TYPE_C else TYPE_D);
    }
    w' := P.NextFetch(w, f);
    MirrorsStay(w, w', v, q, memory[..]);
    r := V.ReceiveScsiData(task, file, memory);
  }

  // ----- a run

  /** The LUNs as target f sees them through its streams. */
  ghost function Shown(w: P.World, f: nat): (v: seq<Lun>)
    ensures |v| == |w.luns| && forall i :: 0 <= i < |w.luns| ==> v[i] == P.Seen(w.luns, w.streams, f, i)
    ensures P.Ids(v) == P.Ids(w.luns)
  {
    seq(|w.luns|, i requires 0 <= i < |w.luns| => P.Seen(w.luns, w.streams, f, i))
  }

  /** A stream that is not outdated shows the outcome of a command, however much of a write stays in it. */
  lemma ShownAfter(luns: seq<Lun>, streams: map<(nat, nat), P.Stream>, f: nat, i: nat, op: Op, ids: seq<byte>,
                   buffer: seq<byte>, at: nat, size: nat, keep: P.Keep)
    requires i < |luns| && luns[i].Sized() && |ids| <= 256 && !op.Other? && at <= |buffer|
    requires Fits(op, luns[i].mb, |buffer| - at, size)
    requires P.Seen(luns, streams, f, i) == P.FlushedAt(luns, streams, f, i)
    ensures op.Write? && InRange(luns[i].mb, op.lba, op.blocks) ==> |P.DataOf(buffer, at, op)| == op.blocks * BLOCK
    ensures var l := P.Seen(luns, streams, f, i);
            var r := Serve(l, op, ids, buffer, at, size);
            var after := P.AfterRun(luns, streams, f, i, op, P.DataOf(buffer, at, op), keep);
            && P.Seen(luns[i := after.0], after.1, f, i) == l.(disk := r.disk)
            && forall j: nat :: j < |luns| && j != i ==>
                 P.Seen(luns[i := after.0], after.1, f, j) == P.Seen(luns, streams, f, j)
  {
    hide P.Apply, P.Remembered;
    var l, data := P.Seen(luns, streams, f, i), P.DataOf(buffer, at, op);
    var r := Serve(l, op, ids, buffer, at, size);
    if !P.Seeks(op, luns[i].mb) {
      M.ServedBlind(l, l, op, ids, buffer, at, size);
      assert l.(disk := l.disk) == l && luns[i := luns[i]] == luns;
    } else {
      M.FileAndStream(luns, streams, f, i, op, data, keep);
      assert l.(disk := l.disk) == l;
    }
  }

  /** The step, case by case. */
  lemma ExecuteOutcome(w: P.World, f: nat, canned: Canned, keep: P.Keep)
    requires I.Safe(w) && P.Enabled(w, P.Execute(f, canned, keep))
    ensures P.Shaped(w)
    ensures var w', file := P.NextExecute(w, f, canned, keep), w.files[f];
            var i := P.FindLun(w.luns, file.task.lun % 256);
            var op, at := Decode(file.task.cdb), if file.task.direction == DIR_OUT then UHEADER_SIZE else COMPLETION_SIZE;
            && w'.sess == w.sess && w'.reqs == w.reqs && f in w'.files
            && (i == |w.luns| ==> w'.files[f].pc == P.Exited)
            && (i < |w.luns| ==>
                  && at + P.MAX_TRANSFER <= BUFFER_SIZE && Fits(op, w.luns[i].mb, BUFFER_SIZE - at, file.task.bufflen)
                  && var r := Handled(Shown(w, f)[i], op, P.Ids(w.luns), file.buffer, at, file.task.bufflen, canned);
                  && w'.files[f] == file.(pc := P.Executed, buffer := r.buffer, status := r.status,
                       task := file.task.(bufflen := if file.task.direction == DIR_OUT then 0 else file.task.bufflen))
                  && (P.Seen(w.luns, w.streams, f, i) == P.FlushedAt(w.luns, w.streams, f, i) ==>
                        Shown(w', f) == Shown(w, f)[i := Shown(w, f)[i].(disk := r.disk)]))
  {
    hide I.Pointers, I.Accounted, I.QueueOk, I.HeadersInOrder, I.StreamsOk, P.WellFormed, I.Describes,
      I.ClaimedBefore, Q.NumOf, P.FindLun, Fits, Decode, Serve, P.AfterRun, P.Seen, P.FlushedAt, P.ReplyBytes,
      P.WithoutStreams;
    HolderAttached(w, f);
    S.HeldFacts(w, f);
    var file := w.files[f];
    var i := P.FindLun(w.luns, file.task.lun % 256);
    if i < |w.luns| {
      S.TargetRunsCommand(file, w.reqs[file.gid], w.luns[i].mb);
      var op, at := Decode(file.task.cdb), P.DataOffset(file.task);
      var r := Handled(Shown(w, f)[i], op, P.Ids(w.luns), file.buffer, at, file.task.bufflen, canned);
      assert Shown(w, f)[i := Shown(w, f)[i]] == Shown(w, f);
      if !op.Other? {
        O.RoomForWrite(op, w.luns[i].mb, file.buffer, at, file.task.bufflen);
        if P.Seen(w.luns, w.streams, f, i) == P.FlushedAt(w.luns, w.streams, f, i) {
          ShownAfter(w.luns, w.streams, f, i, op, P.Ids(w.luns), file.buffer, at, file.task.bufflen, keep);
        }
      }
    }
  }

  /** run_scsi_command and the stores around it in the service loop. */
  method RunAndStore(task: UserScsiTask, t: C.TargetData, canned: Canned) returns (crashed: bool)
    requires t.Valid() && |t.luns| <= 256 && task.cdb.Length == 16 && task.request_buffer.Length == BUFFER_SIZE
    requires task.cdb != task.request_buffer && |canned.data| <= P.MAX_TRANSFER
    requires forall l :: l in t.luns ==> l.file != task.request_buffer && l.file != task.cdb
    requires var i, at := P.FindLun(C.Views(t.luns), task.lun % 256), if task.direction == 79 then 31 else 6;
             && at + P.MAX_TRANSFER <= BUFFER_SIZE
             && (i < |t.luns| ==>
                   Fits(Decode(task.cdb[..]), t.luns[i].lunsizeinmb as nat, BUFFER_SIZE - at, task.request_bufflen))
    modifies task`status, task`request_bufflen, task.request_buffer, set l | l in t.luns :: l.file
    ensures t.Valid() && t.luns == old(t.luns)
    ensures crashed <==> P.FindLun(old(C.Views(t.luns)), task.lun % 256) == |t.luns|
    ensures crashed ==> C.Views(t.luns) == old(C.Views(t.luns))
    ensures !crashed ==>
              var v, at := old(C.Views(t.luns)), if task.direction == 79 then 31 else 6;
              var i := P.FindLun(v, task.lun % 256);
              var r := Handled(v[i], Decode(task.cdb[..]), P.Ids(v), old(task.request_buffer[..]), at,
                               old(task.request_bufflen), canned);
              && C.Views(t.luns) == v[i := v[i].(disk := r.disk)]
              && task.request_buffer[..] == r.buffer && task.status == r.status
              && task.request_bufflen == if task.direction == 79 then 0 else old(task.request_bufflen)
  {
    hide P.FindLun, Decode, Fits, Handled, P.Ids, C.Views;
    var at := if task.direction == 79 then 31 else 6;
    ghost var before := C.Views(t.luns);
    var status;
    crashed, status := t.RunScsiCommand(task.lun % 256, task.cdb[..], task.request_buffer, at, task.request_bufflen,
                                         canned);
    if crashed {
      AllLunsAre(t, before);
    } else {
      task.status := status;
      if task.direction == 79 {
        task.request_bufflen := 0;
      }
      LunsAre(t, before, P.FindLun(before, task.lun % 256));
    }
  }

  /** The same on LUNs that show what the streams of the target show. */
  method RunCommand(s: Session, file: CtlFile, task: UserScsiTask, memory: array<byte>, t: C.TargetData, canned: Canned,
                    f: nat, ghost keep: P.Keep, ghost w: P.World) returns (crashed: bool, ghost w': P.World)
    requires I.Safe(w) && Mirrors(w, s, memory) && Acts(w, f, file, task, s) && P.Enabled(w, P.Execute(f, canned, keep))
    requires t.Valid() && C.Views(t.luns) == Shown(w, f)
    requires memory != task.request_buffer
    requires forall l :: l in t.luns ==> l.file != task.request_buffer && l.file != task.cdb && l.file != memory
    modifies task`status, task`request_bufflen, task.request_buffer, set l | l in t.luns :: l.file
    ensures P.Shaped(w) && w' == P.Next(w, P.Execute(f, canned, keep))
    ensures Mirrors(w', s, memory) && f in w'.files && t.Valid() && t.luns == old(t.luns)
    ensures crashed ==> w'.files[f].pc == P.Exited
    ensures !crashed ==> Acts(w', f, file, task, s) && w'.files[f].pc == P.Executed
    ensures NotOutdated(w, f) ==> crashed || C.Views(t.luns) == Shown(w', f)
  {
    hide I.Safe, Sane, T.StandsFor, Session.View, P.NextExecute, P.FindLun, Decode, Fits, Handled, P.Seen,
      P.FlushedAt, P.Ids, C.Views, C.TargetData.Valid;
    ExecuteOutcome(w, f, canned, keep);
    w' := P.NextExecute(w, f, canned, keep);
    MirrorsStayHere(w, w', s, memory);
    SameLookup(w.luns, Shown(w, f), task.lun % 256);
    ShownBy(t, Shown(w, f));
    crashed := RunAndStore(task, t, canned);
  }

  /** The stream of target f on the LUN of its command shows nothing that is not in the file any more. */
  ghost predicate NotOutdated(w: P.World, f: nat)
    requires f in w.files
  {
    var i := P.FindLun(w.luns, w.files[f].task.lun % 256);
    i < |w.luns| ==> P.Seen(w.luns, w.streams, f, i) == P.FlushedAt(w.luns, w.streams, f, i)
  }

  lemma ShownBy(t: C.TargetData, luns: seq<Lun>)
    requires t.Valid() && C.Views(t.luns) == luns
    ensures |t.luns| == |luns| && forall i :: 0 <= i < |luns| ==> t.luns[i].lunsizeinmb as nat == luns[i].mb
  {
  }

  lemma AllLunsAre(t: C.TargetData, before: seq<Lun>)
    requires t.Valid() && |before| == |t.luns|
    requires forall j :: 0 <= j < |before| ==> t.luns[j].lun == before[j].id && t.luns[j].lunsizeinmb as nat == before[j].mb
    requires forall j :: 0 <= j < |before| ==> t.luns[j].file[..] == before[j].disk
    ensures C.Views(t.luns) == before
  {
  }

  lemma MirrorsStayHere(w: P.World, w': P.World, s: Session, memory: array<byte>)
    requires Mirrors(w, s, memory) && w'.sess == w.sess && w'.reqs == w.reqs
    ensures Mirrors(w', s, memory)
  {
    hide Sane, T.SameTask;
  }

  lemma SameLookup(a: seq<Lun>, b: seq<Lun>, id: byte)
    requires |a| == |b| && forall i :: 0 <= i < |a| ==> a[i].id == b[i].id
    ensures P.FindLun(a, id) == P.FindLun(b, id)
  {
    I.SameIds(a, b, id);
  }

  /** LUNs of which one has a new disk. */
  lemma LunsAre(t: C.TargetData, before: seq<Lun>, i: nat)
    requires t.Valid() && |before| == |t.luns| && i < |before|
    requires forall j :: 0 <= j < |before| ==> t.luns[j].lun == before[j].id && t.luns[j].lunsizeinmb as nat == before[j].mb
    requires forall j :: 0 <= j < |before| && j != i ==> t.luns[j].file[..] == before[j].disk
    ensures C.Views(t.luns) == before[i := before[i].(disk := t.luns[i].file[..])]
  {
  }

  // ----- a completion

  /** The segments of queued commands overlap nowhere. */
  ghost predicate Apart(q: seq<Task>) {
    forall i :: 0 <= i < |q| ==> T.OwnSegments(q, i)
  }

  /** Memory after the completion of this command with the bytes behind the head of a request buffer. */
  ghost function Filled(mem: seq<byte>, sc: ScsiCmnd, buffer: seq<byte>, status: byte, bufflen: nat): (mem': seq<byte>)
    requires InMemory(|mem|, sc.segs) && Total(sc.segs) == sc.command.bufflen
    requires COMPLETION_SIZE + sc.command.bufflen <= |buffer|
    ensures |mem'| == |mem|
  {
    if status == GOOD && bufflen > 0 then Scatter(mem, sc.segs, P.ReplyBytes(buffer, sc.command.bufflen)) else mem
  }

  /** The driver accepts the message and takes its data and status. */
  lemma MessageTaken(mem: seq<byte>, sc: ScsiCmnd, buffer: seq<byte>, num: uint32, status: byte, bufflen: nat)
    requires InMemory(|mem|, sc.segs) && Total(sc.segs) == sc.command.bufflen && !exists g :: g in sc.segs && g.kaddr == 0
    requires |buffer| == BUFFER_SIZE && COMPLETION_SIZE + sc.command.bufflen <= BUFFER_SIZE
    ensures var b := Patch(buffer, 0, CompletionHead(num, status));
            && StatusIn(b) == status && Acceptable(sc, b, COMPLETION_SIZE + bufflen)
            && MemoryOf(mem, sc, b, COMPLETION_SIZE + bufflen) == Filled(mem, sc, buffer, status, bufflen)
  {
    hide Scatter, Total, Gather;
    var b := Patch(buffer, 0, CompletionHead(num, status));
    ServedWhole(sc.segs, |b| - COMPLETION_SIZE);
    var n := COMPLETION_SIZE + sc.command.bufflen;
    assert b[COMPLETION_SIZE..n] == buffer[COMPLETION_SIZE..n];
  }

  /** What the protocol records as the data of the command is what its segments then hold. */
  lemma FilledData(mem: seq<byte>, sc: ScsiCmnd, buffer: seq<byte>, status: byte, bufflen: nat)
    requires InMemory(|mem|, sc.segs) && Total(sc.segs) == sc.command.bufflen && Disjoint(sc.segs)
    requires COMPLETION_SIZE + sc.command.bufflen <= |buffer|
    ensures Gather(Filled(mem, sc, buffer, status, bufflen), sc.segs) ==
            if status == GOOD && bufflen > 0 then P.ReplyBytes(buffer, sc.command.bufflen) else Gather(mem, sc.segs)
  {
    hide Scatter, Total, Gather;
    if status == GOOD && bufflen > 0 {
      GatherScatter(mem, sc.segs, P.ReplyBytes(buffer, sc.command.bufflen));
    }
  }

  lemma FilledStands(w: P.World, v: Q.Session, tasks: seq<Task>, mem: seq<byte>, i: nat, buffer: seq<byte>, status: byte,
                     bufflen: nat, w': P.World)
    requires T.StandsFor(w, v, tasks, mem, w.luns) && i < |tasks| && T.OwnSegments(tasks, i)
    requires InMemory(|mem|, tasks[i].sc.segs) && Total(tasks[i].sc.segs) == tasks[i].sc.command.bufflen
    requires COMPLETION_SIZE + tasks[i].sc.command.bufflen <= |buffer|
    requires w'.sess == P.Some(Q.Remove(v, i)) && w'.reqs == w.reqs
    ensures T.StandsFor(w', Q.Remove(v, i), Q.Without(tasks, i), Filled(mem, tasks[i].sc, buffer, status, bufflen), w'.luns)
  {
    hide Gather, Scatter, Total;
    var sc, v', tasks' := tasks[i].sc, Q.Remove(v, i), Q.Without(tasks, i);
    var mem' := Filled(mem, sc, buffer, status, bufflen);
    forall k | 0 <= k < |tasks'|
      ensures tasks'[k].sc.command.Valid() && T.SameTask(w'.reqs, v'.queue[k], tasks'[k], mem')
    {
      var j := if k < i then k else k + 1;
      assert tasks'[k] == tasks[j] && v'.queue[k] == v.queue[j] && T.SameTask(w.reqs, v.queue[j], tasks[j], mem);
      if status == GOOD && bufflen > 0 {
        ScatterKeepsOthers(mem, sc.segs, P.ReplyBytes(buffer, sc.command.bufflen), tasks[j].sc.segs);
      }
    }
  }

  /** The step for the driver, case by case. */
  lemma CompleteOutcome(w: P.World, f: nat)
    requires I.Safe(w) && P.Enabled(w, P.Complete(f))
    ensures P.Shaped(w) && w.sess.Some? && COMPLETION_SIZE + w.files[f].task.bufflen <= BUFFER_SIZE
    ensures var w', file, q := P.NextComplete(w, f), w.files[f], w.sess.value.queue;
            var i := Q.IndexOfNum(q, file.task.num);
            && w'.reqs == w.reqs
            && (i == |q| ==> w'.sess == w.sess && w'.log == w.log)
            && (i < |q| ==>
                  && q[i].gid < |w.reqs| && COMPLETION_SIZE + w.reqs[q[i].gid].cmd.bufflen <= |file.buffer|
                  && w'.sess == P.Some(Q.Remove(w.sess.value, i))
                  && w'.log == w.log + [P.Done(q[i].gid, ResultOf(file.status),
                       if file.status == GOOD && file.task.bufflen > 0
                       then P.ReplyBytes(file.buffer, w.reqs[q[i].gid].cmd.bufflen) else w.reqs[q[i].gid].payload)])
  {
    hide I.Safe, P.Shaped, P.NextComplete, Q.IndexOfNum, P.ReplyBytes, ResultOf, Q.Remove;
    SafeShaped(w);
    BufferHolds(w);
    G.CompletionStep(w, f);
  }

  /** And for the target. */
  lemma CompleteMoves(w: P.World, f: nat)
    requires I.Safe(w) && P.Enabled(w, P.Complete(f))
    ensures P.Shaped(w) && P.Usable(w, w.files[f]) && f in P.NextComplete(w, f).files
    ensures var w', file := P.NextComplete(w, f), w.files[f];
            && |file.buffer| == BUFFER_SIZE
            && w'.files[f] == file.(pc := P.Idle,
                 buffer := Patch(file.buffer, 0, CompletionHead(file.task.num, file.status)))
  {
    hide I.Safe, P.Shaped, P.NextComplete, Q.IndexOfNum, P.ReplyBytes, Patch, ResultOf, Q.Remove, CompletionHead;
    SafeShaped(w);
    BufferHolds(w);
    HolderAttached(w, f);
    S.AttachedIsUsable(w, f);
    CompleteOutcome(w, f);
    T.StaysAttached(w, f);
  }

  lemma BufferHolds(w: P.World)
    requires P.Shaped(w)
    ensures forall f :: f in w.files ==> |w.files[f].buffer| == BUFFER_SIZE
  {
  }

  lemma BuffersAre(s: Session, memory: nat)
    requires Sane(s, memory)
    ensures s.Valid() && BuffersOk(s, memory)
  {
  }

  /** The driver accepts the completion of task i, and what it does to memory is what the protocol records. */
  lemma TaskCompletes(w: P.World, v: Q.Session, tasks: seq<Task>, mem: seq<byte>, i: nat, buffer: seq<byte>, num: uint32,
                      status: byte, bufflen: nat, w': P.World)
    requires P.Shaped(w) && T.StandsFor(w, v, tasks, mem, w.luns) && i < |tasks| == |v.queue|
    requires AllSane(tasks, |mem|) && Addressed(tasks) && Apart(tasks)
    requires v.queue[i].gid < |w.reqs| && COMPLETION_SIZE + w.reqs[v.queue[i].gid].cmd.bufflen <= |buffer| == BUFFER_SIZE
    requires w'.sess == P.Some(Q.Remove(v, i)) && w'.reqs == w.reqs
    ensures AllSane(Q.Without(tasks, i), |mem|)
    ensures var sc, r, b := tasks[i].sc, w.reqs[v.queue[i].gid], Patch(buffer, 0, CompletionHead(num, status));
            && InMemory(|mem|, sc.segs) && Total(sc.segs) == sc.command.bufflen
            && COMPLETION_SIZE + sc.command.bufflen <= |buffer|
            && StatusIn(b) == status && Acceptable(sc, b, COMPLETION_SIZE + bufflen)
            && var mem' := MemoryOf(mem, sc, b, COMPLETION_SIZE + bufflen);
            && |mem'| == |mem| && T.StandsFor(w', Q.Remove(v, i), Q.Without(tasks, i), mem', w'.luns)
            && Gather(mem', sc.segs) ==
               if status == GOOD && bufflen > 0 then P.ReplyBytes(buffer, r.cmd.bufflen) else r.payload
  {
    hide P.Shaped, T.StandsFor, T.OwnSegments, Gather, Total, Q.Remove, Patch, CompletionHead, Acceptable, MemoryOf,
      Filled, P.ReplyBytes, StatusIn;
    StandsFacts(w, v, tasks, mem);
    SameHeader(w, v, tasks, mem, i, TYPE_D);
    MessageTaken(mem, tasks[i].sc, buffer, num, status, bufflen);
    OwnIsDisjoint(tasks, i);
    FilledData(mem, tasks[i].sc, buffer, status, bufflen);
    FilledStands(w, v, tasks, mem, i, buffer, status, bufflen, w');
    SaneLess(tasks, i, |mem|);
  }

  /** complete_scsi_task. */
  method CompleteScsiTask(s: Session, file: CtlFile, task: UserScsiTask, memory: array<byte>, f: nat, ghost w: P.World)
    returns (ret: int, ghost w': P.World)
    requires I.Safe(w) && Mirrors(w, s, memory) && Acts(w, f, file, task, s) && P.Enabled(w, P.Complete(f))
    requires memory != task.request_buffer && memory != task.cdb && Addressed(s.queue) && Apart(s.queue)
    modifies memory, task.request_buffer, s, set t | t in s.queue :: t.sc
    ensures P.Shaped(w) && w' == P.Next(w, P.Complete(f)) && ret == 0
    ensures Mirrors(w', s, memory) && Acts(w', f, file, task, s) && w'.files[f].pc == P.Idle
    ensures var v, tasks := old(s.View()), old(s.queue);
            var i := Q.IndexOfNum(v.queue, task.cmd_number);
            if i == |tasks| then s.handed == old(s.handed) && w'.log == w.log && memory[..] == old(memory[..])
            else
              && s.handed == old(s.handed) + [tasks[i].sc] && InMemory(memory.Length, tasks[i].sc.segs)
              && w'.log == w.log + [P.Done(v.queue[i].gid, tasks[i].sc.result, Gather(memory[..], tasks[i].sc.segs))]
  {
    hide Session.View, AllSane, Addressed, Apart, BuffersOk, I.Safe, Session.Linked, Session.Flagged, Views, Gather,
      P.WellFormed, Sane, T.SameTask, Q.IndexOfNum, P.NextComplete, T.StandsFor, Patch, CompletionHead, Acceptable,
      MemoryOf, SenseOf, ResultOf, Filled, P.ReplyBytes, T.OwnSegments, Q.Remove;
    HolderAttached(w, f);
    Attached(w, s, memory, file, task, f);
    CompleteOutcome(w, f);
    CompleteMoves(w, f);
    SaneIs(s, memory.Length);
    ghost var v, q, mem := s.View(), s.queue, memory[..];
    ghost var buffer, num, status, bufflen := task.request_buffer[..], task.cmd_number, task.status, task.request_bufflen;
    StandsFacts(w, v, q, mem);
    ghost var i := Q.IndexOfNum(v.queue, num);
    w' := P.NextComplete(w, f);
    BuffersAre(s, memory.Length);
    if i < |q| {
      TaskCompletes(w, v, q, mem, i, buffer, num, status, bufflen, w');
    } else {
      MirrorsStay(w, w', v, q, mem);
    }
    ret := V.CompleteScsiTask(task, file, memory);
    SaneIs(s, memory.Length);
  }

  lemma OwnIsDisjoint(q: seq<Task>, i: nat)
    requires i < |q| && T.OwnSegments(q, i)
    ensures Disjoint(q[i].sc.segs)
  {
  }

  // ----- registration

  /** s is the session of this minor number, if there is one, and the state stands for it. */
  ghost predicate Serves(w: P.World, ss: R.Sessions, minor: nat, s: Session?, memory: array<byte>)
    reads ss, ss.sessions, set x, i: int | x in ss.sessions && 0 <= i < |x.queue| :: x.queue[i],
      set x, c | x in ss.sessions && c in x.commands :: c, memory
  {
    && ss.Valid()
    && (s == null ==> w.sess.None? && forall x :: x in ss.sessions ==> x.devId != minor)
    && (s != null ==> s in ss.sessions && s.devId == minor && Mirrors(w, s, memory))
  }

  /** The counters of registrations matter to nothing else. */
  lemma ReopenedStands(w: P.World, v: Q.Session, v': Q.Session, tasks: seq<Task>, mem: seq<byte>, w': P.World)
    requires T.StandsFor(w, v, tasks, mem, w.luns) && v'.queue == v.queue
    requires w'.sess == P.Some(v') && w'.reqs == w.reqs
    ensures T.StandsFor(w', v', tasks, mem, w'.luns)
  {
    hide T.SameTask;
  }

  lemma RegisterOutcome(w: P.World, f: nat, hostAdded: bool)
    requires f in w.files
    ensures var w' := P.NextRegister(w, f, hostAdded);
            && w'.reqs == w.reqs && f in w'.files
            && (w.sess.None? && !hostAdded ==> w' == w)
            && (w.sess.None? && hostAdded ==> w'.sess == P.Some(Q.Attach(Q.NewSession(|w.reqs|))))
            && (w.sess.Some? ==> w'.sess == P.Some(Q.Attach(w.sess.value)))
            && (w.sess.Some? || hostAdded ==>
                  w'.files[f].private.Some? && w'.files[f] == w.files[f].(private := w'.files[f].private))
  {
  }

  lemma NewStands(w: P.World, w': P.World, mem: seq<byte>)
    requires w'.sess == P.Some(Q.Attach(Q.NewSession(|w.reqs|)))
    ensures T.StandsFor(w', Q.Attach(Q.NewSession(|w.reqs|)), [], mem, w'.luns)
  {
  }

  /** SCSITAP_IOCTL_REGISTER_CLIENT. */
  method Register(ss: R.Sessions, file: CtlFile, task: UserScsiTask, memory: array<byte>, hostAdded: bool, f: nat,
                  ghost s: Session?, ghost w: P.World) returns (ret: int, ghost s': Session?, ghost w': P.World)
    requires I.Safe(w) && Serves(w, ss, file.minor, s, memory) && Acts(w, f, file, task, s) && w.files[f].pc == P.Idle
    modifies ss, file`privateData, ss.sessions`deviceOpen, ss.sessions`flags
    ensures var l := P.Register(f, hostAdded); P.Shaped(w) && P.Enabled(w, l) && w' == P.Next(w, l)
    ensures Serves(w', ss, file.minor, s', memory) && Acts(w', f, file, task, s')
    ensures ret == SUCCESS <==> s' != null
    ensures ret == SUCCESS ==> file.privateData == s' && (s != null ==> s' == s) && (s == null ==> fresh(s'))
  {
    hide I.Safe, Session.Linked, Session.Flagged, Views, Sane, T.StandsFor, Q.Attach, P.NextRegister;
    SafeShaped(w);
    RegisterOutcome(w, f, hostAdded);
    w' := P.NextRegister(w, f, hostAdded);
    ghost var v, q := if s == null then Q.NewSession(|w.reqs|) else s.View(), if s == null then [] else s.queue;
    if s != null {
      SaneIs(s, memory.Length);
      StandsFacts(w, v, q, memory[..]);
      QueueStays(v);
      ReopenedStands(w, v, Q.Attach(v), q, memory[..], w');
    }
    ret := ss.Register(file, hostAdded, |w.reqs|);
    s' := if ret == SUCCESS then file.privateData else s;
    if s' != null {
      if s == null {
        NewStands(w, w', memory[..]);
      }
      SaneIs(s', memory.Length);
    }
  }

  lemma QueueStays(v: Q.Session)
    ensures Q.Attach(v).queue == v.queue
  {
  }

  lemma ReleaseOutcome(w: P.World, f: nat)
    requires I.Safe(w) && f in w.files
    ensures var w' := P.NextRelease(w, f);
            && w'.reqs == w.reqs && f !in w'.files
            && (w.files[f].private.None? ==> w'.sess == w.sess)
            && (w.files[f].private.Some? ==> w.sess.Some? && w'.sess == P.Some(Q.Detach(w.sess.value)))
  {
    hide P.WithoutStreams, I.Pointers, I.Accounted, I.QueueOk, I.Holders, I.HeadersInOrder, I.StreamsOk, P.Shaped;
  }

  lemma DetachKeepsQueue(v: Q.Session)
    ensures Q.Detach(v).queue == v.queue
  {
  }

  /** scsitap_ctl_release: the session of a file that is attached is live. */
  method Release(ss: R.Sessions, file: CtlFile, task: UserScsiTask, memory: array<byte>, f: nat, ghost s: Session?,
                 ghost w: P.World) returns (ghost w': P.World)
    requires I.Safe(w) && Serves(w, ss, file.minor, s, memory) && Acts(w, f, file, task, s)
    modifies (if file.privateData == null then {} else {file.privateData})`deviceOpen,
      (if file.privateData == null then {} else {file.privateData})`flags
    ensures P.Shaped(w) && P.Enabled(w, P.Release(f)) && w' == P.Next(w, P.Release(f))
    ensures Serves(w', ss, file.minor, s, memory) && f !in w'.files
  {
    hide I.Safe, Session.Linked, Session.Flagged, Views, Sane, T.StandsFor, Q.Detach, P.NextRelease;
    SafeShaped(w);
    ReleaseOutcome(w, f);
    w' := P.NextRelease(w, f);
    if s != null {
      SaneIs(s, memory.Length);
      StandsFacts(w, s.View(), s.queue, memory[..]);
      DetachKeepsQueue(s.View());
      if file.privateData == null {
        MirrorsStay(w, w', s.View(), s.queue, memory[..]);
      } else {
        ReopenedStands(w, s.View(), Q.Detach(s.View()), s.queue, memory[..], w');
      }
    }
    ss.Release(file);
    if s != null {
      SaneIs(s, memory.Length);
    }
  }

  lemma UnregisterOutcome(w: P.World)
    requires P.Shaped(w)
    ensures var w' := P.NextUnregister(w);
            if w.sess.None? || w.sess.value.open != 0 then w' == w
            else
              var q := w.sess.value.queue;
              && w'.sess.None? && w'.reqs == w.reqs && |w'.log| == |w.log| + |q| && w.log <= w'.log
              && forall i :: 0 <= i < |q| ==>
                   q[i].gid < |w.reqs|
                   && w'.log[|w.log| + i] == P.Done(q[i].gid, DID_NO_CONNECT * 0x1_0000, w.reqs[q[i].gid].payload)
  {
    hide P.WellFormed;
  }

  /** The pending commands are handed back with these events. */
  ghost predicate HandedBackAs(q: seq<Task>, gids: seq<nat>, memory: array<byte>, events: seq<P.Event>)
    reads memory, set t | t in q :: t.sc
  {
    && |events| == |q| == |gids|
    && forall i :: 0 <= i < |q| ==>
         InMemory(memory.Length, q[i].sc.segs)
         && events[i] == P.Done(gids[i], q[i].sc.result, Gather(memory[..], q[i].sc.segs))
  }

  lemma EventsMatch(w: P.World, w': P.World, v: Q.Session, q: seq<Task>, memory: array<byte>)
    requires |q| == |v.queue| && |w'.log| == |w.log| + |q|
    requires forall i :: 0 <= i < |q| ==>
               && q[i].sc.result == DID_NO_CONNECT * 0x1_0000 && InMemory(memory.Length, q[i].sc.segs)
               && v.queue[i].gid < |w.reqs| && w.reqs[v.queue[i].gid].payload == Gather(memory[..], q[i].sc.segs)
               && w'.log[|w.log| + i] ==
                  P.Done(v.queue[i].gid, DID_NO_CONNECT * 0x1_0000, w.reqs[v.queue[i].gid].payload)
    ensures HandedBackAs(q, F.Gids(v.queue), memory, w'.log[|w.log|..])
  {
    hide Gather;
  }

  /** SCSITAP_IOCTL_UNREGISTER_CLIENT. */
  method Unregister(ss: R.Sessions, minor: nat, memory: array<byte>, ghost s: Session?, ghost w: P.World)
    returns (ret: int, ghost s': Session?, ghost w': P.World)
    requires I.Safe(w) && Serves(w, ss, minor, s, memory)
    modifies ss, ss.sessions, set x, t | x in ss.sessions && t in x.queue :: t.sc
    ensures P.Shaped(w) && P.Enabled(w, P.Unregister) && w' == P.Next(w, P.Unregister)
    ensures Serves(w', ss, minor, s', memory) && (s' == null || s' == s)
    ensures ret == SUCCESS <==> s != null && s' == null
    ensures ret != SUCCESS ==> w' == w
    ensures ret == SUCCESS ==>
              && s.handed == old(s.handed) + Commands(old(s.queue))
              && w.log <= w'.log && |w.sess.value.queue| == |old(s.queue)|
              && HandedBackAs(old(s.queue), F.Gids(w.sess.value.queue), memory, w'.log[|w.log|..])
  {
    hide HandedBackAs, TellsNotReady, AllSane, F.Gids, I.Safe, Session.Linked, Session.Flagged, Views, Sane,
      T.StandsFor, P.NextUnregister, Gather, T.SameTask;
    SafeShaped(w);
    UnregisterOutcome(w);
    w' := P.NextUnregister(w);
    ghost var v, q := if s == null then Q.NewSession(0) else s.View(), if s == null then [] else s.queue;
    if s != null {
      StandsFacts(w, v, q, memory[..]);
      forall i | 0 <= i < |q| ensures v.queue[i].gid < |w.reqs| && InMemory(memory.Length, q[i].sc.segs)
        && w.reqs[v.queue[i].gid].payload == Gather(memory[..], q[i].sc.segs)
      {
        SameHeader(w, v, q, memory[..], i, TYPE_C);
      }
    }
    if s != null {
      SaneIs(s, memory.Length);
      OneOfMinor(ss, s);
    }
    ret := ss.Unregister(minor);
    s' := if ret == SUCCESS then null else s;
    if ret == SUCCESS {
      forall i | 0 <= i < |q| ensures q[i].sc.result == DID_NO_CONNECT * 0x1_0000 {
        assert q[i] in q;
      }
      EventsMatch(w, w', v, q, memory);
    }
    if s' != null {
      SaneIs(s', memory.Length);
    }
  }

  lemma OneOfMinor(ss: R.Sessions, s: Session)
    requires ss.Valid() && s in ss.sessions
    ensures var rest := Q.Without(ss.sessions, Position(ss.sessions, s));
            forall x :: x in rest ==> x.devId != s.devId
  {
    hide Session.Valid;
    var i := Position(ss.sessions, s);
    var rest := Q.Without(ss.sessions, i);
    forall x | x in rest ensures x.devId != s.devId {
      var k :| 0 <= k < |rest| && rest[k] == x;
      assert x == ss.sessions[if k < i then k else k + 1];
    }
  }

  /** A new target opens the control device. */
  method Open(ss: R.Sessions, minor: nat, memory: array<byte>, f: nat, ghost s: Session?, ghost w: P.World)
    returns (file: CtlFile, task: UserScsiTask, ghost w': P.World)
    requires I.Safe(w) && Serves(w, ss, minor, s, memory) && f !in w.files
    ensures P.Shaped(w) && P.Enabled(w, P.Open(f)) && w' == P.Next(w, P.Open(f))
    ensures Serves(w', ss, minor, s, memory) && Acts(w', f, file, task, s) && w'.files[f].pc == P.Idle
    ensures fresh(file) && fresh(task) && fresh(task.cdb) && fresh(task.request_buffer) && file.minor == minor
    ensures file.privateData == null
  {
    hide I.Safe, Session.Linked, Session.Flagged, Views, Sane, T.StandsFor;
    SafeShaped(w);
    w' := P.Next(w, P.Open(f));
    if s != null {
      MirrorsStay(w, w', s.View(), s.queue, memory[..]);
    }
    file := new CtlFile(minor);
    task := new UserScsiTask(BUFFER_SIZE);
  }
}
