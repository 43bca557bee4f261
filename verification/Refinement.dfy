/**
 * The driver, the wire, the target loop and the disk engine together are an atomic block device: every steady step of the
 * protocol, with any number of targets, is one step of the device, or none.  A step is steady if it loses no unflushed
 * bytes and meets none of another target.
 */
module Refinement {
  import opened Bytes
  import opened Wire
  import opened Queue
  import opened Scsi
  import opened Engine
  import opened Protocol
  import opened Invariant
  import opened Steps
  import opened Order
  import opened Streams
  import opened BlockDevice

  function Gids(q: seq<Task>): (g: seq<nat>)
    ensures |g| == |q|
  {
    seq(|q|, i requires 0 <= i < |q| => q[i].gid)
  }

  /** The device a state stands for. */
  ghost function Abstract(w: World): Device {
    Device(Settled(w.luns, w.streams), w.reqs, Gids(QueueOf(w)), w.execs, w.log)
  }

  ghost predicate Refinable(w: World) {
    Inv(w) && NumbersRecent(w) && Sole(w.streams)
  }

  /** Where a target's command goes. */
  function LunFor(w: World, f: nat): (i: nat)
    requires f in w.files
    ensures i <= |w.luns|
  {
    FindLun(w.luns, TaskLun(w.files[f].task))
  }

  /** The command of target f makes it seek on its LUN file. */
  predicate SeeksNow(w: World, f: nat)
    requires f in w.files && |w.files[f].task.cdb| == 16
  {
    LunFor(w, f) < |w.luns| && Seeks(Decode(w.files[f].task.cdb), w.luns[LunFor(w, f)].mb)
  }

  /** The step kills no target that has unflushed bytes, unless its last seek still saves them. */
  ghost predicate NothingLost(w: World, l: Label)
    requires Shaped(w) && Enabled(w, l)
  {
    match l
    case Release(f) => Clean(w.streams, f)
    case Execute(f, _, _) => LunFor(w, f) == |w.luns| ==> Clean(w.streams, f)
    case Die(f, _, sought) => forall j :: Unflushed(w.streams, f, j) ==> sought && SeeksNow(w, f) && j == LunFor(w, f)
    case _ => true
  }

  /** And a command that goes to the disk finds no unflushed bytes of another target there, and nothing outdated in its
      own stream. */
  ghost predicate Steady(w: World, l: Label)
    requires Shaped(w) && Enabled(w, l)
  {
    && NothingLost(w, l)
    && match l
       case Execute(f, _, _) =>
         SeeksNow(w, f) ==> Mine(w.streams, f, LunFor(w, f)) && UpToDate(w.luns, w.streams, f, LunFor(w, f))
       case Die(f, _, sought) => sought && SeeksNow(w, f) ==> Mine(w.streams, f, LunFor(w, f))
       case _ => true
  }

  /** What the device runs is a command that some target holds. */
  ghost predicate RunsHeld(w: World, a: Action) {
    a.RunOne? ==> exists f :: f in w.files && Running(w.files[f]) && w.files[f].gid == a.e.gid
  }

  // ----- the steps that run a command

  /** What a target finds in its buffer when it runs a write is what the mid layer wants written. */
  lemma WriteData(file: File, r: Request, lba: nat, blocks: nat)
    requires |file.buffer| == BUFFER_SIZE && WellFormed(r) && Describes(file.task, r.cmd) && Running(file)
    requires file.pc == HasData ==> HasPayload(file, r)
    requires Decode(r.cmd.cdb) == Write(lba, blocks)
    requires DataOffset(file.task) + blocks * BLOCK <= BUFFER_SIZE
    ensures |r.payload| == blocks * BLOCK
    ensures file.buffer[DataOffset(file.task)..DataOffset(file.task) + blocks * BLOCK] == r.payload
  {
    if blocks == 0 {
      assert r.payload == [];
    } else {
      assert file.task.direction == DIR_OUT;
    }
  }

  /** The engine on the target's buffer has the effect and the reply that the device prescribes. */
  lemma EngineMatches(luns: seq<Lun>, file: File, r: Request, i: nat, ids: seq<byte>)
    requires |file.buffer| == BUFFER_SIZE && WellFormed(r) && Describes(file.task, r.cmd) && Running(file)
    requires file.task.bufflen == r.cmd.bufflen
    requires file.pc == HasData ==> file.task.direction == DIR_OUT && HasPayload(file, r)
    requires SizedAll(luns) && |ids| <= 256 && ids == Ids(luns) && i == LunOf(luns, r) && i < |luns|
    requires var op := Decode(r.cmd.cdb);
             !op.Other? && Fits(op, luns[i].mb, BUFFER_SIZE - DataOffset(file.task), file.task.bufflen)
    ensures var reply := Serve(luns[i], Decode(r.cmd.cdb), ids, file.buffer, DataOffset(file.task), file.task.bufflen);
            && luns[i := luns[i].(disk := reply.disk)] == Written(luns, r, |r.payload|)
            && COMPLETION_SIZE + file.task.bufflen <= BUFFER_SIZE
            && Reports(luns, r, reply.status, ReplyBytes(reply.buffer, ReplyLen(file.task)))
  {
    var op := Decode(r.cmd.cdb);
    var at := DataOffset(file.task);
    if op.Write? && InRange(luns[i].mb, op.lba, op.blocks) {
      WriteData(file, r, op.lba, op.blocks);
      assert r.payload[..|r.payload|] == r.payload;
    } else {
      assert luns[i].(disk := luns[i].disk) == luns[i];
      if op.Read? && InRange(luns[i].mb, op.lba, op.blocks) {
        ReadPlaced(file.buffer, at, Extent(luns[i].disk, op.lba, op.blocks));
        assert op.blocks == 0 || file.task.direction == DIR_IN;
      } else if op.ReadCapacity? {
        CapacityReply(file.buffer, at, |luns[i].disk|, ReplyLen(file.task));
      } else if op.ReportLuns? && op.alloc <= file.task.bufflen {
        LunsReply(file.buffer, at, ids, op.alloc, ReplyLen(file.task));
      }
    }
  }

  lemma CapacityReply(buffer: seq<byte>, at: nat, size: nat, len: nat)
    requires |buffer| == BUFFER_SIZE && at + 12 <= |buffer| && COMPLETION_SIZE + len <= |buffer|
    requires size <= MAX_MB * MIB && (at == COMPLETION_SIZE || len == 0)
    ensures TellsCapacity(ReplyBytes(Patch(buffer, at, CapacityData(size)), len), size)
  {
    hide CapacityData;
    var reply := ReplyBytes(Patch(buffer, at, CapacityData(size)), len);
    var n := Min(|reply|, 12);
    assert forall k :: 0 <= k < n ==> reply[k] == CapacityData(size)[k];
  }

  lemma LunsReply(buffer: seq<byte>, at: nat, ids: seq<byte>, alloc: nat, len: nat)
    requires |buffer| == BUFFER_SIZE && at <= |buffer| && COMPLETION_SIZE + len <= |buffer| && |ids| <= 256
    requires alloc < |buffer| - at && 8 <= |buffer| - at && (at == COMPLETION_SIZE || len == 0)
    ensures ListsLuns(ReplyBytes(buffer[..at] + ReportLunsData(buffer[at..], ids, alloc), len), ids, alloc)
  {
    hide ReportLunsData;
    var data := buffer[at..];
    var full := ReportLunsData(data, ids, alloc);
    var reply := ReplyBytes(buffer[..at] + full, len);
    assert reply == full[..len];
  }

  lemma ReadPlaced(buffer: seq<byte>, at: nat, bytes: seq<byte>)
    requires at + |bytes| <= |buffer|
    ensures Patch(buffer, at, bytes)[at..at + |bytes|] == bytes
  {
  }

  /** A run with this outcome is one run of the device. */
  lemma FinishRefines(w: World, f: nat, r: Reply, luns: seq<Lun>, streams: StreamMap) returns (a: Action)
    requires Refinable(w) && f in w.files && Running(w.files[f])
    requires |r.buffer| == BUFFER_SIZE && COMPLETION_SIZE + w.files[f].task.bufflen <= BUFFER_SIZE
    requires SizedAll(Settled(w.luns, w.streams)) && w.files[f].gid < |w.reqs| && WellFormed(w.reqs[w.files[f].gid])
    requires var q, settled := w.reqs[w.files[f].gid], Settled(w.luns, w.streams);
             && Settled(luns, streams) == Written(settled, q, |q.payload|)
             && Reports(settled, q, r.status, ReplyBytes(r.buffer, ReplyLen(w.files[f].task)))
    ensures Step(Abstract(w), a, Abstract(Finish(w, f, r, luns, streams))) && RunsHeld(w, a)
    ensures Finish(w, f, r, luns, streams).streams == streams
  {
    hide Inv, WellFormed, Written, Reports, Settled;
    var file := HeldRequest(w, f);
    ShapedDevice(w);
    a := RunOne(Ran(file.gid, r.status, ReplyBytes(r.buffer, ReplyLen(file.task))));
  }

  lemma ShapedDevice(w: World)
    requires Shaped(w)
    ensures SizedAll(Settled(w.luns, w.streams)) && forall k :: 0 <= k < |w.reqs| ==> WellFormed(w.reqs[k])
  {
  }

  function ReplyLen(t: UserTask): uint32 {
    if t.direction == DIR_OUT then 0 else t.bufflen
  }

  lemma ExecuteRefines(w: World, f: nat, canned: Canned, keep: Keep) returns (a: Action)
    requires Refinable(w) && Enabled(w, Execute(f, canned, keep)) && Steady(w, Execute(f, canned, keep))
    ensures Step(Abstract(w), a, Abstract(NextExecute(w, f, canned, keep))) && RunsHeld(w, a)
    ensures Sole(NextExecute(w, f, canned, keep).streams)
  {
    hide Inv, NumbersRecent, Describes, Decode, Serve, Fits, WellFormed, Written, Reports, FindLun, Finish, AfterRun,
      Seen, Seeks, Settled, Sole, Mine, UpToDate, Clean, Step, HasPayload, SizedAll;
    InvShape(w);
    ShapedDevice(w);
    var file := HeldRequest(w, f);
    var r, i, settled := w.reqs[file.gid], LunFor(w, f), Settled(w.luns, w.streams);
    a := Stay;
    SettledLuns(w.luns, w.streams, TaskLun(file.task));
    LunSame(settled, file.task, r);
    if i < |w.luns| {
      TargetRunsCommand(file, r, w.luns[i].mb);
      var op, at := Decode(file.task.cdb), DataOffset(file.task);
      if op.Other? {
        var reply := Reply(canned.status, w.luns[i].disk, Patch(file.buffer, at, canned.data));
        OtherMatches(settled, r, canned.status, ReplyBytes(reply.buffer, ReplyLen(file.task)));
        a := FinishRefines(w, f, reply, w.luns, w.streams);
      } else {
        a := ServeRefines(w, f, keep);
      }
    } else {
      KilledClean(w.luns, w.streams, f);
      StayIsStep(w);
    }
  }

  /** A target is about to run a modelled command within its buffer. */
  ghost predicate Serving(w: World, f: nat) {
    && Shaped(w) && f in w.files && Running(w.files[f]) && LunFor(w, f) < |w.luns|
    && var file := w.files[f];
    var op, at := Decode(file.task.cdb), DataOffset(file.task);
    && !op.Other? && Fits(op, w.luns[LunFor(w, f)].mb, BUFFER_SIZE - at, file.task.bufflen)
    && COMPLETION_SIZE + file.task.bufflen <= BUFFER_SIZE
  }

  /** The state when it has. */
  ghost function Served(w: World, f: nat, keep: Keep): World
    requires Serving(w, f)
  {
    var file, i := w.files[f], LunFor(w, f);
    var op, at := Decode(file.task.cdb), DataOffset(file.task);
    var r := Serve(Seen(w.luns, w.streams, f, i), op, Ids(w.luns), file.buffer, at, file.task.bufflen);
    var after := AfterRun(w.luns, w.streams, f, i, op, DataOf(file.buffer, at, op), keep);
    Finish(w, f, r, w.luns[i := after.0], after.1)
  }

  /** A modelled command, against the settled disks. */
  lemma ServeRefines(w: World, f: nat, keep: Keep) returns (a: Action)
    requires Refinable(w) && Serving(w, f)
    requires Undisturbed(w.luns, w.streams, f, LunFor(w, f), Decode(w.files[f].task.cdb))
    ensures Step(Abstract(w), a, Abstract(Served(w, f, keep))) && RunsHeld(w, a) && Sole(Served(w, f, keep).streams)
  {
    hide Inv, NumbersRecent, Describes, Decode, Serve, Fits, WellFormed, Written, Reports, FindLun, Finish, AfterRun,
      Seen, Seeks, Settled, Sole, Undisturbed, Step, HasPayload, SizedAll;
    ShapedDevice(w);
    var file := HeldRequest(w, f);
    var i, settled := LunFor(w, f), Settled(w.luns, w.streams);
    var op, at, q := Decode(file.task.cdb), DataOffset(file.task), w.reqs[file.gid];
    TargetRunsCommand(file, q, w.luns[i].mb);
    SettledLuns(w.luns, w.streams, TaskLun(file.task));
    LunSame(settled, file.task, q);
    RunSettles(w.luns, w.streams, f, i, op, Ids(w.luns), file.buffer, at, file.task.bufflen, keep);
    EngineMatches(settled, file, q, i, Ids(w.luns));
    var r := Serve(Seen(w.luns, w.streams, f, i), op, Ids(w.luns), file.buffer, at, file.task.bufflen);
    var after := AfterRun(w.luns, w.streams, f, i, op, DataOf(file.buffer, at, op), keep);
    a := FinishRefines(w, f, r, w.luns[i := after.0], after.1);
  }

  /** Settling changes no number of a LUN. */
  lemma SettledLuns(luns: seq<Lun>, streams: StreamMap, id: byte)
    ensures Ids(Settled(luns, streams)) == Ids(luns) && FindLun(Settled(luns, streams), id) == FindLun(luns, id)
  {
    SameIds(luns, Settled(luns, streams), id);
  }

  lemma LunSame(luns: seq<Lun>, t: UserTask, r: Request)
    requires Describes(t, r.cmd)
    ensures FindLun(luns, TaskLun(t)) == LunOf(luns, r)
  {
  }

  lemma OtherMatches(luns: seq<Lun>, r: Request, status: byte, reply: seq<byte>)
    requires SizedAll(luns) && WellFormed(r) && Decode(r.cmd.cdb).Other? && LunOf(luns, r) < |luns|
    requires |reply| == if r.cmd.toDevice then 0 else r.cmd.bufflen
    ensures Written(luns, r, |r.payload|) == luns
    ensures Reports(luns, r, status, reply)
  {
  }

  /** A target that is killed in a run leaves the device as after a write of some first bytes. */
  lemma DieRefines(w: World, f: nat, written: nat, sought: bool) returns (a: Action)
    requires Refinable(w) && Enabled(w, Die(f, written, sought)) && Steady(w, Die(f, written, sought))
    ensures Step(Abstract(w), a, Abstract(NextDie(w, f, written, sought))) && RunsHeld(w, a)
    ensures Sole(NextDie(w, f, written, sought).streams)
  {
    hide Inv, NumbersRecent, Describes, Decode, WellFormed, FindLun, Written, Reports, Settled, Sole, Mine, Patch,
      WriteExtent, Seeks, HasPayload, SizedAll, FlushedAt, Unflushed;
    InvShape(w);
    ShapedDevice(w);
    var file := HeldRequest(w, f);
    var r, i, settled := w.reqs[file.gid], LunFor(w, f), Settled(w.luns, w.streams);
    if sought && SeeksNow(w, f) && Decode(file.task.cdb).Write? {
      a := DieWriting(w, f, written);
    } else {
      NothingWritten(settled, r);
      a := RunOne(Torn(file.gid, 0));
      if sought && SeeksNow(w, f) {
        var own := FlushedAt(w.luns, w.streams, f, i);
        SettledBy(w.luns, w.streams, f, i);
        KilledAfterSeek(w.luns, w.streams, f, i, own);
        assert settled[i := own] == settled;
      } else {
        assert Clean(w.streams, f);
        KilledClean(w.luns, w.streams, f);
      }
    }
  }

  lemma DieWriting(w: World, f: nat, written: nat) returns (a: Action)
    requires Refinable(w) && Enabled(w, Die(f, written, true)) && Steady(w, Die(f, written, true))
    requires SeeksNow(w, f) && Decode(w.files[f].task.cdb).Write?
    ensures Step(Abstract(w), a, Abstract(NextDie(w, f, written, true))) && RunsHeld(w, a)
    ensures Sole(NextDie(w, f, written, true).streams)
  {
    hide Inv, NumbersRecent, Describes, Decode, WellFormed, FindLun, Written, Reports, Settled, Sole, Mine, Patch,
      WriteExtent, HasPayload, FlushedAt, Unflushed;
    InvShape(w);
    ShapedDevice(w);
    var file := HeldRequest(w, f);
    var r, i, settled := w.reqs[file.gid], LunFor(w, f), Settled(w.luns, w.streams);
    CommandFits(r);
    SettledLuns(w.luns, w.streams, TaskLun(file.task));
    LunSame(settled, file.task, r);
    TargetRunsCommand(file, r, 0);
    var op, at := Decode(r.cmd.cdb), DataOffset(file.task);
    var n := Min(written, op.blocks * BLOCK);
    var own := FlushedAt(w.luns, w.streams, f, i);
    SettledBy(w.luns, w.streams, f, i);
    KilledAfterSeek(w.luns, w.streams, f, i, own.(disk := WriteExtent(own.disk, op.lba, file.buffer[at..at + n])));
    TornMatches(settled, file, r, i, n);
    a := RunOne(Torn(file.gid, n));
  }

  /** A kill can leave any number n of first bytes of the payload in the file, over what the seek has flushed. */
  lemma KilledAnywhere(w: World, f: nat, i: nat, n: nat)
    requires Inv(w) && NumbersRecent(w) && f in w.files && Running(w.files[f]) && w.files[f].gid < |w.reqs|
    requires var r := w.reqs[w.files[f].gid];
             var op := Decode(r.cmd.cdb);
             && i == FindLun(w.luns, r.cmd.lun % 256) < |w.luns|
             && op.Write? && op.blocks > 0 && n <= 512 * op.blocks
             && 512 * (op.lba + op.blocks) <= 1048576 * w.luns[i].mb
    ensures Shaped(w) && Enabled(w, Die(f, n, true))
    ensures var w', r := NextDie(w, f, n, true), w.reqs[w.files[f].gid];
            var op, own := Decode(r.cmd.cdb), FlushedAt(w.luns, w.streams, f, i);
            && f in w'.files && w'.files[f].pc == Exited && (forall k :: k in w'.streams ==> k.0 != f)
            && w'.execs == w.execs + [Torn(w.files[f].gid, n)]
            && |w'.luns| == |w.luns| && (forall j :: 0 <= j < |w.luns| && j != i ==> w'.luns[j] == w.luns[j])
            && |w'.luns[i].disk| == |own.disk| && |r.payload| == 512 * op.blocks
            && forall p :: 0 <= p < |own.disk| ==>
                 w'.luns[i].disk[p] ==
                 if 512 * op.lba <= p < 512 * op.lba + n then r.payload[p - 512 * op.lba] else own.disk[p]
  {
    hide Inv, NumbersRecent, Describes, Decode, WellFormed, FindLun, FlushedAt, HasPayload, Remembered;
    var file := HeldRequest(w, f);
    var r := w.reqs[file.gid];
    CommandFits(r);
    LunSame(w.luns, file.task, r);
    TargetRunsCommand(file, r, 0);
    var op, at := Decode(r.cmd.cdb), DataOffset(file.task);
    WriteHeld(file, r);
    FirstBytes(file.buffer, at, 512 * op.blocks, n, r.payload);
  }

  lemma FirstBytes(buffer: seq<byte>, at: nat, len: nat, n: nat, payload: seq<byte>)
    requires at + len <= |buffer| && n <= len && buffer[at..at + len] == payload
    ensures buffer[at..at + n] == payload[..n]
  {
  }

  /** A target that is about to run a write has its payload in place. */
  lemma WriteHeld(file: File, r: Request)
    requires |file.buffer| == BUFFER_SIZE && WellFormed(r) && Describes(file.task, r.cmd) && Decode(r.cmd.cdb).Write?
    requires Running(file) && Decode(r.cmd.cdb).blocks > 0
    requires file.pc == HasData ==> file.task.direction == DIR_OUT && HasPayload(file, r)
    ensures var op, at := Decode(r.cmd.cdb), DataOffset(file.task);
            && at + 512 * op.blocks <= BUFFER_SIZE && |r.payload| == 512 * op.blocks
            && file.buffer[at..at + 512 * op.blocks] == r.payload
  {
  }

  lemma InvShape(w: World)
    requires Inv(w)
    ensures Shaped(w) && Lifetime(w)
  {
  }

  /** The file of a target that is about to run, with what is known of it. */
  lemma HeldRequest(w: World, f: nat) returns (file: File)
    requires Inv(w) && NumbersRecent(w) && f in w.files && Running(w.files[f])
    ensures file == w.files[f] && file.private.Some? && Shaped(w) && Lifetime(w)
    ensures file.gid < |w.reqs| && WellFormed(w.reqs[file.gid])
    ensures Describes(file.task, w.reqs[file.gid].cmd) && file.task.bufflen == w.reqs[file.gid].cmd.bufflen
    ensures |file.buffer| == BUFFER_SIZE
    ensures ReplyLen(file.task) == if w.reqs[file.gid].cmd.toDevice then 0 else file.task.bufflen
    ensures file.pc == HasData ==> file.task.direction == DIR_OUT && HasPayload(file, w.reqs[file.gid])
  {
    hide NumOf, IndexOfNum, Pointers, Accounted, ExecsClaimed, HeadersInOrder, QueueOk, WellFormed, HasPayload;
    HeldFacts(w, f);
    ClaimedByHolder(w, f);
    assert HeldInOrder(QueueOf(w), w.reqs, w.files[f]);
    file := w.files[f];
  }

  /** What reaches the disk of an interrupted write is the beginning of what the mid layer wants written. */
  lemma TornMatches(luns: seq<Lun>, file: File, r: Request, i: nat, n: nat)
    requires |file.buffer| == BUFFER_SIZE && WellFormed(r) && Describes(file.task, r.cmd) && Running(file)
    requires file.pc == HasData ==> HasPayload(file, r)
    requires SizedAll(luns) && i == LunOf(luns, r) && i < |luns|
    requires var op := Decode(r.cmd.cdb);
             && op.Write? && InRange(luns[i].mb, op.lba, op.blocks) && n <= op.blocks * BLOCK
             && DataOffset(file.task) + op.blocks * BLOCK <= BUFFER_SIZE
    ensures var op, at := Decode(r.cmd.cdb), DataOffset(file.task);
            luns[i := luns[i].(disk := WriteExtent(luns[i].disk, op.lba, file.buffer[at..at + n]))] == Written(luns, r, n)
  {
    var op, at := Decode(r.cmd.cdb), DataOffset(file.task);
    WriteData(file, r, op.lba, op.blocks);
    PrefixOfSlice(file.buffer, at, op.blocks * BLOCK, n);
  }

  lemma PrefixOfSlice(s: seq<byte>, at: nat, len: nat, n: nat)
    requires n <= len && at + len <= |s|
    ensures s[at..at + n] == s[at..at + len][..n]
  {
  }

  lemma NothingWritten(luns: seq<Lun>, r: Request)
    requires SizedAll(luns) && WellFormed(r)
    ensures Written(luns, r, 0) == luns
  {
    var op, i := Decode(r.cmd.cdb), LunOf(luns, r);
    if op.Write? && i < |luns| && InRange(luns[i].mb, op.lba, op.blocks) {
      PatchSame(luns[i].disk, op.lba * BLOCK, 0);
      assert r.payload[..0] == luns[i].disk[op.lba * BLOCK..op.lba * BLOCK + 0];
      assert luns[i].(disk := luns[i].disk) == luns[i];
    }
  }

  // ----- the steps that hand a command back

  lemma GidsWithout(q: seq<Task>, i: nat)
    requires i < |q|
    ensures Remaining(Gids(q), Gids(Without(q, i)), q[i].gid)
  {
    assert Gids(q)[i] == q[i].gid;
    assert Gids(Without(q, i)) == Gids(q)[..i] + Gids(q)[i + 1..];
  }

  lemma CompleteRefines(w: World, f: nat) returns (a: Action)
    requires Refinable(w) && Enabled(w, Complete(f))
    ensures Step(Abstract(w), a, Abstract(NextComplete(w, f))) && !a.RunOne?
    ensures NextComplete(w, f).streams == w.streams
  {
    hide InOrder, Pointers, Accounted, HeadersInOrder, NumOf, IndexOfNum, QueueOk, Describes, WellFormed, Completion,
      CompletedNum, Patch, ClaimedBefore, Settled, Sole, StreamsOk;
    InvShape(w);
    HeldFacts(w, f);
    OwnNumber(w, f);
    var file := w.files[f];
    var q := w.sess.value.queue;
    var r := w.reqs[file.gid];
    CompletionRoundTrip(file.buffer, file.task.num, file.status, file.task.bufflen);
    var i := IndexOfNum(q, file.task.num);
    a := Stay;
    if i < |q| {
      CommandFits(r);
      GidsWithout(q, i);
      assert file.task.bufflen > 0 ==> file.task.bufflen == r.cmd.bufflen;
      a := Answer(file.status, ReplyBytes(file.buffer, file.task.bufflen), file.gid);
    }
  }

  lemma AbortRefines(w: World, sc: nat) returns (a: Action)
    requires Refinable(w) && w.sess.Some?
    ensures Step(Abstract(w), a, Abstract(NextAbort(w, sc))) && !a.RunOne?
  {
    hide Pointers, QueueOk, Accounted, Holders, InOrder, HeadersInOrder, WellFormed, IndexOfTask, Settled, Sole,
      StreamsOk;
    a := Stay;
    if sc in w.ptr {
      var q := w.sess.value.queue;
      PendingTask(q, w.ptr, w.reqs, sc);
      GidsWithout(q, IndexOfTask(q, w.ptr[sc]));
      a := Drop(w.ptr[sc]);
    }
  }

  lemma SubmitRefines(w: World, req: Request, slot: bool) returns (a: Action)
    requires Refinable(w) && Enabled(w, Submit(req, slot))
    ensures Step(Abstract(w), a, Abstract(NextSubmit(w, req, slot))) && !a.RunOne?
  {
    hide Settled, Sole, InOrder, StreamsOk, Pointers, QueueOk, Accounted, Holders, HeadersInOrder;
    a := if w.sess.value.ready && slot then Issue(req) else Stay;
    if a.Issue? {
      var q := w.sess.value.queue;
      assert Gids(Accept(w.sess.value, |w.reqs|, req.sc).queue) == Gids(q) + [|w.reqs|];
    }
  }

  lemma EmptyingRefines(w: World)
    requires Refinable(w) && w.sess.Some?
    ensures Step(Abstract(w), DropPending, Abstract(Next(w, Reset)))
    ensures NextUnregister(w) != w ==> Step(Abstract(w), Disconnect, Abstract(NextUnregister(w)))
  {
    hide QueueOk, Pointers, Accounted, HoldOk, HeadersInOrder, InOrder, WellFormed, Settled, Sole, StreamsOk;
    var q, d := w.sess.value.queue, Abstract(w);
    assert Gids([]) == [];
    assert DropAll(q) == seq(|q|, i requires 0 <= i < |q| => Dropped(d.pending[i]));
    assert DisconnectAll(q, w.reqs)
        == seq(|q|, i requires 0 <= i < |q| =>
               Done(d.pending[i], DID_NO_CONNECT * 0x1_0000, d.issued[d.pending[i]].payload));
  }

  lemma UnregisterRefines(w: World) returns (a: Action)
    requires Refinable(w)
    ensures Step(Abstract(w), a, Abstract(NextUnregister(w))) && !a.RunOne?
  {
    hide QueueOk, Pointers, Accounted, HoldOk, HeadersInOrder, InOrder, WellFormed, LeaveAll, DisconnectAll, Settled,
      Sole, StreamsOk;
    a := Stay;
    if w.sess.Some? && w.sess.value.open == 0 && NextUnregister(w) != w {
      EmptyingRefines(w);
      a := Disconnect;
    }
  }

  // ----- the steps that the device does not see

  lemma ReadHeaderHidden(w: World, f: nat)
    requires Refinable(w) && Enabled(w, ReadHeader(f))
    ensures Abstract(NextReadHeader(w, f)) == Abstract(w) && Sole(NextReadHeader(w, f).streams)
  {
    hide Inv, NumOf, Header, ParseHeader, WellFormed, FirstSubmitted, Settled, Sole, Flushed, WithoutStreams;
    InvShape(w);
    ExitSettles(w.luns, w.streams, f);
  }

  lemma ClaimHidden(w: World, f: nat)
    requires Refinable(w) && Enabled(w, ClaimTask(f))
    ensures Abstract(NextClaim(w, f)) == Abstract(w) && NextClaim(w, f).streams == w.streams
  {
    hide Inv, NumbersRecent, IndexOfNum, Settled;
    HeldIsUsable(w, f);
    assert Gids(Claim(w.sess.value, w.files[f].task.num).queue) == Gids(w.sess.value.queue);
  }

  lemma HeldIsUsable(w: World, f: nat)
    requires Inv(w) && f in w.files && Holding(w.files[f].pc)
    ensures Usable(w, w.files[f])
  {
    HeldFacts(w, f);
  }

  lemma FetchHidden(w: World, f: nat)
    requires Refinable(w) && Enabled(w, Fetch(f))
    ensures Abstract(NextFetch(w, f)) == Abstract(w) && Sole(NextFetch(w, f).streams)
  {
    hide Inv, NumOf, IndexOfNum, FirstSubmitted, WellFormed, Header, Patch, Settled, Sole, Flushed, WithoutStreams;
    InvShape(w);
    ExitSettles(w.luns, w.streams, f);
  }

  /** Opening, registering and closing are invisible to the device. */
  lemma AttachmentHidden(w: World, l: Label)
    requires Refinable(w) && Enabled(w, l) && NothingLost(w, l)
    requires l.Open? || l.Register? || l.Release?
    ensures Abstract(Next(w, l)) == Abstract(w) && Sole(Next(w, l).streams)
  {
    hide Pointers, Accounted, QueueOk, HoldOk, WellFormed, InOrder, HeadersInOrder, Settled, Sole, WithoutStreams,
      Clean, StreamsOk, NumbersRecent, Shaped;
    if l.Release? {
      KilledClean(w.luns, w.streams, l.f);
    }
  }

  lemma StayIsStep(w: World)
    requires Refinable(w)
    ensures Step(Abstract(w), Stay, Abstract(w))
  {
  }

  // ----- every step

  /** Every steady step of the protocol, with any number of targets, is a step of the atomic block device. */
  lemma StepRefines(w: World, l: Label) returns (a: Action)
    requires Refinable(w) && Enabled(w, l) && Steady(w, l)
    ensures Step(Abstract(w), a, Abstract(Next(w, l))) && RunsHeld(w, a)
    ensures Sole(Next(w, l).streams)
  {
    hide Inv, NumbersRecent, Abstract, Step, Sole, Shaped;
    hide NextRegister, NextRelease, NextUnregister, NextSubmit, NextAbort, NextReadHeader, NextClaim, NextFetch,
      NextExecute, NextDie, NextComplete, Drained, LeaveAll;
    a := Stay;
    StayIsStep(w);
    InvShape(w);
    match l
    case Open(f) => AttachmentHidden(w, l);
    case Register(f, hostAdded) => AttachmentHidden(w, l);
    case Release(f) => AttachmentHidden(w, l);
    case Unregister => a := UnregisterRefines(w); MidLayerStreams(w, l);
    case Submit(req, slot) => a := SubmitRefines(w, req, slot); MidLayerStreams(w, l);
    case Abort(sc) => a := AbortRefines(w, sc); MidLayerStreams(w, l);
    case Reset => EmptyingRefines(w); a := DropPending; MidLayerStreams(w, l);
    case ReadHeader(f) => ReadHeaderHidden(w, f);
    case ClaimTask(f) => ClaimHidden(w, f);
    case Fetch(f) => FetchHidden(w, f);
    case Execute(f, canned, keep) => a := ExecuteRefines(w, f, canned, keep);
    case Die(f, written, sought) => a := DieRefines(w, f, written, sought);
    case Complete(f) => a := CompleteRefines(w, f);
  }

  lemma MidLayerStreams(w: World, l: Label)
    requires Shaped(w) && Enabled(w, l) && (l.Unregister? || l.Submit? || l.Abort? || l.Reset?)
    ensures Next(w, l).streams == w.streams && Next(w, l).luns == w.luns && Next(w, l).execs == w.execs
    ensures Next(w, l).files == w.files
  {
    hide Shaped, IndexOfTask;
  }
}
