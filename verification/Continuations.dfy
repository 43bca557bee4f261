/** How a run in which a target is idle and a command waits can go on: the target reads the header, claims, fetches
    and runs. */
module Continuations {
  import opened Bytes
  import opened Wire
  import opened Queue
  import opened Scsi
  import opened Engine
  import opened Protocol
  import opened Invariant
  import opened Steps
  import opened Order

  /** Target f holds command gid with its loop at pc. */
  ghost predicate Holds(w: World, f: nat, gid: nat, pc: Pc) {
    f in w.files && w.files[f].private.Some? && w.files[f].gid == gid && w.files[f].pc == pc
  }

  /** A step of target f has changed nothing but f, the flags of queued tasks, disks and streams, and the logs of headers
      and runs. */
  ghost predicate OnlyTarget(w: World, f: nat, w': World) {
    && f in w.files && f in w'.files && w'.files == w.files[f := w'.files[f]]
    && w'.reqs == w.reqs && w'.regs == w.regs && w'.log == w.log && w.sess.Some? && w'.sess.Some?
    && w'.sess.value.base == w.sess.value.base && |w'.sess.value.queue| == |w.sess.value.queue|
    && (forall i :: 0 <= i < |w.sess.value.queue| ==> w'.sess.value.queue[i].gid == w.sess.value.queue[i].gid)
    && |w'.luns| == |w.luns| && (forall i :: 0 <= i < |w.luns| ==> w'.luns[i].id == w.luns[i].id)
  }

  lemma StillRecent(w: World, f: nat, w': World)
    requires NumbersRecent(w) && OnlyTarget(w, f, w')
    requires Holding(w'.files[f].pc) ==> InQueue(w.sess.value.queue, w'.files[f].gid)
    ensures NumbersRecent(w')
  {
  }

  /** The oldest unclaimed command goes to an idle target and stays unclaimed. */
  lemma Reads(w: World, f: nat)
    requires Inv(w) && NumbersRecent(w) && w.sess.Some?
    requires f in w.files && w.files[f].private.Some? && w.files[f].pc == Idle
    requires FirstSubmitted(w.sess.value.queue) < |w.sess.value.queue|
    ensures Enabled(w, ReadHeader(f))
    ensures var w', q := NextReadHeader(w, f), w.sess.value.queue;
            && Inv(w') && NumbersRecent(w') && OnlyTarget(w, f, w') && w'.sess == w.sess && w'.execs == w.execs
            && w'.luns == w.luns && w'.streams == w.streams
            && Holds(w', f, q[FirstSubmitted(q)].gid, HasHeader)
  {
    hide Lifetime, Pointers, Accounted, Holders, HeadersInOrder, InOrder, QueueOk, NumOf, WellFormed, Header,
      ParseHeader, StreamsOk, Flushed, WithoutStreams;
    AttachedIsUsable(w, f);
    ReadHeaderKeeps(w, f);
    ReadHeaderInOrder(w, f);
    StillRecent(w, f, NextReadHeader(w, f));
  }

  lemma Claims(w: World, f: nat, gid: nat)
    requires Inv(w) && NumbersRecent(w) && Holds(w, f, gid, HasHeader) && InQueue(QueueOf(w), gid)
    ensures var w' := NextClaim(w, f);
            && Inv(w') && NumbersRecent(w') && OnlyTarget(w, f, w') && w'.execs == w.execs && Holds(w', f, gid, Claimed)
            && w'.luns == w.luns && w'.streams == w.streams
  {
    hide Lifetime, Pointers, Accounted, HeadersInOrder, InOrder, QueueOk, NumOf, WellFormed, IndexOfNum, HoldOk,
      StreamsOk, Flushed, WithoutStreams;
    AttachedIsUsable(w, f);
    ClaimKeeps(w, f);
    ClaimInOrder(w, f);
    StillRecent(w, f, NextClaim(w, f));
  }

  lemma Fetches(w: World, f: nat, gid: nat)
    requires Inv(w) && NumbersRecent(w) && Holds(w, f, gid, Claimed) && InQueue(QueueOf(w), gid)
    requires gid < |w.reqs| && w.reqs[gid].cmd.toDevice && w.reqs[gid].cmd.bufflen > 0
    ensures Enabled(w, Fetch(f))
    ensures var w' := NextFetch(w, f);
            && Inv(w') && NumbersRecent(w') && OnlyTarget(w, f, w') && w'.execs == w.execs && Holds(w', f, gid, HasData)
            && w'.luns == w.luns && w'.streams == w.streams
  {
    hide Lifetime, Pointers, Accounted, HeadersInOrder, QueueOk, NumOf, IndexOfNum, WellFormed, Header, StreamsOk,
      ClaimedBefore, Flushed, WithoutStreams, HasPayload, Fifo, ExecsClaimed;
    HeldFacts(w, f);
    OwnNumber(w, f);
    FetchKeeps(w, f);
    FetchInOrder(w, f);
    CommandFits(w.reqs[gid]);
    ClaimedByHolder(w, f);
    StillRecent(w, f, NextFetch(w, f));
  }

  lemma Finishes(w: World, f: nat, r: Reply, luns: seq<Lun>, streams: map<(nat, nat), Stream>, gid: nat)
    requires w.sess.Some? && f in w.files && w.files[f].private.Some? && w.files[f].gid == gid && |r.buffer| == BUFFER_SIZE
    requires COMPLETION_SIZE + w.files[f].task.bufflen <= BUFFER_SIZE
    requires |luns| == |w.luns| && forall i :: 0 <= i < |luns| ==> luns[i].id == w.luns[i].id
    ensures var w' := Finish(w, f, r, luns, streams);
            && OnlyTarget(w, f, w') && Holds(w', f, gid, Executed) && w'.files[f].status == r.status
            && w'.files[f].task.num == w.files[f].task.num
            && w'.luns == luns && w'.streams == streams
            && |w'.execs| == |w.execs| + 1 && w.execs <= w'.execs
            && w'.execs[|w.execs|].Ran? && w'.execs[|w.execs|].gid == gid && w'.execs[|w.execs|].status == r.status
  {
    hide ReplyBytes;
  }

  /** What a run of a modelled command does: the reply as the target sees the disk, and the file and stream after it. */
  lemma Serves(w: World, f: nat, gid: nat, canned: Canned, keep: Keep)
    requires Inv(w) && NumbersRecent(w) && |canned.data| <= MAX_TRANSFER && InQueue(QueueOf(w), gid) && gid < |w.reqs|
    requires Holds(w, f, gid, if w.reqs[gid].cmd.toDevice then HasData else Claimed)
    requires FindLun(w.luns, w.reqs[gid].cmd.lun % 256) < |w.luns|
    ensures Enabled(w, Execute(f, canned, keep))
    ensures var w', op := NextExecute(w, f, canned, keep), Decode(w.reqs[gid].cmd.cdb);
            && OnlyTarget(w, f, w') && Holds(w', f, gid, Executed)
            && |w'.execs| == |w.execs| + 1 && w.execs <= w'.execs
            && w'.execs[|w.execs|].Ran? && w'.execs[|w.execs|].gid == gid
            && w'.execs[|w.execs|].status == w'.files[f].status
    ensures var w', op, i := NextExecute(w, f, canned, keep), Decode(w.reqs[gid].cmd.cdb),
              FindLun(w.luns, w.reqs[gid].cmd.lun % 256);
            op.Write? && InRange(w.luns[i].mb, op.lba, op.blocks) ==>
              && |w.reqs[gid].payload| == op.blocks * BLOCK && w'.files[f].status == GOOD
              && var after := AfterRun(w.luns, w.streams, f, i, op, w.reqs[gid].payload, keep);
              w'.luns == w.luns[i := after.0] && w'.streams == after.1
  {
    hide Lifetime, Pointers, Accounted, HeadersInOrder, ExecsClaimed, QueueOk, NumOf, IndexOfNum, WellFormed, Serve,
      Decode, Fits, ClaimedBefore, ClaimedUpTo, Finish, NumbersRecent, OnlyTarget, StreamsOk, AfterRun, HasPayload,
      Fifo, Seen;
    HeldFacts(w, f);
    ClaimedByHolder(w, f);
    assert HeldInOrder(QueueOf(w), w.reqs, w.files[f]);
    var file := w.files[f];
    var i := FindLun(w.luns, TaskLun(file.task));
    TargetRunsCommand(file, w.reqs[gid], w.luns[i].mb);
    var op, at := Decode(file.task.cdb), DataOffset(file.task);
    if op.Other? {
      Finishes(w, f, Reply(canned.status, w.luns[i].disk, Patch(file.buffer, at, canned.data)), w.luns, w.streams, gid);
    } else {
      RoomForWrite(op, w.luns[i].mb, file.buffer, at, file.task.bufflen);
      var r := Serve(Seen(w.luns, w.streams, f, i), op, Ids(w.luns), file.buffer, at, file.task.bufflen);
      var after := AfterRun(w.luns, w.streams, f, i, op, DataOf(file.buffer, at, op), keep);
      Finishes(w, f, r, w.luns[i := after.0], after.1, gid);
      if op.Write? && InRange(w.luns[i].mb, op.lba, op.blocks) {
        WriteIsPayload(file, w.reqs[gid], op);
        GoodWrite(Seen(w.luns, w.streams, f, i), op, Ids(w.luns), file.buffer, at, file.task.bufflen);
      }
    }
  }

  /** The bytes a write takes from the request buffer are what the mid layer wants written. */
  lemma WriteIsPayload(file: File, r: Request, op: Op)
    requires |file.buffer| == BUFFER_SIZE && WellFormed(r) && Describes(file.task, r.cmd)
    requires op == Decode(r.cmd.cdb) && op.Write?
    requires file.pc == if r.cmd.toDevice then HasData else Claimed
    requires file.pc == HasData ==> HasPayload(file, r)
    ensures |r.payload| == op.blocks * BLOCK
    ensures DataOffset(file.task) + op.blocks * BLOCK <= BUFFER_SIZE
    ensures DataOf(file.buffer, DataOffset(file.task), op) == r.payload
  {
  }

  lemma GoodWrite(l: Lun, op: Op, ids: seq<byte>, buffer: seq<byte>, at: nat, size: nat)
    requires l.Sized() && |ids| <= 256 && op.Write? && at <= |buffer| && Fits(op, l.mb, |buffer| - at, size)
    requires InRange(l.mb, op.lba, op.blocks)
    ensures Serve(l, op, ids, buffer, at, size).status == GOOD
  {
  }

  lemma Executes(w: World, f: nat, gid: nat, canned: Canned, keep: Keep)
    requires Inv(w) && NumbersRecent(w) && |canned.data| <= MAX_TRANSFER && InQueue(QueueOf(w), gid) && gid < |w.reqs|
    requires Holds(w, f, gid, if w.reqs[gid].cmd.toDevice then HasData else Claimed)
    requires FindLun(w.luns, w.reqs[gid].cmd.lun % 256) < |w.luns|
    ensures Enabled(w, Execute(f, canned, keep))
    ensures Inv(NextExecute(w, f, canned, keep)) && NumbersRecent(NextExecute(w, f, canned, keep))
  {
    hide Safe, InOrder, NumbersRecent, Shaped, NextExecute, FindLun;
    InvShaped(w);
    Serves(w, f, gid, canned, keep);
    ExecuteKeeps(w, f, canned, keep);
    ExecuteFrame(w, f, canned, keep);
    RanInOrder(w, f, NextExecute(w, f, canned, keep));
    StillRecent(w, f, NextExecute(w, f, canned, keep));
  }

  lemma InvShaped(w: World)
    requires Inv(w)
    ensures Shaped(w)
  {
  }

  /** The oldest unclaimed command. */
  ghost function OldestUnclaimed(w: World): nat
    requires w.sess.Some? && FirstSubmitted(w.sess.value.queue) < |w.sess.value.queue|
  {
    w.sess.value.queue[FirstSubmitted(w.sess.value.queue)].gid
  }

  // ----- runs

  lemma Continue(luns: seq<Lun>, ws: seq<World>, ls: seq<Label>, l: Label)
    requires RecentRun(luns, ws, ls) && Shaped(ws[|ls|]) && Enabled(ws[|ls|], l)
    requires Bounded(Next(ws[|ls|], l)) && NumbersRecent(Next(ws[|ls|], l))
    ensures RecentRun(luns, ws + [Next(ws[|ls|], l)], ls + [l])
  {
    hide Shaped, Enabled, Next, Bounded, NumbersRecent;
    Extend(luns, ws, ls, l);
  }

  lemma RecentBounds(luns: seq<Lun>, ws: seq<World>, ls: seq<Label>)
    requires RecentRun(luns, ws, ls)
    ensures |ws| == |ls| + 1 && Inv(ws[|ls|]) && NumbersRecent(ws[|ls|]) && Bounded(ws[|ls|]) && Shaped(ws[|ls|])
  {
    hide Inv, NumbersRecent, Bounded, Shaped, Next, Enabled;
    RunsKeepInv(luns, ws, ls, |ls|);
    InvShaped(ws[|ls|]);
  }

  lemma StillQueued(w: World, f: nat, w': World, gid: nat)
    requires OnlyTarget(w, f, w') && InQueue(QueueOf(w), gid)
    ensures InQueue(QueueOf(w'), gid)
  {
    var k :| 0 <= k < |QueueOf(w)| && QueueOf(w)[k].gid == gid;
    assert QueueOf(w')[k].gid == gid;
  }
}
