/**
 * A write that was answered good can still be lost: its bytes may be in the stream of the target that ran it, and are
 * gone when that target is killed.  Until then other targets read the old bytes.
 */
module LostWrites {
  import opened Bytes
  import opened Wire
  import opened Queue
  import opened Scsi
  import opened Engine
  import opened Protocol
  import opened Invariant
  import opened Steps
  import opened Order
  import opened Streams
  import opened BlockDevice
  import opened Refinement
  import opened Guarantees
  import opened Continuations

  /** A run with steady steps only. */
  ghost predicate SteadyRun(luns: seq<Lun>, ws: seq<World>, ls: seq<Label>) {
    RecentRun(luns, ws, ls) && AllSteady(ws, ls, |ls|)
  }

  /** Request r is a write of at least one block that LUN i accepts, and that would change it. */
  ghost predicate ChangingWrite(w: World, r: Request, i: nat) {
    && WellFormed(r) && i < |w.luns| && i == FindLun(w.luns, r.cmd.lun % 256) && Decode(r.cmd.cdb).Write?
    && w.luns[i].Sized()
    && var op := Decode(r.cmd.cdb);
    && op.blocks > 0 && InRange(w.luns[i].mb, op.lba, op.blocks)
    && Extent(SettledAt(w.luns, w.streams, i).disk, op.lba, op.blocks) != r.payload
  }

  /** Target f is where it is with command gid, which is queued and writes to LUN i, undisturbed by others. */
  ghost predicate AboutToWrite(w: World, f: nat, gid: nat, pc: Pc, i: nat) {
    && Holds(w, f, gid, pc) && InQueue(QueueOf(w), gid) && gid < |w.reqs| && ChangingWrite(w, w.reqs[gid], i)
    && Mine(w.streams, f, i) && UpToDate(w.luns, w.streams, f, i)
  }

  lemma Steadily(luns: seq<Lun>, ws: seq<World>, ls: seq<Label>, l: Label)
    requires SteadyRun(luns, ws, ls) && Shaped(ws[|ls|]) && Enabled(ws[|ls|], l) && Steady(ws[|ls|], l)
    requires Bounded(Next(ws[|ls|], l)) && NumbersRecent(Next(ws[|ls|], l))
    ensures SteadyRun(luns, ws + [Next(ws[|ls|], l)], ls + [l])
  {
    hide Shaped, Enabled, Next, Bounded, NumbersRecent, Steady, RecentRun;
    Continue(luns, ws, ls, l);
    RecentBounds(luns, ws, ls);
    var ws', ls' := ws + [Next(ws[|ls|], l)], ls + [l];
    forall k | 0 <= k < |ls'| ensures Shaped(ws'[k]) && Enabled(ws'[k], ls'[k]) && Steady(ws'[k], ls'[k]) {
      assert k < |ls| ==> ws'[k] == ws[k] && ls'[k] == ls[k];
    }
  }

  /** From the header to the run. */
  lemma Approach(luns: seq<Lun>, ws: seq<World>, ls: seq<Label>, f: nat, i: nat)
    returns (ws': seq<World>, ls': seq<Label>)
    requires SteadyRun(luns, ws, ls) && WriteWaits(ws[|ls|], f, i)
    ensures SteadyRun(luns, ws', ls') && ws <= ws' && |ws'| == |ls'| + 1
    ensures AboutToWrite(ws'[|ls'|], f, OldestUnclaimed(ws[|ls|]), HasData, i)
    ensures ws'[|ls'|].reqs == ws[|ls|].reqs && ws'[|ls'|].log == ws[|ls|].log
  {
    hide Inv, Shaped, NextReadHeader, NextClaim, NextFetch, FindLun, NumbersRecent, Run, Below, Settled, SettledAt,
      Mine, UpToDate, WellFormed, Decode, Steady;
    RecentBounds(luns, ws, ls);
    var w, gid := ws[|ls|], OldestUnclaimed(ws[|ls|]);
    WriteIsOut(w.reqs[gid]);
    Reads(w, f);
    assert Steady(w, ReadHeader(f)) by { SteadyAnyway(w, ReadHeader(f)); }
    Steadily(luns, ws, ls, ReadHeader(f));
    var w1 := NextReadHeader(w, f);
    ws', ls' := ws + [w1], ls + [ReadHeader(f)];
    StillQueued(w, f, w1, gid);
    RecentBounds(luns, ws', ls');
    Claims(w1, f, gid);
    assert Steady(w1, ClaimTask(f)) by { SteadyAnyway(w1, ClaimTask(f)); }
    Steadily(luns, ws', ls', ClaimTask(f));
    var w2 := NextClaim(w1, f);
    ws', ls' := ws' + [w2], ls' + [ClaimTask(f)];
    StillQueued(w1, f, w2, gid);
    RecentBounds(luns, ws', ls');
    Fetches(w2, f, gid);
    assert Steady(w2, Fetch(f)) by { SteadyAnyway(w2, Fetch(f)); }
    Steadily(luns, ws', ls', Fetch(f));
    var w3 := NextFetch(w2, f);
    ws', ls' := ws' + [w3], ls' + [Fetch(f)];
    StillQueued(w2, f, w3, gid);
  }

  lemma WriteIsOut(r: Request)
    requires WellFormed(r) && Decode(r.cmd.cdb).Write? && Decode(r.cmd.cdb).blocks > 0
    ensures r.cmd.toDevice && r.cmd.bufflen > 0
  {
  }

  lemma SteadyAnyway(w: World, l: Label)
    requires Shaped(w) && Enabled(w, l) && !l.Execute? && !l.Die? && !l.Release?
    ensures Steady(w, l)
  {
  }

  /** An attached target is idle, and the next command is a write that would change LUN i, on which no other target has
      unflushed bytes. */
  ghost predicate WriteWaits(w: World, f: nat, i: nat) {
    && f in w.files && w.files[f].private.Some? && w.files[f].pc == Idle
    && w.sess.Some? && FirstSubmitted(w.sess.value.queue) < |w.sess.value.queue| && OldestUnclaimed(w) < |w.reqs|
    && ChangingWrite(w, w.reqs[OldestUnclaimed(w)], i) && Mine(w.streams, f, i) && UpToDate(w.luns, w.streams, f, i)
  }

  /** The last bytes of a write, here all of them, stay in the stream. */
  lemma AllUnflushed(w: World, f: nat, i: nat, op: Op, data: seq<byte>, keep: Keep)
    requires i < |w.luns| && w.luns[i].Sized() && op.Write? && op.blocks > 0 && InRange(w.luns[i].mb, op.lba, op.blocks)
    requires |data| == op.blocks * BLOCK <= keep.unflushed && Mine(w.streams, f, i)
    ensures var after := AfterRun(w.luns, w.streams, f, i, op, data, keep);
            && after.0 == SettledAt(w.luns, w.streams, i)
            && after.1 == w.streams[(f, i) := Stream(op.lba * BLOCK, data, true)]
  {
    SettledBy(w.luns, w.streams, f, i);
    var own := FlushedAt(w.luns, w.streams, f, i);
    assert data[..0] == [] && data[0..] == data;
    PatchSame(own.disk, op.lba * BLOCK, 0);
    assert own.disk[op.lba * BLOCK..op.lba * BLOCK + 0] == [];
    assert own.(disk := own.disk) == own;
  }

  /** The target has run the write; file i is as before, the write is in the stream. */
  ghost predicate InStream(w: World, f: nat, gid: nat, i: nat) {
    && Holds(w, f, gid, Executed) && InQueue(QueueOf(w), gid) && gid < |w.reqs| && w.files[f].status == GOOD
    && WellFormed(w.reqs[gid]) && Decode(w.reqs[gid].cmd.cdb).Write? && w.reqs[gid].cmd.toDevice
    && NotRedundant(w, f, i)
  }

  /** Target f has bytes for LUN i that are not in the file. */
  ghost predicate NotRedundant(w: World, f: nat, i: nat) {
    && i < |w.luns| && Unflushed(w.streams, f, i)
    && var s := w.streams[(f, i)];
    s.pos + |s.bytes| <= |w.luns[i].disk| && w.luns[i].disk[s.pos..s.pos + |s.bytes|] != s.bytes
  }

  lemma RunsIntoStream(luns: seq<Lun>, ws: seq<World>, ls: seq<Label>, f: nat, gid: nat, i: nat)
    returns (ws': seq<World>, ls': seq<Label>)
    requires SteadyRun(luns, ws, ls) && AboutToWrite(ws[|ls|], f, gid, HasData, i)
    ensures SteadyRun(luns, ws', ls') && ws <= ws' && |ws'| == |ls'| + 1 && InStream(ws'[|ls'|], f, gid, i)
    ensures ws'[|ls'|].reqs == ws[|ls|].reqs && ws'[|ls'|].log == ws[|ls|].log
  {
    hide Inv, Shaped, NextExecute, FindLun, NumbersRecent, Run, Below, Settled, SettledAt, Mine, UpToDate, WellFormed,
      Decode, AfterRun, NothingLost, AllSteady;
    RecentBounds(luns, ws, ls);
    var w, keep := ws[|ls|], Keep(MAX_TRANSFER, 0, 0);
    var canned := Canned(GOOD, []);
    var l := Execute(f, canned, keep);
    var r := w.reqs[gid];
    CommandFits(r);
    var op := Decode(r.cmd.cdb);
    WriteIsOut(r);
    PayloadBound(r);
    Serves(w, f, gid, canned, keep);
    Executes(w, f, gid, canned, keep);
    AllUnflushed(w, f, i, op, r.payload, keep);
    LunHeld(w, f, gid);
    assert Steady(w, l) by { NothingLostRunning(w, f, canned, keep); }
    Steadily(luns, ws, ls, l);
    ws', ls' := ws + [Next(w, l)], ls + [l];
    StillQueued(w, f, ws'[|ls'|], gid);
    ExtentOf(SettledAt(w.luns, w.streams, i).disk, op.lba, op.blocks);
  }

  lemma PayloadBound(r: Request)
    requires WellFormed(r)
    ensures |r.payload| <= MAX_TRANSFER
  {
  }

  lemma ExtentOf(disk: seq<byte>, lba: nat, blocks: nat)
    requires (lba + blocks) * BLOCK <= |disk|
    ensures Extent(disk, lba, blocks) == disk[lba * BLOCK..lba * BLOCK + blocks * BLOCK]
  {
  }

  lemma LunHeld(w: World, f: nat, gid: nat)
    requires Inv(w) && Holds(w, f, gid, HasData) && gid < |w.reqs|
    ensures LunFor(w, f) == FindLun(w.luns, w.reqs[gid].cmd.lun % 256)
  {
    hide NumOf, QueueOk, Pointers, Accounted, HeadersInOrder, StreamsOk, InOrder, FindLun;
    HeldFacts(w, f);
  }

  lemma NothingLostRunning(w: World, f: nat, canned: Canned, keep: Keep)
    requires Shaped(w) && Enabled(w, Execute(f, canned, keep)) && LunFor(w, f) < |w.luns|
    ensures NothingLost(w, Execute(f, canned, keep))
  {
  }

  ghost predicate AnsweredGood(log: seq<Event>, gid: nat) {
    exists i :: 0 <= i < |log| && log[i].Done? && log[i].gid == gid && log[i].result == GOOD as nat
  }

  /** The write is answered good and its target killed. */
  ghost predicate LosesWrite(luns: seq<Lun>, ws: seq<World>, gid: nat, ws': seq<World>, ls': seq<Label>, f: nat) {
    && RecentRun(luns, ws', ls') && ws <= ws' && |ls'| > 0 && |ws'| == |ls'| + 1
    && AllSteady(ws', ls', |ls'| - 1) && ls'[|ls'| - 1] == Release(f)
    && SizedAll(luns)
    && var w := ws'[|ls'|];
    && AnsweredGood(w.log, gid)
    && Settled(w.luns, w.streams) != Replay(luns, w.reqs, w.execs)
  }

  /** Wherever a target is idle and the next command is a write that changes the disk, the run can go on so that the
      write is answered good, the target is killed, and the disks are not what the commands that ran have written. */
  lemma GoodWriteIsLost(luns: seq<Lun>, ws: seq<World>, ls: seq<Label>, f: nat, i: nat)
    requires SteadyRun(luns, ws, ls) && WriteWaits(ws[|ls|], f, i)
    ensures exists ws', ls' :: LosesWrite(luns, ws, OldestUnclaimed(ws[|ls|]), ws', ls', f)
  {
    hide SteadyRun, AboutToWrite, InStream, Inv, Shaped, NumbersRecent, Bounded, Run, NextRelease, NextComplete,
      NotRedundant, Replay, Settled, Redundant, AllSteady, ChangingWrite, Mine, UpToDate;
    SteadyIsRecent(luns, ws, ls);
    var gid := OldestUnclaimed(ws[|ls|]);
    var ws', ls' := Approach(luns, ws, ls, f, i);
    ws', ls' := RunsIntoStream(luns, ws', ls', f, gid, i);
    ws', ls' := Answered(luns, ws', ls', f, gid, i);
    ws', ls' := KilledAfter(luns, ws', ls', f, gid, i);
    assert LosesWrite(luns, ws, gid, ws', ls', f);
  }

  lemma SteadyIsRecent(luns: seq<Lun>, ws: seq<World>, ls: seq<Label>)
    requires SteadyRun(luns, ws, ls)
    ensures RecentRun(luns, ws, ls) && |ws| == |ls| + 1
  {
  }

  lemma Answered(luns: seq<Lun>, ws: seq<World>, ls: seq<Label>, f: nat, gid: nat, i: nat)
    returns (ws': seq<World>, ls': seq<Label>)
    requires SteadyRun(luns, ws, ls) && InStream(ws[|ls|], f, gid, i)
    ensures SteadyRun(luns, ws', ls') && ws <= ws' && |ws'| == |ls'| + 1
    ensures var w := ws'[|ls'|];
            f in w.files && NotRedundant(w, f, i) && AnsweredGood(w.log, gid)
  {
    hide Inv, Shaped, NextComplete, NumbersRecent, Run, Unflushed, WellFormed, Decode, AllSteady;
    RecentBounds(luns, ws, ls);
    var w := ws[|ls|];
    var l := Complete(f);
    CompletesOwn(w, f, gid);
    assert Steady(w, l) by { SteadyAnyway(w, l); }
    Steadily(luns, ws, ls, l);
    ws', ls' := ws + [Next(w, l)], ls + [l];
  }

  lemma CompletesOwn(w: World, f: nat, gid: nat)
    requires Inv(w) && NumbersRecent(w) && Holds(w, f, gid, Executed) && InQueue(QueueOf(w), gid)
    requires w.files[f].status == GOOD
    ensures Shaped(w)
    ensures var w' := NextComplete(w, f);
            && f in w'.files && w'.luns == w.luns && w'.streams == w.streams && w'.regs == w.regs && NumbersRecent(w')
            && AnsweredGood(w'.log, gid)
  {
    hide Safe, InOrder, NextComplete, WellFormed, IndexOfNum, RecentQueue;
    InvShaped(w);
    CompletionStep(w, f);
    OwnNumber(w, f);
    var i := IndexOfNum(w.sess.value.queue, w.files[f].task.num);
    var w' := NextComplete(w, f);
    assert w'.log[|w.log|].gid == gid;
    RemovedRecent(w.sess.value.queue, i, |w.reqs|);
  }

  lemma RemovedRecent(q: seq<Task>, i: nat, next: nat)
    requires i < |q| && RecentQueue(q, next)
    ensures RecentQueue(Without(q, i), next)
  {
    assert forall k :: 0 <= k < |q| - 1 ==> Without(q, i)[k] == q[if k < i then k else k + 1];
  }

  lemma KilledAfter(luns: seq<Lun>, ws: seq<World>, ls: seq<Label>, f: nat, gid: nat, i: nat)
    returns (ws': seq<World>, ls': seq<Label>)
    requires SteadyRun(luns, ws, ls) && |ws| == |ls| + 1 && f in ws[|ls|].files && NotRedundant(ws[|ls|], f, i)
    requires AnsweredGood(ws[|ls|].log, gid)
    ensures LosesWrite(luns, ws, gid, ws', ls', f)
  {
    hide Inv, Shaped, NumbersRecent, Run, Replay, Settled, Steady, WithoutStreams, Detach;
    RecentBounds(luns, ws, ls);
    var w := ws[|ls|];
    KillingLosesWrites(luns, ws, ls, |ls|, f);
    ReleaseFrame(w, f);
    Continue(luns, ws, ls, Release(f));
    ws', ls' := ws + [NextRelease(w, f)], ls + [Release(f)];
    assert !Redundant(w.luns, w.streams, f);
    forall k | 0 <= k < |ls| ensures Shaped(ws'[k]) && Enabled(ws'[k], ls'[k]) && Steady(ws'[k], ls'[k]) {
      assert ws'[k] == ws[k] && ls'[k] == ls[k];
    }
  }

  lemma ReleaseFrame(w: World, f: nat)
    requires Inv(w) && NumbersRecent(w) && Bounded(w) && f in w.files
    ensures var w' := NextRelease(w, f);
            Bounded(w') && NumbersRecent(w') && w'.reqs == w.reqs && w'.execs == w.execs && w'.log == w.log
  {
    hide Safe, InOrder, WithoutStreams, RecentQueue;
  }

  /** Meanwhile another target reads from the file: a READ(10) reports what the settled disk holds if and only if the file
      already agrees with the unflushed bytes on its extent. */
  lemma AnotherReadsOld(w: World, f: nat, g: nat, gid: nat, i: nat, keep: Keep)
    requires Inv(w) && NumbersRecent(w) && Sole(w.streams) && Holds(w, g, gid, Claimed) && InQueue(QueueOf(w), gid)
    requires gid < |w.reqs| && i < |w.luns| && i == FindLun(w.luns, w.reqs[gid].cmd.lun % 256)
    requires var op := Decode(w.reqs[gid].cmd.cdb);
             op.Read? && op.blocks > 0 && InRange(w.luns[i].mb, op.lba, op.blocks)
    requires Unflushed(w.streams, f, i) && (g, i) !in w.streams
    ensures Shaped(w) && Enabled(w, Execute(g, Canned(GOOD, []), keep))
    ensures var w', op := NextExecute(w, g, Canned(GOOD, []), keep), Decode(w.reqs[gid].cmd.cdb);
            && (op.lba + op.blocks) * BLOCK <= |w.luns[i].disk|
            && w.streams[(f, i)].pos + |w.streams[(f, i)].bytes| <= |w.luns[i].disk|
            && |w'.execs| == |w.execs| + 1
            && w'.execs[|w.execs|] == Ran(gid, GOOD, Extent(w.luns[i].disk, op.lba, op.blocks))
            && (w'.execs[|w.execs|].reply == Extent(SettledAt(w.luns, w.streams, i).disk, op.lba, op.blocks) <==>
                AgreesOn(w.luns[i].disk, w.streams[(f, i)], op.lba, op.blocks))
  {
    hide Lifetime, Pointers, Accounted, HeadersInOrder, ExecsClaimed, QueueOk, NumOf, WellFormed, Decode, Fits,
      AgreesOn, SettledAt, ClaimedBefore, AfterRun, HasPayload, Fifo, Sole, NumbersRecent, RecentQueue, Serve;
    HeldFacts(w, g);
    var file, r := w.files[g], w.reqs[gid];
    TargetRunsCommand(file, r, w.luns[i].mb);
    var op := Decode(r.cmd.cdb);
    assert (f, i) in w.streams;
    ReadIsIn(r);
    ServedRead(w.luns[i], op, Ids(w.luns), file.buffer, file.task.bufflen);
    ReadsSettled(w.luns, w.streams, f, g, i, op.lba, op.blocks);
  }

  lemma ReadIsIn(r: Request)
    requires WellFormed(r) && Decode(r.cmd.cdb).Read? && Decode(r.cmd.cdb).blocks > 0
    ensures !r.cmd.toDevice && r.cmd.bufflen == Decode(r.cmd.cdb).blocks * BLOCK
  {
  }

  lemma ServedRead(l: Lun, op: Op, ids: seq<byte>, buffer: seq<byte>, size: nat)
    requires l.Sized() && |ids| <= 256 && op.Read? && InRange(l.mb, op.lba, op.blocks) && |buffer| == BUFFER_SIZE
    requires Fits(op, l.mb, BUFFER_SIZE - COMPLETION_SIZE, size) && size == op.blocks * BLOCK
    requires COMPLETION_SIZE + size <= BUFFER_SIZE
    ensures var r := Serve(l, op, ids, buffer, COMPLETION_SIZE, size);
            r.status == GOOD && ReplyBytes(r.buffer, size) == Extent(l.disk, op.lba, op.blocks)
  {
    ReadPlaced(buffer, COMPLETION_SIZE, Extent(l.disk, op.lba, op.blocks));
  }
}
