/**
 * What holds besides while command numbers are exact, that is, while no number comes around again for a command that
 * is still queued or still held by a target: claims hit the command that was read, so claimed commands stay in front.
 */
module Order {
  import opened Bytes
  import opened Wire
  import opened Queue
  import opened Scsi
  import opened Engine
  import opened Protocol
  import opened Invariant
  import opened Steps

  /** Fewer than 2^32 - 1 commands were accepted after any command that is still queued or still held. */
  ghost predicate NumbersRecent(w: World) {
    && (w.sess.Some? ==> RecentQueue(w.sess.value.queue, |w.reqs|))
    && (forall f :: f in w.files && Holding(w.files[f].pc) ==> Recent(w.files[f].gid, |w.reqs|))
  }

  /** Everything up to command gid has been claimed. */
  ghost predicate ClaimedUpTo(q: seq<Task>, gid: nat) {
    forall i :: 0 <= i < |q| && q[i].gid <= gid ==> q[i].flag == Received
  }

  ghost predicate HasPayload(file: File, r: Request) {
    && UHEADER_SIZE + |r.payload| <= |file.buffer|
    && file.buffer[UHEADER_SIZE..UHEADER_SIZE + |r.payload|] == r.payload
  }

  /** What a target has done with the command it holds. */
  ghost predicate HeldInOrder(q: seq<Task>, reqs: seq<Request>, file: File) {
    && file.gid < |reqs|
    && (file.pc != HasHeader ==> ClaimedUpTo(q, file.gid))
    && (file.pc == HasData ==> HasPayload(file, reqs[file.gid]))
  }

  /** What has run was accepted, and was claimed if it is still queued. */
  ghost predicate ExecsClaimed(q: seq<Task>, execs: seq<Exec>, accepted: nat) {
    forall k :: 0 <= k < |execs| ==> execs[k].gid < accepted && ClaimedUpTo(q, execs[k].gid)
  }

  ghost predicate InOrder(w: World) {
    && Fifo(QueueOf(w))
    && (forall f :: f in w.files && Holding(w.files[f].pc) ==> HeldInOrder(QueueOf(w), w.reqs, w.files[f]))
    && ExecsClaimed(QueueOf(w), w.execs, |w.reqs|)
  }

  ghost predicate Inv(w: World) {
    Safe(w) && InOrder(w)
  }

  // ----- a number finds its own command

  lemma OwnNumber(w: World, f: nat)
    requires Safe(w) && NumbersRecent(w) && f in w.files && Holding(w.files[f].pc)
    ensures w.sess.Some?
    ensures var i := IndexOfNum(w.sess.value.queue, w.files[f].task.num);
            && (i < |w.sess.value.queue| ==> w.sess.value.queue[i].gid == w.files[f].gid)
            && (i == |w.sess.value.queue| ==> !InQueue(w.sess.value.queue, w.files[f].gid))
  {
    hide NumOf, IndexOfNum, Pointers, Accounted, HeadersInOrder, WellFormed;
    HeldFacts(w, f);
    var s := w.sess.value;
    assert QueueOk(s, |w.reqs|);
    LookupExact(s.queue, s.base, |w.reqs|, w.files[f].gid);
  }

  // ----- steps that claim nothing new

  /** Nothing that was claimed up to a command accepted so far is unclaimed by going from w to w'. */
  ghost predicate StaysClaimed(q: seq<Task>, q': seq<Task>, accepted: nat) {
    forall g :: 0 <= g < accepted && ClaimedUpTo(q, g) ==> ClaimedUpTo(q', g)
  }

  /** A step keeps the order if it keeps claims, and what is new about targets and runs is right. */
  lemma OrderKeeps(w: World, w': World)
    requires InOrder(w) && Fifo(QueueOf(w')) && w.reqs <= w'.reqs
    requires StaysClaimed(QueueOf(w), QueueOf(w'), |w.reqs|)
    requires forall f :: f in w'.files && Holding(w'.files[f].pc) ==>
               || (f in w.files && w'.files[f] == w.files[f])
               || HeldInOrder(QueueOf(w'), w'.reqs, w'.files[f])
    requires w'.execs == w.execs || (|w'.execs| == |w.execs| + 1 && w.execs <= w'.execs
               && w'.execs[|w.execs|].gid < |w'.reqs| && ClaimedUpTo(QueueOf(w'), w'.execs[|w.execs|].gid))
    ensures InOrder(w')
  {
    hide Fifo, ClaimedUpTo, HasPayload;
    forall f | f in w'.files && Holding(w'.files[f].pc) ensures HeldInOrder(QueueOf(w'), w'.reqs, w'.files[f]) {
      if f in w.files && w'.files[f] == w.files[f] {
        assert HeldInOrder(QueueOf(w), w.reqs, w.files[f]);
      }
    }
    forall k | 0 <= k < |w'.execs| ensures w'.execs[k].gid < |w'.reqs| && ClaimedUpTo(QueueOf(w'), w'.execs[k].gid) {
      assert k < |w.execs| ==> w'.execs[k] == w.execs[k] && ClaimedUpTo(QueueOf(w), w.execs[k].gid);
    }
  }

  lemma WithoutClaims(q: seq<Task>, i: nat, accepted: nat)
    requires i < |q| && Fifo(q)
    ensures Fifo(Without(q, i)) && StaysClaimed(q, Without(q, i), accepted)
  {
    var r := Without(q, i);
    assert forall k :: 0 <= k < |r| ==> r[k] == q[if k < i then k else k + 1];
  }

  lemma AcceptClaims(q: seq<Task>, t: Task)
    requires Fifo(q) && t.flag == Submitted
    ensures Fifo(q + [t]) && StaysClaimed(q, q + [t], t.gid)
  {
    forall g | 0 <= g < t.gid && ClaimedUpTo(q, g) ensures ClaimedUpTo(q + [t], g) {
    }
  }

  lemma NothingClaimed(q: seq<Task>, accepted: nat)
    ensures Fifo([]) && StaysClaimed(q, [], accepted) && StaysClaimed(q, q, accepted)
  {
  }

  /** Nothing changes that order is about. */
  ghost predicate OrderFrame(w: World, w': World) {
    && w'.reqs == w.reqs && w'.execs == w.execs && QueueOf(w') == QueueOf(w)
    && forall f :: f in w'.files && Holding(w'.files[f].pc) ==> f in w.files && w'.files[f] == w.files[f]
  }

  lemma RegisterFrame(w: World, f: nat, hostAdded: bool)
    requires f in w.files && w.files[f].pc == Idle
    ensures OrderFrame(w, NextRegister(w, f, hostAdded))
  {
  }

  lemma ReleaseFrame(w: World, f: nat)
    requires f in w.files
    ensures OrderFrame(w, NextRelease(w, f))
  {
    hide WithoutStreams;
  }

  /** Opening, registering and closing. */
  lemma AttachmentInOrder(w: World, l: Label)
    requires Inv(w) && Enabled(w, l) && (l.Open? || l.Register? || l.Release?)
    ensures InOrder(Next(w, l))
  {
    hide Safe, Fifo, StaysClaimed, InOrder, NextRegister, NextRelease, Zeros;
    SafeOrdered(w);
    OrderParts(w);
    NothingClaimed(QueueOf(w), |w.reqs|);
    match l {
      case Register(f, hostAdded) => RegisterFrame(w, f, hostAdded);
      case Release(f) => ReleaseFrame(w, f);
      case _ =>
    }
    OrderKeeps(w, Next(w, l));
  }

  /** The steps of the mid layer and of an administrator. */
  lemma MidLayerInOrder(w: World, l: Label)
    requires Inv(w) && Enabled(w, l) && (l.Unregister? || l.Submit? || l.Abort? || l.Reset?)
    ensures InOrder(Next(w, l))
  {
    hide Safe, Fifo, StaysClaimed, InOrder, IndexOfTask, Without, WellFormed, Below;
    SafeOrdered(w);
    var w', q := Next(w, l), QueueOf(w);
    OrderParts(w);
    NothingClaimed(q, |w.reqs|);
    match l {
      case Submit(req, slot) =>
        AcceptClaims(q, Task(|w.reqs|, req.sc, NextNumber(w.sess.value), Submitted));
      case Abort(sc) =>
        if sc in w.ptr {
          var i := IndexOfTask(q, w.ptr[sc]);
          if i < |q| {
            WithoutClaims(q, i, |w.reqs|);
          }
        }
      case _ =>
    }
    OrderKeeps(w, w');
  }

  lemma OrderParts(w: World)
    requires InOrder(w)
    ensures Fifo(QueueOf(w))
  {
  }

  // ----- steps of a target

  /** An exited or new process, or one that only read a header, owes nothing. */
  lemma ReadHeaderInOrder(w: World, f: nat)
    requires Inv(w) && Enabled(w, ReadHeader(f))
    ensures InOrder(NextReadHeader(w, f))
  {
    hide QueueOk, Accounted, Holders, HeadersInOrder, StreamsOk, Lifetime, Fifo, StaysClaimed, InOrder, Pointers,
      Header, ParseHeader, ClaimedUpTo, WithoutStreams, Flushed;
    AttachedOrNot(w, f);
    OrderParts(w);
    NothingClaimed(QueueOf(w), |w.reqs|);
    OrderKeeps(w, NextReadHeader(w, f));
  }

  lemma AttachedOrNot(w: World, f: nat)
    requires Safe(w) && f in w.files
    ensures w.files[f].private.None? || Usable(w, w.files[f])
  {
    if w.files[f].private.Some? {
      AttachedIsUsable(w, f);
    }
  }

  lemma MarkClaims(q: seq<Task>, i: nat, accepted: nat)
    requires i < |q| && Fifo(q) && Ordered(q) && ClaimedBefore(q, q[i].gid)
    ensures var q' := q[i := q[i].(flag := Received)];
            Fifo(q') && StaysClaimed(q, q', accepted) && ClaimedUpTo(q', q[i].gid)
  {
    var q' := q[i := q[i].(flag := Received)];
    forall a, b | 0 <= a < b < |q'| && q'[b].flag == Received ensures q'[a].flag == Received {
      assert b == i ==> q[a].gid < q[i].gid;
    }
  }

  lemma ClaimedAll(q: seq<Task>, gid: nat)
    requires ClaimedBefore(q, gid) && !InQueue(q, gid)
    ensures ClaimedUpTo(q, gid)
  {
  }

  lemma ClaimInOrder(w: World, f: nat)
    requires Inv(w) && NumbersRecent(w) && Enabled(w, ClaimTask(f))
    ensures InOrder(NextClaim(w, f))
  {
    hide QueueOk, Accounted, Holders, HeadersInOrder, StreamsOk, Lifetime, Fifo, StaysClaimed, InOrder, Pointers,
      ClaimedUpTo, ClaimedBefore, IndexOfNum, Shaped, NumOf, Describes;
    HeldFacts(w, f);
    OwnNumber(w, f);
    OrderParts(w);
    SafeOrdered(w);
    var q := QueueOf(w);
    var i := IndexOfNum(q, w.files[f].task.num);
    NothingClaimed(q, |w.reqs|);
    if i < |q| {
      MarkClaims(q, i, |w.reqs|);
    } else {
      ClaimedAll(q, w.files[f].gid);
    }
    OrderKeeps(w, NextClaim(w, f));
  }

  lemma SafeOrdered(w: World)
    requires Safe(w)
    ensures Shaped(w) && Ordered(QueueOf(w)) && Below(QueueOf(w), |w.reqs|)
  {
  }

  lemma PayloadPlaced(buffer: seq<byte>, h: seq<byte>, payload: seq<byte>)
    requires |h| + |payload| <= |buffer|
    ensures Patch(buffer, 0, h + payload)[|h|..|h| + |payload|] == payload
  {
  }

  lemma FetchInOrder(w: World, f: nat)
    requires Inv(w) && NumbersRecent(w) && Enabled(w, Fetch(f))
    ensures InOrder(NextFetch(w, f))
  {
    hide QueueOk, Accounted, Holders, HeadersInOrder, StreamsOk, Lifetime, Fifo, StaysClaimed, InOrder, Pointers,
      ClaimedUpTo, ClaimedBefore, IndexOfNum, FirstSubmitted, NumOf, Describes, Header, WellFormed, Exit;
    HeldFacts(w, f);
    OwnNumber(w, f);
    OrderParts(w);
    var file, q := w.files[f], QueueOf(w);
    var r := w.reqs[file.gid];
    CommandFits(r);
    NothingClaimed(q, |w.reqs|);
    ClaimedByHolder(w, f);
    var i := if file.task.bufflen == 0 then FirstSubmitted(q) else IndexOfNum(q, file.task.num);
    if i < |q| {
      CommandFits(w.reqs[q[i].gid]);
      var h := HeaderOf(w, q[i], if file.task.bufflen == 0 then TYPE_C else TYPE_D);
      PayloadPlaced(file.buffer, h, r.payload);
      assert r.payload == [] ==> h + r.payload == h;
    } else {
      ExitFrame(w, f);
    }
    ExitFrame(w, f);
    OrderKeeps(w, NextFetch(w, f));
  }

  lemma ExitFrame(w: World, f: nat)
    requires f in w.files
    ensures Exit(w, f).files == w.files[f := w.files[f].(pc := Exited)] && Exit(w, f).sess == w.sess
    ensures Exit(w, f).reqs == w.reqs && Exit(w, f).execs == w.execs
  {
  }

  lemma ClaimedByHolder(w: World, f: nat)
    requires InOrder(w) && f in w.files && Holding(w.files[f].pc) && w.files[f].pc != HasHeader
    ensures ClaimedUpTo(QueueOf(w), w.files[f].gid) && w.files[f].gid < |w.reqs|
  {
    hide ClaimedUpTo;
    assert HeldInOrder(QueueOf(w), w.reqs, w.files[f]);
  }

  /** What a target's run leaves alone, and the run it records, if it does. */
  ghost predicate TargetRan(w: World, f: nat, w': World) {
    && f in w.files && f in w'.files && w'.files == w.files[f := w'.files[f]]
    && w'.files[f].gid == w.files[f].gid && w'.files[f].private == w.files[f].private
    && (w'.files[f].pc == Executed || w'.files[f].pc == Exited)
    && w'.sess == w.sess && w'.reqs == w.reqs && w'.log == w.log && w'.regs == w.regs && w'.headers == w.headers
    && (w'.execs == w.execs ||
        (|w'.execs| == |w.execs| + 1 && w.execs <= w'.execs && w'.execs[|w.execs|].gid == w.files[f].gid))
  }

  lemma FinishFrame(w: World, f: nat, r: Reply, luns: seq<Lun>, streams: map<(nat, nat), Stream>)
    requires f in w.files && |r.buffer| == BUFFER_SIZE && COMPLETION_SIZE + w.files[f].task.bufflen <= BUFFER_SIZE
    ensures TargetRan(w, f, Finish(w, f, r, luns, streams))
  {
    hide ReplyBytes;
  }

  /** The end of a process, after it may have changed LUN files and recorded an interrupted run. */
  lemma EndFrame(w: World, f: nat, luns: seq<Lun>, execs: seq<Exec>)
    requires f in w.files && (execs == w.execs ||
               (|execs| == |w.execs| + 1 && w.execs <= execs && execs[|w.execs|].gid == w.files[f].gid))
    ensures TargetRan(w, f, Killed(w.(luns := luns, execs := execs), f))
    ensures TargetRan(w, f, Killed(w.(execs := execs), f)) && TargetRan(w, f, Killed(w, f))
    ensures TargetRan(w, f, Broken(Exit(w, f)))
  {
    hide Flushed, WithoutStreams;
  }

  lemma ExecuteFrame(w: World, f: nat, canned: Canned, keep: Keep)
    requires Shaped(w) && Enabled(w, Execute(f, canned, keep))
    ensures TargetRan(w, f, NextExecute(w, f, canned, keep))
  {
    hide Decode, Serve, Fits, AfterRun, Ids, FindLun, WellFormed, Below, Finish, Killed, Exit, TargetRan, Broken,
      Patch;
    var file := w.files[f];
    var op, at, i := Decode(file.task.cdb), DataOffset(file.task), FindLun(w.luns, TaskLun(file.task));
    EndFrame(w, f, w.luns, w.execs);
    if i < |w.luns| && COMPLETION_SIZE + file.task.bufflen <= BUFFER_SIZE {
      if op.Other? {
        FinishFrame(w, f, Reply(canned.status, w.luns[i].disk, Patch(file.buffer, at, canned.data)), w.luns, w.streams);
      } else if Fits(op, w.luns[i].mb, BUFFER_SIZE - at, file.task.bufflen) {
        var r := Serve(Seen(w.luns, w.streams, f, i), op, Ids(w.luns), file.buffer, at, file.task.bufflen);
        assert op.Write? && InRange(w.luns[i].mb, op.lba, op.blocks) ==> |DataOf(file.buffer, at, op)| == op.blocks * BLOCK by {
          RoomForWrite(op, w.luns[i].mb, file.buffer, at, file.task.bufflen);
        }
        var after := AfterRun(w.luns, w.streams, f, i, op, DataOf(file.buffer, at, op), keep);
        FinishFrame(w, f, r, w.luns[i := after.0], after.1);
      }
    }
  }

  lemma RoomForWrite(op: Op, mb: nat, buffer: seq<byte>, at: nat, size: nat)
    requires at <= |buffer| && Fits(op, mb, |buffer| - at, size)
    ensures op.Write? && InRange(mb, op.lba, op.blocks) ==> |DataOf(buffer, at, op)| == op.blocks * BLOCK
  {
  }

  lemma DieFrame(w: World, f: nat, written: nat, sought: bool)
    requires Shaped(w) && Enabled(w, Die(f, written, sought))
    ensures TargetRan(w, f, NextDie(w, f, written, sought))
  {
    hide Decode, FlushedAt, Seeks, WellFormed, Below, Killed, Exit, TargetRan, Broken, FindLun;
    var file := w.files[f];
    var op, at, i := Decode(file.task.cdb), DataOffset(file.task), FindLun(w.luns, TaskLun(file.task));
    EndFrame(w, f, w.luns, w.execs + [Torn(file.gid, 0)]);
    if i < |w.luns| && Seeks(op, w.luns[i].mb) {
      var own := FlushedAt(w.luns, w.streams, f, i);
      EndFrame(w, f, w.luns[i := own], w.execs + [Torn(file.gid, 0)]);
      if op.Write? && at + op.blocks * BLOCK <= BUFFER_SIZE {
        var n := Min(written, op.blocks * BLOCK);
        assert op.lba * BLOCK + n <= |own.disk| by { SeeksInRange(op, w.luns[i]); }
        var disk := WriteExtent(own.disk, op.lba, file.buffer[at..at + n]);
        EndFrame(w, f, w.luns[i := own.(disk := disk)], w.execs + [Torn(file.gid, n)]);
      }
    }
  }

  lemma SeeksInRange(op: Op, l: Lun)
    requires l.Sized() && op.Write? && Seeks(op, l.mb)
    ensures InRange(l.mb, op.lba, op.blocks) && op.lba * BLOCK + op.blocks * BLOCK <= |l.disk|
  {
  }

  /** Only runs are recorded as runs. */
  lemma ExecsSame(w: World, l: Label)
    requires Shaped(w) && Enabled(w, l) && !l.Execute? && !l.Die?
    ensures Next(w, l).execs == w.execs
  {
    hide Shaped, IndexOfTask, IndexOfNum, FirstSubmitted, Header, ParseHeader, Patch, Flushed, WithoutStreams,
      Completion, CompletedNum, ReplyBytes, Drained;
    assert Shaped(w);
  }

  lemma RanInOrder(w: World, f: nat, w': World)
    requires Inv(w) && TargetRan(w, f, w') && Running(w.files[f])
    ensures InOrder(w')
  {
    hide Safe, Fifo, StaysClaimed, InOrder, ClaimedUpTo, HasPayload;
    OrderParts(w);
    NothingClaimed(QueueOf(w), |w.reqs|);
    ClaimedByHolder(w, f);
    OrderKeeps(w, w');
  }

  lemma CompleteInOrder(w: World, f: nat)
    requires Inv(w) && Enabled(w, Complete(f))
    ensures InOrder(NextComplete(w, f))
  {
    hide QueueOk, Accounted, Holders, HeadersInOrder, StreamsOk, Lifetime, Fifo, StaysClaimed, InOrder, Pointers,
      ClaimedUpTo, ClaimedBefore, IndexOfNum, Completion, CompletedNum, WellFormed, ReplyBytes, WithoutStreams,
      Flushed, Patch;
    OrderParts(w);
    var q := QueueOf(w);
    NothingClaimed(q, |w.reqs|);
    HeldFacts(w, f);
    var file := w.files[f];
    if COMPLETION_SIZE + file.task.bufflen <= BUFFER_SIZE {
      var i := IndexOfNum(q, CompletedNum(Completion(file.buffer, file.task.num, file.status, file.task.bufflen)));
      if i < |q| {
        WithoutClaims(q, i, |w.reqs|);
      }
    }
    OrderKeeps(w, NextComplete(w, f));
  }

  // ----- every step, every run

  lemma StepKeepsOrder(w: World, l: Label)
    requires Inv(w) && NumbersRecent(w) && Enabled(w, l)
    ensures InOrder(Next(w, l))
  {
    hide Safe, InOrder, NumbersRecent, Shaped;
    SafeOrdered(w);
    hide NextRegister, NextRelease, NextUnregister, NextSubmit, NextAbort, NextReadHeader, NextClaim, NextFetch,
      NextExecute, NextDie, NextComplete, Drained, LeaveAll;
    match l
    case ReadHeader(f) => ReadHeaderInOrder(w, f);
    case ClaimTask(f) => ClaimInOrder(w, f);
    case Fetch(f) => FetchInOrder(w, f);
    case Execute(f, canned, keep) =>
      ExecuteFrame(w, f, canned, keep);
      RanInOrder(w, f, NextExecute(w, f, canned, keep));
    case Die(f, written, sought) =>
      DieFrame(w, f, written, sought);
      RanInOrder(w, f, NextDie(w, f, written, sought));
    case Complete(f) => CompleteInOrder(w, f);
    case Open(_) => AttachmentInOrder(w, l);
    case Register(_, _) => AttachmentInOrder(w, l);
    case Release(_) => AttachmentInOrder(w, l);
    case _ => MidLayerInOrder(w, l);
  }

  /** A run in which no number comes around for a command that is still queued or held. */
  ghost predicate RecentRun(luns: seq<Lun>, ws: seq<World>, ls: seq<Label>) {
    Run(luns, ws, ls) && forall i :: 0 <= i < |ws| ==> NumbersRecent(ws[i])
  }

  lemma {:induction false} RunsKeepInv(luns: seq<Lun>, ws: seq<World>, ls: seq<Label>, i: nat)
    requires RecentRun(luns, ws, ls) && i < |ws|
    ensures Inv(ws[i])
  {
    hide Safe, InOrder, Next, Enabled, Bounded, Shaped, NumbersRecent;
    RunsAreSafe(luns, ws, ls, i);
    if i == 0 {
      InitInOrder(luns);
    } else {
      RunsKeepInv(luns, ws, ls, i - 1);
      var k := i - 1;
      assert ws[k + 1] == Next(ws[k], ls[k]);
      StepKeepsOrder(ws[k], ls[k]);
    }
  }

  lemma InitInOrder(luns: seq<Lun>)
    ensures InOrder(Init(luns))
  {
  }
}
