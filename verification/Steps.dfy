/** The steps of a target keep it too, so every state of every run is safe, whatever numbers have been reused. */
module Steps {
  import opened Bytes
  import opened Wire
  import opened Queue
  import opened Scsi
  import opened Engine
  import opened Protocol
  import opened Invariant

  /** The session of an attached file is live and ready: the error returns that test for this are not taken. */
  lemma AttachedIsUsable(w: World, f: nat)
    requires Safe(w) && f in w.files && w.files[f].private.Some?
    ensures Usable(w, w.files[f])
  {
    assert f in Attached(w.files);
    assert |Attached(w.files)| > 0;
  }

  /** A process ends, by exit or by a signal; before it is gone its run may have changed the file of one LUN. */
  lemma KilledKeeps(w: World, f: nat)
    requires Safe(w) && f in w.files
    ensures Safe(Killed(w, f))
  {
    hide QueueOk, Pointers, Accounted, Holders, HeadersInOrder, Lifetime;
    var streams := WithoutStreams(w.streams, f);
    assert StreamsOk(w.luns, streams, w.files);
    DisksKeep(w, w.luns, streams);
    assert w.(luns := w.luns, streams := streams) == w.(streams := streams);
    FileKeeps(w.(streams := streams), f, w.files[f].(pc := Exited));
  }

  lemma ExitKeeps(w: World, f: nat)
    requires Safe(w) && f in w.files
    ensures Safe(Exit(w, f))
  {
    hide QueueOk, Pointers, Accounted, Holders, HeadersInOrder, Lifetime, FlushedAt;
    var luns, streams := Flushed(w.luns, w.streams, f), WithoutStreams(w.streams, f);
    assert StreamsOk(luns, streams, w.files);
    DisksKeep(w, luns, streams);
    FileKeeps(w.(luns := luns, streams := streams), f, w.files[f].(pc := Exited));
  }

  // ----- reading a header

  lemma OldestFirst(q: seq<Task>, i: nat)
    requires Ordered(q) && i < |q| && FirstSubmitted(q) == i
    ensures ClaimedBefore(q, q[i].gid)
  {
    forall k | 0 <= k < |q| && q[k].gid < q[i].gid ensures k < i {
    }
  }

  lemma HeaderDescribes(num: uint32, c: Command, stale: seq<byte>)
    requires c.Valid() && c.cdbLen <= 16 && |stale| == 16
    ensures Header(TYPE_C, num, c)[10] <= 16
    ensures var t := ParseHeader(Header(TYPE_C, num, c), stale);
            Describes(t, c) && t.num == num && t.bufflen == c.bufflen
  {
    hide Header, ParseHeader;
    HeaderRoundTrip(TYPE_C, num, c, stale);
  }

  lemma ReadHeaderKeeps(w: World, f: nat)
    requires Safe(w) && Enabled(w, ReadHeader(f))
    ensures Safe(NextReadHeader(w, f))
  {
    hide Header, ParseHeader, Pointers, Accounted, HeadersInOrder, NumOf, WellFormed;
    var file := w.files[f];
    if file.private.None? {
      ExitKeeps(w, f);
    } else {
      AttachedIsUsable(w, f);
      var q := w.sess.value.queue;
      var i := FirstSubmitted(q);
      if i < |q| {
        var c := w.reqs[q[i].gid].cmd;
        assert WellFormed(w.reqs[q[i].gid]);
        CommandFits(w.reqs[q[i].gid]);
        HeaderDescribes(q[i].num, c, file.task.cdb);
        OldestFirst(q, i);
        HeaderKeeps(w, i);
        var w1 := w.(headers := w.headers + [q[i].gid]);
        FileKeeps(w1, f, file.(pc := HasHeader, task := ParseHeader(HeaderOf(w, q[i], TYPE_C), file.task.cdb),
                              gid := q[i].gid));
      }
    }
  }

  lemma CommandFits(r: Request)
    requires WellFormed(r)
    ensures r.cmd.Valid() && r.cmd.cdbLen <= 16 && |r.payload| == r.cmd.bufflen
    ensures UHEADER_SIZE + r.cmd.bufflen <= BUFFER_SIZE
  {
  }

  // ----- claiming it

  lemma HeldFacts(w: World, f: nat)
    requires Safe(w) && f in w.files && Holding(w.files[f].pc)
    ensures Usable(w, w.files[f])
    ensures HoldOk(w.sess.value, w.reqs, w.execs, w.files[f])
    ensures WellFormed(w.reqs[w.files[f].gid])
  {
    hide NumOf, Pointers, Accounted, HeadersInOrder, WellFormed;
    AttachedIsUsable(w, f);
  }

  lemma ClaimKeeps(w: World, f: nat)
    requires Safe(w) && Enabled(w, ClaimTask(f))
    ensures Safe(NextClaim(w, f))
  {
    hide NumOf, IndexOfNum, Pointers, Accounted, HeadersInOrder, WellFormed, QueueOk, Describes;
    HeldFacts(w, f);
    var file, s := w.files[f], w.sess.value;
    var i := IndexOfNum(s.queue, file.task.num);
    var w1 := if i < |s.queue| then w.(sess := Some(MarkReceived(s, i))) else w;
    if i < |s.queue| {
      MarkKeeps(w, i);
    }
    assert HoldOk(w1.sess.value, w1.reqs, w1.execs, file);
    FileKeeps(w1, f, file.(pc := Claimed));
  }

  // ----- fetching data

  /** A claimed target gets new contents of its buffer: nothing here depends on them. */
  lemma LoadKeeps(w: World, f: nat, buffer: seq<byte>)
    requires Safe(w) && Enabled(w, Fetch(f)) && |buffer| == BUFFER_SIZE
    ensures Safe(WithFile(w, f, w.files[f].(pc := HasData, buffer := buffer)))
  {
    hide NumOf, IndexOfNum, Pointers, Accounted, HeadersInOrder, WellFormed, QueueOk, Describes;
    HeldFacts(w, f);
    FileKeeps(w, f, w.files[f].(pc := HasData, buffer := buffer));
  }

  lemma FetchKeeps(w: World, f: nat)
    requires Safe(w) && Enabled(w, Fetch(f))
    ensures Safe(NextFetch(w, f))
  {
    hide NumOf, IndexOfNum, FirstSubmitted, Pointers, Accounted, HeadersInOrder, WellFormed, QueueOk, Describes,
      Header, Lifetime, Exit;
    HeldFacts(w, f);
    var file := w.files[f];
    var q := w.sess.value.queue;
    CommandFits(w.reqs[file.gid]);
    ExitKeeps(w, f);
    var i := if file.task.bufflen == 0 then FirstSubmitted(q) else IndexOfNum(q, file.task.num);
    if i < |q| {
      var r := w.reqs[q[i].gid];
      CommandFits(r);
      if file.task.bufflen == 0 {
        LoadKeeps(w, f, Patch(file.buffer, 0, HeaderOf(w, q[i], TYPE_C)));
      } else {
        LoadKeeps(w, f, Patch(file.buffer, 0, HeaderOf(w, q[i], TYPE_D) + r.payload));
      }
    }
  }

  // ----- running the command

  /** The target decodes the very command the mid layer submitted, and its request buffer is large enough. */
  lemma TargetRunsCommand(file: File, r: Request, mb: nat)
    requires |file.buffer| == BUFFER_SIZE && WellFormed(r) && Describes(file.task, r.cmd)
    requires file.task.bufflen == r.cmd.bufflen
    ensures Decode(file.task.cdb) == Decode(r.cmd.cdb)
    ensures Fits(Decode(file.task.cdb), mb, BUFFER_SIZE - DataOffset(file.task), file.task.bufflen)
    ensures COMPLETION_SIZE + file.task.bufflen <= BUFFER_SIZE
    ensures Decode(r.cmd.cdb).Write? ==> DataOffset(file.task) + Decode(r.cmd.cdb).blocks * BLOCK <= BUFFER_SIZE
  {
    var n := r.cmd.cdbLen as nat;
    assert file.task.cdb[..n][0] == r.cmd.cdb[..n][0];
    DecodeIgnoresStaleBytes(file.task.cdb, r.cmd.cdb, n);
  }

  lemma FinishKeeps(w: World, f: nat, r: Reply, luns: seq<Lun>, streams: map<(nat, nat), Stream>)
    requires Safe(w) && f in w.files && Running(w.files[f])
    requires |r.buffer| == BUFFER_SIZE && SameShape(w.luns, luns) && StreamsOk(luns, streams, w.files)
    requires COMPLETION_SIZE + w.files[f].task.bufflen <= BUFFER_SIZE
    ensures Safe(Finish(w, f, r, luns, streams))
  {
    hide NumOf, IndexOfNum, Pointers, Accounted, WellFormed, QueueOk, SameShape, StreamsOk;
    HeldFacts(w, f);
    var file := w.files[f];
    var len: uint32 := if file.task.direction == DIR_OUT then 0 else file.task.bufflen;
    var e := Ran(file.gid, r.status, ReplyBytes(r.buffer, len));
    DisksKeep(w, luns, streams);
    ExecKeeps(w.(luns := luns, streams := streams), e);
    var w1 := w.(luns := luns, streams := streams, execs := w.execs + [e]);
    assert w1.execs[|w.execs|] == e;
    FileKeeps(w1, f, file.(pc := Executed, buffer := r.buffer, status := r.status, task := file.task.(bufflen := len)));
  }

  /** A command leaves LUN file and stream of the right sizes. */
  lemma AfterRunFits(w: World, f: nat, i: nat, op: Op, data: seq<byte>, keep: Keep)
    requires Safe(w) && f in w.files && w.files[f].private.Some? && w.files[f].pc != Exited && i < |w.luns|
    requires op.Write? && InRange(w.luns[i].mb, op.lba, op.blocks) ==> |data| == op.blocks * BLOCK
    ensures var after := AfterRun(w.luns, w.streams, f, i, op, data, keep);
            SameShape(w.luns, w.luns[i := after.0]) && StreamsOk(w.luns[i := after.0], after.1, w.files)
  {
    hide QueueOk, Pointers, Accounted, Holders, HeadersInOrder, Lifetime, Remembered, FlushedAt, Seen, WriteExtent,
      WellFormed;
  }

  lemma ExecuteKeeps(w: World, f: nat, canned: Canned, keep: Keep)
    requires Safe(w) && Enabled(w, Execute(f, canned, keep))
    ensures Safe(NextExecute(w, f, canned, keep))
  {
    hide NumOf, IndexOfNum, Pointers, Accounted, HeadersInOrder, WellFormed, QueueOk, Describes, Decode, Serve, Fits,
      Finish, Patch, Lifetime, AfterRun, StreamsOk, SameShape, Killed, Exit;
    HeldFacts(w, f);
    var file := w.files[f];
    var at := DataOffset(file.task);
    var op := Decode(file.task.cdb);
    var i := FindLun(w.luns, TaskLun(file.task));
    KilledKeeps(w, f);
    if i < |w.luns| {
      TargetRunsCommand(file, w.reqs[file.gid], w.luns[i].mb);
      if op.Other? {
        assert SameShape(w.luns, w.luns) by { SameShapeSelf(w.luns); }
        FinishKeeps(w, f, Reply(canned.status, w.luns[i].disk, Patch(file.buffer, at, canned.data)), w.luns, w.streams);
      } else {
        var r := Serve(Seen(w.luns, w.streams, f, i), op, Ids(w.luns), file.buffer, at, file.task.bufflen);
        var data := DataOf(file.buffer, at, op);
        AfterRunFits(w, f, i, op, data, keep);
        var after := AfterRun(w.luns, w.streams, f, i, op, data, keep);
        FinishKeeps(w, f, r, w.luns[i := after.0], after.1);
      }
    }
  }

  lemma SameShapeSelf(luns: seq<Lun>)
    ensures SameShape(luns, luns)
  {
  }

  lemma TornKeeps(w: World, f: nat, n: nat, luns: seq<Lun>)
    requires Safe(w) && f in w.files && SameShape(w.luns, luns)
    ensures Safe(Killed(w.(luns := luns, execs := w.execs + [Torn(w.files[f].gid, n)]), f))
  {
    hide QueueOk, Pointers, Accounted, Holders, HeadersInOrder, Shaped, Lifetime, Killed;
    DisksKeep(w, luns, w.streams);
    assert w.(luns := luns, streams := w.streams) == w.(luns := luns);
    ExecKeeps(w.(luns := luns), Torn(w.files[f].gid, n));
    KilledKeeps(w.(luns := luns, execs := w.execs + [Torn(w.files[f].gid, n)]), f);
  }

  lemma DieKeeps(w: World, f: nat, written: nat, sought: bool)
    requires Safe(w) && Enabled(w, Die(f, written, sought))
    ensures Safe(NextDie(w, f, written, sought))
  {
    hide NumOf, IndexOfNum, Pointers, Accounted, HeadersInOrder, WellFormed, QueueOk, Describes, Decode, Fits,
      Lifetime, Killed, FlushedAt, StreamsOk;
    HeldFacts(w, f);
    var file := w.files[f];
    var at := DataOffset(file.task);
    var op := Decode(file.task.cdb);
    var i := FindLun(w.luns, TaskLun(file.task));
    if i == |w.luns| || !sought || !Seeks(op, w.luns[i].mb) {
      TornKeeps(w, f, 0, w.luns);
      assert w.(luns := w.luns, execs := w.execs + [Torn(file.gid, 0)]) == w.(execs := w.execs + [Torn(file.gid, 0)]);
    } else {
      var own := FlushedAt(w.luns, w.streams, f, i);
      TornKeeps(w, f, 0, w.luns[i := own]);
      TargetRunsCommand(file, w.reqs[file.gid], w.luns[i].mb);
      if op.Write? {
        var n := Min(written, op.blocks * BLOCK);
        var disk := WriteExtent(own.disk, op.lba, file.buffer[at..at + n]);
        TornKeeps(w, f, n, w.luns[i := own.(disk := disk)]);
      }
    }
  }

  // ----- completing it

  lemma CompleteKeeps(w: World, f: nat)
    requires Safe(w) && Enabled(w, Complete(f))
    ensures Safe(NextComplete(w, f))
  {
    hide NumOf, IndexOfNum, Pointers, Accounted, HeadersInOrder, WellFormed, QueueOk, Describes, Completion,
      CompletedNum;
    HeldFacts(w, f);
    var file := w.files[f];
    var q := w.sess.value.queue;
    CompletionRoundTrip(file.buffer, file.task.num, file.status, file.task.bufflen);
    var i := IndexOfNum(q, file.task.num);
    var file' := file.(pc := Idle, buffer := Patch(file.buffer, 0, CompletionHead(file.task.num, file.status)));
    FileKeeps(w, f, file');
    if i < |q| {
      CommandFits(w.reqs[q[i].gid]);
      var m := Completion(file.buffer, file.task.num, file.status, file.task.bufflen);
      var r := w.reqs[q[i].gid];
      var data := if m[5] == 0 && |m| > COMPLETION_SIZE then ReplyBytes(file.buffer, r.cmd.bufflen) else r.payload;
      LeaveKeeps(WithFile(w, f, file'), i, Done(q[i].gid, ResultOf(m[5]), data));
    }
  }

  // ----- every step, every run

  /** A session's registrations do not exceed what its one-byte counter holds. */
  predicate Bounded(w: World) {
    w.regs < 256
  }

  lemma StepKeeps(w: World, l: Label)
    requires Safe(w) && Bounded(w) && Enabled(w, l)
    requires Bounded(Next(w, l))
    ensures Safe(Next(w, l))
  {
    hide Lifetime, QueueOk, Pointers, Accounted, Holders, HeadersInOrder, Shaped, StreamsOk;
    hide NextRegister, NextRelease, NextUnregister, NextSubmit, NextAbort, NextReadHeader, NextClaim, NextFetch,
      NextExecute, NextDie, NextComplete, Detach, Attach, Drained, LeaveAll;
    match l
    case Open(f) => OpenKeeps(w, f);
    case Register(f, hostAdded) => RegisterKeeps(w, f, hostAdded);
    case Release(f) => ReleaseKeeps(w, f);
    case Unregister => UnregisterKeeps(w);
    case Submit(req, slot) => SubmitKeeps(w, req, slot);
    case Abort(sc) => AbortKeeps(w, sc);
    case Reset => ResetKeeps(w);
    case ReadHeader(f) => ReadHeaderKeeps(w, f);
    case ClaimTask(f) => ClaimKeeps(w, f);
    case Fetch(f) => FetchKeeps(w, f);
    case Execute(f, canned, keep) => ExecuteKeeps(w, f, canned, keep);
    case Die(f, written, sought) => DieKeeps(w, f, written, sought);
    case Complete(f) => CompleteKeeps(w, f);
  }

  lemma InitHolds(luns: seq<Lun>)
    requires |luns| <= 256 && forall i :: 0 <= i < |luns| ==> luns[i].Sized()
    ensures Safe(Init(luns))
  {
  }

  /** A run: states connected by steps, from a driver without sessions. */
  ghost predicate Run(luns: seq<Lun>, ws: seq<World>, ls: seq<Label>) {
    && |luns| <= 256 && (forall i :: 0 <= i < |luns| ==> luns[i].Sized())
    && |ws| == |ls| + 1 && ws[0] == Init(luns)
    && (forall i :: 0 <= i < |ws| ==> Bounded(ws[i]))
    && (forall i :: 0 <= i < |ls| ==> Shaped(ws[i]) && Enabled(ws[i], ls[i]) && ws[i + 1] == Next(ws[i], ls[i]))
  }

  /** Every state of every run is safe. */
  lemma {:induction false} RunsAreSafe(luns: seq<Lun>, ws: seq<World>, ls: seq<Label>, i: nat)
    requires Run(luns, ws, ls) && i < |ws|
    ensures Safe(ws[i])
  {
    hide Safe, Next, Enabled, Bounded, Shaped;
    if i == 0 {
      InitHolds(luns);
    } else {
      RunsAreSafe(luns, ws, ls, i - 1);
      var k := i - 1;
      assert ws[k + 1] == Next(ws[k], ls[k]);
      StepKeeps(ws[k], ls[k]);
    }
  }

  /** A run can be continued by any step that is enabled and stays within the counter. */
  lemma Extend(luns: seq<Lun>, ws: seq<World>, ls: seq<Label>, l: Label)
    requires Run(luns, ws, ls) && Shaped(ws[|ls|]) && Enabled(ws[|ls|], l) && Bounded(Next(ws[|ls|], l))
    ensures Run(luns, ws + [Next(ws[|ls|], l)], ls + [l])
  {
    hide Shaped, Enabled, Next, Bounded;
    var ws', ls' := ws + [Next(ws[|ls|], l)], ls + [l];
    forall i | 0 <= i < |ls'| ensures Shaped(ws'[i]) && Enabled(ws'[i], ls'[i]) && ws'[i + 1] == Next(ws'[i], ls'[i]) {
      if i < |ls| {
        assert ws'[i] == ws[i] && ws'[i + 1] == ws[i + 1] && ls'[i] == ls[i];
      }
    }
  }
}
