/**
 * A turn of the service loop on the objects of the driver is a run of the protocol: read, claim, fetch, execute and
 * complete, one after the other, lead from a state that stands for the objects before the turn to one that stands for
 * the objects after it.
 */
module Turns {
  import opened Bytes
  import opened Wire
  import opened Queue
  import opened Scsi
  import opened Engine
  import opened ScatterGather
  import opened Protocol
  import opened Invariant
  import opened Steps
  import opened Order
  import opened Continuations
  import opened DataPath
  import G = Guarantees
  import H = Hba
  import V = Service
  import T = Streams

  /** ws follows from its first state by these steps. */
  ghost predicate StepsFrom(ws: seq<World>, ls: seq<Label>) {
    && |ws| == |ls| + 1
    && forall k :: 0 <= k < |ls| ==> Shaped(ws[k]) && Enabled(ws[k], ls[k]) && ws[k + 1] == Next(ws[k], ls[k])
  }

  /** What target f has in its streams is what is in the files. */
  ghost predicate Quiet(luns: seq<Lun>, streams: map<(nat, nat), Stream>, f: nat) {
    forall j: nat :: j < |luns| ==> QuietAt(luns, streams, f, j)
  }

  ghost predicate QuietAt(luns: seq<Lun>, streams: map<(nat, nat), Stream>, f: nat, j: nat)
    requires j < |luns|
  {
    Seen(luns, streams, f, j) == luns[j] && FlushedAt(luns, streams, f, j) == luns[j]
  }

  /** Target f holds task i with its loop at pc and with this request buffer. */
  ghost predicate Midway(w: World, f: nat, pc: Pc, i: nat, buffer: seq<byte>) {
    && Inv(w) && NumbersRecent(w) && w.sess.Some? && i < |w.sess.value.queue|
    && Holds(w, f, w.sess.value.queue[i].gid, pc) && w.files[f].buffer == buffer
    && w.sess.value.queue[i].gid < |w.reqs|
  }

  lemma OwnIndex(w: World, f: nat, pc: Pc, i: nat, buffer: seq<byte>)
    requires Midway(w, f, pc, i, buffer) && Holding(pc)
    ensures IndexOfNum(w.sess.value.queue, w.files[f].task.num) == i
    ensures w.files[f].task.num == w.sess.value.queue[i].num
  {
    hide IndexOfNum, Safe, InOrder, NumbersRecent;
    OwnNumber(w, f);
    SafeOrdered(w);
    var q := w.sess.value.queue;
    assert InQueue(q, q[i].gid);
    assert Ordered(q);
  }

  lemma ReadTurn(w: World, f: nat, i: nat)
    requires Inv(w) && NumbersRecent(w) && w.sess.Some? && i == FirstSubmitted(w.sess.value.queue) < |w.sess.value.queue|
    requires f in w.files && w.files[f].private.Some? && w.files[f].pc == Idle
    ensures Enabled(w, ReadHeader(f)) && Shaped(w)
    ensures var w' := NextReadHeader(w, f);
            Midway(w', f, HasHeader, i, w.files[f].buffer) && w'.sess == w.sess && OnlyTarget(w, f, w')
            && w'.luns == w.luns && w'.streams == w.streams
  {
    hide Safe, InOrder, NumbersRecent, FirstSubmitted, Header, ParseHeader, WellFormed, Flushed, WithoutStreams,
      OnlyTarget;
    InvShaped(w);
    UsableWhenAttached(w, f);
    Reads(w, f);
    TargetFrame(w, f, NextReadHeader(w, f));
  }

  lemma UsableWhenAttached(w: World, f: nat)
    requires Inv(w) && f in w.files && w.files[f].private.Some?
    ensures Usable(w, w.files[f])
  {
    AttachedIsUsable(w, f);
  }

  lemma TargetFrame(w: World, f: nat, w': World)
    ensures OnlyTarget(w, f, w') ==> w'.reqs == w.reqs && w'.log == w.log
  {
  }

  lemma ClaimTurn(w: World, f: nat, i: nat, buffer: seq<byte>)
    requires Midway(w, f, HasHeader, i, buffer)
    ensures Enabled(w, ClaimTask(f)) && Shaped(w)
    ensures var w' := NextClaim(w, f);
            Midway(w', f, Claimed, i, buffer) && OnlyTarget(w, f, w')
            && w'.sess == Some(Claim(w.sess.value, w.sess.value.queue[i].num))
            && w'.luns == w.luns && w'.streams == w.streams
  {
    hide Safe, InOrder, NumbersRecent, IndexOfNum, Flushed, WithoutStreams, Shaped;
    InvShaped(w);
    UsableWhenAttached(w, f);
    OwnIndex(w, f, HasHeader, i, buffer);
    assert InQueue(QueueOf(w), w.files[f].gid);
    Claims(w, f, w.files[f].gid);
  }

  /** The request buffer when the command runs, its own data apart. */
  ghost function Before(w: World, i: nat, buffer: seq<byte>): (b: seq<byte>)
    requires Shaped(w) && w.sess.Some? && i < |w.sess.value.queue| && |buffer| == BUFFER_SIZE
    ensures |b| == BUFFER_SIZE
  {
    var q := w.sess.value.queue;
    var c, j := w.reqs[q[i].gid].cmd, FirstSubmitted(q);
    if c.toDevice && c.bufflen == 0 && j < |q| then Patch(buffer, 0, HeaderOf(w, q[j], TYPE_C)) else buffer
  }

  /** A data-out command without data finds no header. */
  ghost predicate Starved(w: World, i: nat)
    requires w.sess.Some? && i < |w.sess.value.queue| && w.sess.value.queue[i].gid < |w.reqs|
  {
    var q := w.sess.value.queue;
    var c := w.reqs[q[i].gid].cmd;
    c.toDevice && c.bufflen == 0 && FirstSubmitted(q) == |q|
  }

  lemma FetchTurn(w: World, f: nat, i: nat, buffer: seq<byte>)
    requires Midway(w, f, Claimed, i, buffer) && |buffer| == BUFFER_SIZE && !Starved(w, i)
    requires w.reqs[w.sess.value.queue[i].gid].cmd.toDevice
    ensures Enabled(w, Fetch(f)) && Shaped(w)
    ensures var w', q := NextFetch(w, f), w.sess.value.queue;
            && WellFormed(w.reqs[q[i].gid])
            && Midway(w', f, HasData, i, Loaded(q[i].num, w.reqs[q[i].gid], Before(w, i, buffer)))
            && w'.sess == w.sess && OnlyTarget(w, f, w') && w'.luns == w.luns && w'.streams == w.streams
  {
    hide Safe, InOrder, NumbersRecent, IndexOfNum, FirstSubmitted, Flushed, WithoutStreams, Header, WellFormed, Patch,
      ClaimedBefore, HasPayload, QueueOk, Pointers, Accounted;
    InvShaped(w);
    UsableWhenAttached(w, f);
    OwnIndex(w, f, Claimed, i, buffer);
    HeldFacts(w, f);
    ClaimedByHolder(w, f);
    var q, r, w' := w.sess.value.queue, w.reqs[w.files[f].gid], NextFetch(w, f);
    CommandFits(r);
    FetchKeeps(w, f);
    FetchInOrder(w, f);
    if r.cmd.bufflen == 0 {
      CommandFits(w.reqs[q[FirstSubmitted(q)].gid]);
    }
    assert OnlyTarget(w, f, w');
    StillRecentHere(w, f, w', i);
  }

  lemma StillRecentHere(w: World, f: nat, w': World, i: nat)
    requires NumbersRecent(w) && OnlyTarget(w, f, w') && i < |w.sess.value.queue|
    requires w'.files[f].gid == w.sess.value.queue[i].gid
    ensures NumbersRecent(w')
  {
    assert InQueue(w.sess.value.queue, w'.files[f].gid);
    StillRecent(w, f, w');
  }

  /** Nothing of a write stays in the stream. */
  const AllOut: Keep := Keep(0, 0, 0)

  lemma EmptyStream(l: Lun)
    ensures Remembered(l.disk, AllOut) == Stream(0, [], false) && Apply(l, Stream(0, [], false)) == l
  {
    assert l.disk[0..0] == [];
    assert Patch(l.disk, 0, []) == l.disk;
  }

  /** A quiet target whose writes go out at once leaves in the file what the engine made of it, and stays quiet. */
  lemma ServedQuietly(luns: seq<Lun>, streams: map<(nat, nat), Stream>, f: nat, k: nat, op: Op, ids: seq<byte>,
                      buffer: seq<byte>, at: nat, size: nat)
    requires k < |luns| && luns[k].Sized() && |ids| <= 256 && !op.Other? && at <= |buffer|
    requires Fits(op, luns[k].mb, |buffer| - at, size) && Quiet(luns, streams, f)
    ensures op.Write? && InRange(luns[k].mb, op.lba, op.blocks) ==> |DataOf(buffer, at, op)| == op.blocks * BLOCK
    ensures var r := Serve(luns[k], op, ids, buffer, at, size);
            var after := AfterRun(luns, streams, f, k, op, DataOf(buffer, at, op), AllOut);
            after.0 == luns[k].(disk := r.disk) && Quiet(luns[k := after.0], after.1, f)
  {
    hide Apply, Remembered;
    var r := Serve(luns[k], op, ids, buffer, at, size);
    var data := DataOf(buffer, at, op);
    assert QuietAt(luns, streams, f, k);
    if !Seeks(op, luns[k].mb) {
      T.ServedBlind(luns[k], luns[k], op, ids, buffer, at, size);
      assert luns[k].(disk := luns[k].disk) == luns[k] && luns[k := luns[k]] == luns;
    } else {
      assert data[..|data|] == data;
      EmptyStream(luns[k]);
      EmptyStream(luns[k].(disk := r.disk));
      var after := AfterRun(luns, streams, f, k, op, data, AllOut);
      assert after == (luns[k].(disk := r.disk), streams[(f, k) := Stream(0, [], false)]);
      var luns' := luns[k := after.0];
      forall j: nat | j < |luns| ensures QuietAt(luns', after.1, f, j) {
        assert QuietAt(luns, streams, f, j);
      }
    }
  }

  /** Target f has run task i: the engine's reply is in its request buffer and on the disk. */
  ghost predicate HasRun(w: World, f: nat, i: nat, reply: Reply) {
    && Midway(w, f, Executed, i, reply.buffer) && w.files[f].status == reply.status
    && w.files[f].task.bufflen == (var c := w.reqs[w.sess.value.queue[i].gid].cmd; if c.toDevice then 0 else c.bufflen)
    && Quiet(w.luns, w.streams, f)
  }

  /** Where a target's loop is when it runs this command. */
  function ReadyToRun(c: Command): Pc {
    if c.toDevice then HasData else Claimed
  }

  lemma ExecuteTurn(w: World, f: nat, i: nat, k: nat, before: seq<byte>, canned: Canned)
    requires w.sess.Some? && i < |w.sess.value.queue| && w.sess.value.queue[i].gid < |w.reqs|
    requires |before| == BUFFER_SIZE && |canned.data| <= MAX_TRANSFER && Quiet(w.luns, w.streams, f)
    requires var q := w.sess.value.queue[i];
             && WellFormed(w.reqs[q.gid])
             && Midway(w, f, ReadyToRun(w.reqs[q.gid].cmd), i, Loaded(q.num, w.reqs[q.gid], before))
             && k == FindLun(w.luns, w.reqs[q.gid].cmd.lun % 256) < |w.luns|
    ensures Shaped(w) && Enabled(w, Execute(f, canned, AllOut))
    ensures var w', q := NextExecute(w, f, canned, AllOut), w.sess.value.queue[i];
            var reply := RunOnLun(w.luns[k], Ids(w.luns), q.num, w.reqs[q.gid], before, canned);
            && HasRun(w', f, i, reply) && w'.sess == w.sess && w'.log == w.log && w'.reqs == w.reqs
            && w'.luns == w.luns[k := w.luns[k].(disk := reply.disk)]
  {
    hide Safe, InOrder, NumbersRecent, Serve, Decode, Fits, AfterRun, WellFormed, Loaded, Quiet, FindLun, Seen,
      HoldOk, ReplyBytes;
    var gid := w.files[f].gid;
    var r := w.reqs[gid];
    InvShaped(w);
    SafeShape(w);
    HeldFacts(w, f);
    HeldIs(w, f);
    var file := w.files[f];
    TargetRunsCommand(file, r, w.luns[k].mb);
    assert InQueue(QueueOf(w), gid);
    Executes(w, f, gid, canned, AllOut);
    var op, at := Decode(file.task.cdb), DataOffset(file.task);
    if op.Other? {
      assert w.luns[k := w.luns[k]] == w.luns;
    } else {
      ServedQuietly(w.luns, w.streams, f, k, op, Ids(w.luns), file.buffer, at, file.task.bufflen);
      QuietHere(w, f, k);
    }
  }

  lemma QuietHere(w: World, f: nat, k: nat)
    requires Quiet(w.luns, w.streams, f) && k < |w.luns|
    ensures Seen(w.luns, w.streams, f, k) == w.luns[k]
  {
    assert QuietAt(w.luns, w.streams, f, k);
  }

  lemma SafeShape(w: World)
    requires Inv(w)
    ensures Safe(w)
  {
  }

  lemma HeldIs(w: World, f: nat)
    requires Safe(w) && f in w.files && Holding(w.files[f].pc) && w.files[f].pc != Executed
    ensures w.sess.Some? && w.files[f].gid < |w.reqs|
    ensures var file, c := w.files[f], w.reqs[w.files[f].gid].cmd;
            Describes(file.task, c) && file.task.bufflen == c.bufflen && |file.buffer| == BUFFER_SIZE
  {
    hide Describes;
    HeldFacts(w, f);
  }

  lemma CompleteTurn(w: World, f: nat, i: nat, reply: Reply, mem: seq<byte>, segs: seq<Sg>)
    requires HasRun(w, f, i, reply) && InMemory(|mem|, segs) && Disjoint(segs)
    requires var r := w.reqs[w.sess.value.queue[i].gid]; r.payload == Gather(mem, segs) && Total(segs) == r.cmd.bufflen
    ensures Shaped(w) && Enabled(w, Complete(f))
    ensures var w', q := NextComplete(w, f), w.sess.value.queue[i];
            && COMPLETION_SIZE + w.reqs[q.gid].cmd.bufflen <= |reply.buffer|
            && Inv(w') && NumbersRecent(w') && w'.sess == Some(Remove(w.sess.value, i)) && w'.luns == w.luns
            && w'.reqs == w.reqs && Quiet(w'.luns, w'.streams, f)
            && f in w'.files && w'.files[f].private.Some? && w'.files[f].pc == Idle
            && |w'.files[f].buffer| == BUFFER_SIZE
            && w'.files[f].buffer == Patch(reply.buffer, 0, CompletionHead(q.num, reply.status))
            && w'.log == w.log + [Done(q.gid, ResultOf(reply.status),
                                       Gather(Landed(mem, segs, w.reqs[q.gid].cmd, reply), segs))]
  {
    hide Safe, InOrder, NumbersRecent, IndexOfNum, NextComplete, Quiet, ReplyBytes, Gather, Total, ResultOf, Landed,
      Remove;
    InvShaped(w);
    SafeShape(w);
    OwnIndex(w, f, Executed, i, reply.buffer);
    G.CompletionStep(w, f);
    CompleteKeeps(w, f);
    CompleteInOrder(w, f);
    UsableWhenAttached(w, f);
    StaysAttached(w, f);
    DataBack(reply, w.reqs[w.sess.value.queue[i].gid], mem, segs);
    RemovedIsRecent(w, f, i, NextComplete(w, f));
    InvShaped(NextComplete(w, f));
  }

  lemma StaysAttached(w: World, f: nat)
    requires Shaped(w) && Enabled(w, Complete(f)) && Usable(w, w.files[f])
    requires COMPLETION_SIZE + w.files[f].task.bufflen <= BUFFER_SIZE
    ensures f in NextComplete(w, f).files
    ensures var file, file' := w.files[f], NextComplete(w, f).files[f];
            file' == file.(pc := Idle, buffer := Patch(file.buffer, 0, CompletionHead(file.task.num, file.status)))
  {
    hide WellFormed, IndexOfNum, Completion, CompletionHead, CompletedNum, Patch, ReplyBytes, Below, Remove;
  }

  /** What the mid layer finds in the command's buffer is what memory holds in its segments. */
  lemma DataBack(reply: Reply, r: Request, mem: seq<byte>, segs: seq<Sg>)
    requires InMemory(|mem|, segs) && Disjoint(segs) && r.payload == Gather(mem, segs) && Total(segs) == r.cmd.bufflen
    requires COMPLETION_SIZE + r.cmd.bufflen <= |reply.buffer|
    ensures Gather(Landed(mem, segs, r.cmd, reply), segs) ==
            if reply.status == GOOD && !r.cmd.toDevice && r.cmd.bufflen > 0 then ReplyBytes(reply.buffer, r.cmd.bufflen)
            else r.payload
  {
    hide Gather, Scatter, Total;
    if reply.status == GOOD && !r.cmd.toDevice && r.cmd.bufflen > 0 {
      GatherScatter(mem, segs, ReplyBytes(reply.buffer, r.cmd.bufflen));
    }
  }

  lemma RemovedIsRecent(w: World, f: nat, i: nat, w': World)
    requires NumbersRecent(w) && w.sess.Some? && i < |w.sess.value.queue| && w'.reqs == w.reqs
    requires f in w.files && f in w'.files && w'.files == w.files[f := w'.files[f]] && !Holding(w'.files[f].pc)
    requires w'.sess == Some(Remove(w.sess.value, i))
    ensures NumbersRecent(w')
  {
    var q := w.sess.value.queue;
    assert forall k :: 0 <= k < |q| - 1 ==> Without(q, i)[k] == q[if k < i then k else k + 1];
  }

  // ----- the objects and the state that stands for them

  /** The state w stands for a session with this view and these tasks, for memory and for LUNs. */
  ghost predicate StandsFor(w: World, v: Session, tasks: seq<H.Task>, mem: seq<byte>, luns: seq<Lun>) {
    && w.sess == Some(v) && w.luns == luns && |tasks| == |v.queue|
    && forall j :: 0 <= j < |tasks| ==> tasks[j].sc.command.Valid() && SameTask(w.reqs, v.queue[j], tasks[j], mem)
  }

  ghost predicate SameTask(reqs: seq<Request>, q: Task, t: H.Task, mem: seq<byte>) {
    && q.gid < |reqs| && q.num == t.cmdNumber && InMemory(|mem|, t.sc.segs)
    && reqs[q.gid] == V.RequestOf(t.sc, mem)
  }

  /** A target of its own is about to take a turn. */
  ghost predicate Waits(w: World, f: nat) {
    && Inv(w) && NumbersRecent(w) && f in w.files && w.files[f].private.Some? && w.files[f].pc == Idle
    && Quiet(w.luns, w.streams, f) && |w.files[f].buffer| == BUFFER_SIZE
  }

  /** The segments of a task overlap neither each other nor those of other tasks. */
  ghost predicate OwnSegments(tasks: seq<H.Task>, i: nat)
    requires i < |tasks|
  {
    && Disjoint(tasks[i].sc.segs)
    && forall j :: 0 <= j < |tasks| && j != i ==> Disjoint(tasks[i].sc.segs + tasks[j].sc.segs)
  }

  /** Claiming changes no task but its flag. */
  lemma ClaimStands(w: World, v: Session, tasks: seq<H.Task>, mem: seq<byte>, luns: seq<Lun>, num: uint32, w': World)
    requires StandsFor(w, v, tasks, mem, luns)
    requires w'.sess == Some(Claim(v, num)) && w'.reqs == w.reqs && w'.luns == luns
    ensures StandsFor(w', Claim(v, num), tasks, mem, luns)
  {
    hide V.RequestOf, IndexOfNum;
    forall j | 0 <= j < |tasks| ensures SameTask(w'.reqs, Claim(v, num).queue[j], tasks[j], mem) {
      assert SameTask(w.reqs, v.queue[j], tasks[j], mem);
    }
  }

  /** The reply of a turn lands in the segments of its own command only. */
  lemma LandedStands(w: World, v: Session, tasks: seq<H.Task>, mem: seq<byte>, luns: seq<Lun>, i: nat, reply: Reply,
                     w': World)
    requires StandsFor(w, v, tasks, mem, luns) && i < |tasks| && OwnSegments(tasks, i)
    requires Total(tasks[i].sc.segs) == tasks[i].sc.command.bufflen
    requires COMPLETION_SIZE + tasks[i].sc.command.bufflen <= |reply.buffer|
    requires w'.sess == Some(Remove(v, i)) && w'.reqs == w.reqs
    requires InMemory(|mem|, tasks[i].sc.segs)
    ensures StandsFor(w', Remove(v, i), Without(tasks, i), Landed(mem, tasks[i].sc.segs, tasks[i].sc.command, reply),
                      w'.luns)
  {
    hide Gather, Scatter, Total;
    var sc, tasks', v' := tasks[i].sc, Without(tasks, i), Remove(v, i);
    var mem' := Landed(mem, sc.segs, sc.command, reply);
    forall k | 0 <= k < |tasks'| ensures SameTask(w'.reqs, v'.queue[k], tasks'[k], mem') {
      var j := if k < i then k else k + 1;
      assert tasks'[k] == tasks[j] && v'.queue[k] == v.queue[j] && SameTask(w.reqs, v.queue[j], tasks[j], mem);
      if reply.status == GOOD && !sc.command.toDevice && sc.command.bufflen > 0 {
        ScatterKeepsOthers(mem, sc.segs, reply.buffer[COMPLETION_SIZE..COMPLETION_SIZE + sc.command.bufflen],
                           tasks[j].sc.segs);
      }
    }
  }

  // ----- the turn

  lemma OneStep(w: World, l: Label)
    requires Shaped(w) && Enabled(w, l)
    ensures StepsFrom([w, Next(w, l)], [l])
  {
    hide Shaped, Enabled, Next;
  }

  /** Steps after steps. */
  lemma Join(ws: seq<World>, ls: seq<Label>, ws': seq<World>, ls': seq<Label>)
    requires StepsFrom(ws, ls) && StepsFrom(ws', ls') && ws'[0] == ws[|ls|]
    ensures StepsFrom(ws + ws'[1..], ls + ls')
    ensures (ws + ws'[1..])[0] == ws[0] && (ws + ws'[1..])[|ls + ls'|] == ws'[|ls'|]
  {
    hide Shaped, Enabled, Next;
    var ws2, ls2 := ws + ws'[1..], ls + ls';
    forall k | 0 <= k < |ls2| ensures Shaped(ws2[k]) && Enabled(ws2[k], ls2[k]) && ws2[k + 1] == Next(ws2[k], ls2[k]) {
      assert k >= |ls| ==> ws2[k] == ws'[k - |ls|] && ws2[k + 1] == ws'[k - |ls| + 1] && ls2[k] == ls'[k - |ls|];
      assert k < |ls| ==> ws2[k] == ws[k] && ws2[k + 1] == ws[k + 1] && ls2[k] == ls[k];
    }
  }

  /** Header and claim. */
  lemma Begins(w: World, f: nat, v: Session, tasks: seq<H.Task>, mem: seq<byte>, luns: seq<Lun>, i: nat)
    returns (ws: seq<World>, ls: seq<Label>)
    requires Waits(w, f) && StandsFor(w, v, tasks, mem, luns) && i == FirstSubmitted(v.queue) < |tasks|
    ensures StepsFrom(ws, ls) && ws[0] == w
    ensures var w' := ws[|ls|];
            && StandsFor(w', Claim(v, v.queue[i].num), tasks, mem, luns) && Midway(w', f, Claimed, i, w.files[f].buffer)
            && w'.log == w.log && Quiet(w'.luns, w'.streams, f)
  {
    hide Inv, Shaped, NumbersRecent, OnlyTarget, Quiet, FirstSubmitted, NextReadHeader, NextClaim, SameTask,
      IndexOfNum;
    ReadTurn(w, f, i);
    var w1 := NextReadHeader(w, f);
    TargetFrame(w, f, w1);
    ClaimTurn(w1, f, i, w.files[f].buffer);
    var w2 := NextClaim(w1, f);
    TargetFrame(w1, f, w2);
    ClaimStands(w, v, tasks, mem, luns, v.queue[i].num, w2);
    ws, ls := [w, w1, w2], [ReadHeader(f), ClaimTask(f)];
  }

  lemma SameCommand(w: World, v: Session, tasks: seq<H.Task>, mem: seq<byte>, luns: seq<Lun>)
    requires Shaped(w) && StandsFor(w, v, tasks, mem, luns)
    ensures forall j :: 0 <= j < |tasks| ==>
              tasks[j].sc.command.Valid() && w.reqs[v.queue[j].gid].cmd == tasks[j].sc.command
  {
    forall j | 0 <= j < |tasks| ensures tasks[j].sc.command.Valid() && w.reqs[v.queue[j].gid].cmd == tasks[j].sc.command {
      assert SameTask(w.reqs, v.queue[j], tasks[j], mem);
      assert WellFormed(w.reqs[v.queue[j].gid]);
    }
  }

  /** The request buffer is that of the turn on the objects. */
  lemma SameBuffer(w: World, v: Session, tasks: seq<H.Task>, mem: seq<byte>, luns: seq<Lun>, i: nat, buffer: seq<byte>)
    requires Shaped(w) && StandsFor(w, v, tasks, mem, luns) && i < |tasks| && |buffer| == BUFFER_SIZE
    ensures forall j :: 0 <= j < |tasks| ==> tasks[j].sc.command.Valid()
    ensures Before(w, i, buffer) == V.Headed(v.queue, tasks, tasks[i].sc.command, buffer)
    ensures v.queue[i].gid < |w.reqs| && (Starved(w, i) <==> V.Starves(v.queue, tasks[i].sc.command))
  {
    hide Shaped, SameTask, FirstSubmitted, Header;
    SameCommand(w, v, tasks, mem, luns);
    var j := FirstSubmitted(v.queue);
    if j < |tasks| {
      SameNumber(w.reqs, v.queue[j], tasks[j], mem);
    }
    SameNumber(w.reqs, v.queue[i], tasks[i], mem);
  }

  lemma SameNumber(reqs: seq<Request>, q: Task, t: H.Task, mem: seq<byte>)
    requires SameTask(reqs, q, t, mem)
    ensures q.gid < |reqs| && q.num == t.cmdNumber && InMemory(|mem|, t.sc.segs) && reqs[q.gid] == V.RequestOf(t.sc, mem)
    ensures reqs[q.gid].cmd == t.sc.command && reqs[q.gid].payload == Gather(mem, t.sc.segs)
  {
  }

  /** The target is where it runs task i, with its data in place. */
  ghost predicate InPlace(w: World, f: nat, v: Session, tasks: seq<H.Task>, mem: seq<byte>, luns: seq<Lun>, i: nat,
                          before: seq<byte>)
  {
    && StandsFor(w, v, tasks, mem, luns) && i < |tasks| && |before| == BUFFER_SIZE && Quiet(luns, w.streams, f)
    && var r := w.reqs[v.queue[i].gid];
    WellFormed(r) && Midway(w, f, ReadyToRun(r.cmd), i, Loaded(v.queue[i].num, r, before))
  }

  /** Data for a command that takes data out, or the end of the target. */
  lemma Loads(w: World, f: nat, v: Session, tasks: seq<H.Task>, mem: seq<byte>, luns: seq<Lun>, i: nat, buffer: seq<byte>)
    returns (ws: seq<World>, ls: seq<Label>)
    requires StandsFor(w, v, tasks, mem, luns) && Midway(w, f, Claimed, i, buffer) && Quiet(luns, w.streams, f)
    ensures |buffer| == BUFFER_SIZE && i < |tasks| && forall j :: 0 <= j < |tasks| ==> tasks[j].sc.command.Valid()
    ensures StepsFrom(ws, ls) && ws[0] == w && ws[|ls|].log == w.log
    ensures V.Starves(v.queue, tasks[i].sc.command) ==> Stopped(ws[|ls|], f, v, tasks, mem, luns)
    ensures !V.Starves(v.queue, tasks[i].sc.command) ==>
              InPlace(ws[|ls|], f, v, tasks, mem, luns, i, V.Headed(v.queue, tasks, tasks[i].sc.command, buffer))
  {
    hide Inv, NumbersRecent, OnlyTarget, Quiet, NextFetch, SameTask, V.Starves, V.Headed, Before, Starved, Shaped,
      Stopped, Loaded, WellFormed;
    BufferSized(w, f, Claimed, i, buffer);
    SameBuffer(w, v, tasks, mem, luns, i, buffer);
    SameCommand(w, v, tasks, mem, luns);
    if tasks[i].sc.command.toDevice {
      Fetchable(w, f, i, buffer);
      OneStep(w, Fetch(f));
      ws, ls := [w, NextFetch(w, f)], [Fetch(f)];
      if Starved(w, i) {
        GivesUp(w, f, i, buffer, v, tasks, mem, luns);
      } else {
        FetchTurn(w, f, i, buffer);
        TargetFrame(w, f, NextFetch(w, f));
      }
    } else {
      ws, ls := [w], [];
      NotStarved(w, i, v, tasks[i].sc.command, buffer);
    }
  }

  /** The target process is gone, and nothing else has changed. */
  ghost predicate Stopped(w: World, f: nat, v: Session, tasks: seq<H.Task>, mem: seq<byte>, luns: seq<Lun>) {
    StandsFor(w, v, tasks, mem, luns) && f in w.files && w.files[f].pc == Exited
  }

  lemma BufferSized(w: World, f: nat, pc: Pc, i: nat, buffer: seq<byte>)
    requires Midway(w, f, pc, i, buffer)
    ensures Shaped(w) && |buffer| == BUFFER_SIZE
    ensures WellFormed(w.reqs[w.sess.value.queue[i].gid])
  {
    hide WellFormed;
    InvShaped(w);
  }

  lemma Fetchable(w: World, f: nat, i: nat, buffer: seq<byte>)
    requires Midway(w, f, Claimed, i, buffer) && w.reqs[w.sess.value.queue[i].gid].cmd.toDevice
    ensures Shaped(w) && Enabled(w, Fetch(f))
  {
    hide InOrder, Safe, NumbersRecent;
    InvShaped(w);
    SafeShape(w);
    HeldIs(w, f);
  }

  lemma GivesUp(w: World, f: nat, i: nat, buffer: seq<byte>, v: Session, tasks: seq<H.Task>, mem: seq<byte>,
                luns: seq<Lun>)
    requires Midway(w, f, Claimed, i, buffer) && Shaped(w) && Enabled(w, Fetch(f)) && Starved(w, i)
    requires StandsFor(w, v, tasks, mem, luns) && Quiet(w.luns, w.streams, f)
    ensures Stopped(NextFetch(w, f), f, v, tasks, mem, luns) && NextFetch(w, f).log == w.log
  {
    hide Inv, NumbersRecent, Shaped, SameTask, FirstSubmitted, IndexOfNum, WellFormed, WithoutStreams, Header;
    UsableWhenAttached(w, f);
    InvShaped(w);
    Lengths(w, f);
    FlushedQuietly(w.luns, w.streams, f);
  }

  lemma Lengths(w: World, f: nat)
    requires Inv(w) && f in w.files && w.files[f].pc == Claimed
    ensures w.files[f].gid < |w.reqs| && w.files[f].task.bufflen == w.reqs[w.files[f].gid].cmd.bufflen
  {
    hide InOrder, Safe;
    SafeShape(w);
    HeldIs(w, f);
  }

  lemma FlushedQuietly(luns: seq<Lun>, streams: map<(nat, nat), Stream>, f: nat)
    requires Quiet(luns, streams, f)
    ensures Flushed(luns, streams, f) == luns
  {
    forall j: nat | j < |luns| ensures FlushedAt(luns, streams, f, j) == luns[j] {
      assert QuietAt(luns, streams, f, j);
    }
  }

  lemma NotStarved(w: World, i: nat, v: Session, c: Command, buffer: seq<byte>)
    requires Shaped(w) && w.sess == Some(v) && i < |v.queue| && w.reqs[v.queue[i].gid].cmd == c && !c.toDevice
    requires |buffer| == BUFFER_SIZE
    ensures !V.Starves(v.queue, c) && Before(w, i, buffer) == buffer
    ensures WellFormed(w.reqs[v.queue[i].gid])
    ensures Loaded(v.queue[i].num, w.reqs[v.queue[i].gid], buffer) == buffer
  {
    hide WellFormed;
  }

  /** The run and its completion, or the end of the target. */
  lemma Runs(w: World, f: nat, v: Session, tasks: seq<H.Task>, mem: seq<byte>, luns: seq<Lun>, i: nat, before: seq<byte>,
             canned: Canned) returns (ws: seq<World>, ls: seq<Label>)
    requires InPlace(w, f, v, tasks, mem, luns, i, before) && OwnSegments(tasks, i)
    requires V.Servable(tasks[i].sc, luns, mem) && V.Plausible(canned)
    ensures StepsFrom(ws, ls) && ws[0] == w
    ensures !V.HasLun(tasks[i].sc, luns) ==> Stopped(ws[|ls|], f, v, tasks, mem, luns) && ws[|ls|].log == w.log
    ensures V.HasLun(tasks[i].sc, luns) ==>
              var sc, w' := tasks[i].sc, ws[|ls|];
              var reply := V.RunOf(sc, tasks[i].cmdNumber, luns, mem, before, canned);
              && COMPLETION_SIZE + sc.command.bufflen <= |reply.buffer|
              && var mem' := Landed(mem, sc.segs, sc.command, reply);
              && Waits(w', f) && StandsFor(w', Remove(v, i), Without(tasks, i), mem', V.LunsAfter(sc, luns, reply))
              && w'.log == w.log + [Done(v.queue[i].gid, ResultOf(reply.status), Gather(mem', sc.segs))]
              && w'.files[f].buffer == Patch(reply.buffer, 0, CompletionHead(tasks[i].cmdNumber, reply.status))
  {
    hide Inv, NumbersRecent, Quiet, NextExecute, NextComplete, SameTask, Shaped, Landed, Gather, Total, FindLun, Ids,
      OwnSegments, WellFormed, Loaded, Stopped, ResultOf;
    var sc := tasks[i].sc;
    SameNumber(w.reqs, v.queue[i], tasks[i], mem);
    var k := FindLun(luns, sc.command.lun % 256);
    var l := Execute(f, canned, AllOut);
    if k < |luns| {
      ExecuteTurn(w, f, i, k, before, canned);
      OneStep(w, l);
      var w1 := NextExecute(w, f, canned, AllOut);
      var reply := V.RunOf(sc, tasks[i].cmdNumber, luns, mem, before, canned);
      OwnDisjoint(tasks, i);
      CompleteTurn(w1, f, i, reply, mem, sc.segs);
      OneStep(w1, Complete(f));
      var w2 := NextComplete(w1, f);
      ws, ls := [w, w1, w2], [l, Complete(f)];
      LandedStands(w, v, tasks, mem, luns, i, reply, w2);
    } else {
      Crashes(w, f, v, tasks, mem, luns, i, before, canned);
      OneStep(w, l);
      ws, ls := [w, NextExecute(w, f, canned, AllOut)], [l];
    }
  }

  lemma OwnDisjoint(tasks: seq<H.Task>, i: nat)
    requires i < |tasks| && OwnSegments(tasks, i)
    ensures Disjoint(tasks[i].sc.segs)
  {
  }

  lemma Crashes(w: World, f: nat, v: Session, tasks: seq<H.Task>, mem: seq<byte>, luns: seq<Lun>, i: nat,
                before: seq<byte>, canned: Canned)
    requires InPlace(w, f, v, tasks, mem, luns, i, before) && |canned.data| <= MAX_TRANSFER
    requires FindLun(luns, w.reqs[v.queue[i].gid].cmd.lun % 256) == |luns|
    ensures Shaped(w) && Enabled(w, Execute(f, canned, AllOut))
    ensures var w' := NextExecute(w, f, canned, AllOut); Stopped(w', f, v, tasks, mem, luns) && w'.log == w.log
  {
    hide InOrder, Safe, NumbersRecent, SameTask, FindLun, WellFormed, WithoutStreams, Loaded, Quiet, Decode, Serve,
      Fits;
    InvShaped(w);
    SafeShape(w);
    HeldIs(w, f);
  }

  /** The next turn of target f serves task i. */
  ghost predicate Due(w: World, f: nat, v: Session, tasks: seq<H.Task>, mem: seq<byte>, luns: seq<Lun>, i: nat) {
    && Waits(w, f) && StandsFor(w, v, tasks, mem, luns) && i == FirstSubmitted(v.queue) < |tasks|
    && OwnSegments(tasks, i) && V.Servable(tasks[i].sc, luns, mem)
  }

  /** The session with this task claimed. */
  ghost function Taken(v: Session, i: nat): (v': Session)
    requires i < |v.queue|
    ensures |v'.queue| == |v.queue| && v'.queue[i].gid == v.queue[i].gid
  {
    Claim(v, v.queue[i].num)
  }

  /** The request buffer in which the task is run, its own data apart. */
  ghost function Found(w: World, f: nat, v: Session, tasks: seq<H.Task>, mem: seq<byte>, luns: seq<Lun>, i: nat)
    : (before: seq<byte>)
    requires Due(w, f, v, tasks, mem, luns, i)
    ensures |before| == BUFFER_SIZE
  {
    V.Headed(Taken(v, i).queue, tasks, tasks[i].sc.command, w.files[f].buffer)
  }

  /** As on the objects, a command that can be run has left the queue and been handed back, with its reply in memory and
      on the disk, and the target waits for the next one. */
  ghost predicate Served(w: World, f: nat, w': World, v: Session, tasks: seq<H.Task>, mem: seq<byte>, luns: seq<Lun>,
                         i: nat, canned: Canned)
    requires Due(w, f, v, tasks, mem, luns, i) && V.HasLun(tasks[i].sc, luns) && V.Plausible(canned)
  {
    var sc := tasks[i].sc;
    var reply := V.RunOf(sc, tasks[i].cmdNumber, luns, mem, Found(w, f, v, tasks, mem, luns, i), canned);
    && COMPLETION_SIZE + sc.command.bufflen <= |reply.buffer|
    && var mem' := Landed(mem, sc.segs, sc.command, reply);
    && Waits(w', f)
    && StandsFor(w', Remove(Taken(v, i), i), Without(tasks, i), mem', V.LunsAfter(sc, luns, reply))
    && w'.log == w.log + [Done(v.queue[i].gid, ResultOf(reply.status), Gather(mem', sc.segs))]
    && w'.files[f].buffer == Patch(reply.buffer, 0, CompletionHead(tasks[i].cmdNumber, reply.status))
  }

  /** Every turn of the service loop is a run of the protocol; if it cannot be run the target is gone and the command
      stays claimed. */
  lemma TurnIsRun(w: World, f: nat, v: Session, tasks: seq<H.Task>, mem: seq<byte>, luns: seq<Lun>, i: nat,
                  canned: Canned)
    returns (ws: seq<World>, ls: seq<Label>)
    requires Due(w, f, v, tasks, mem, luns, i) && V.Plausible(canned)
    ensures StepsFrom(ws, ls) && ws[0] == w
    ensures var fate := V.Fate(Taken(v, i).queue, tasks[i].sc, luns);
            if fate.GoesOn? then Served(w, f, ws[|ls|], v, tasks, mem, luns, i, canned)
            else Stopped(ws[|ls|], f, Taken(v, i), tasks, mem, luns) && ws[|ls|].log == w.log
  {
    hide Inv, NumbersRecent, Quiet, SameTask, Shaped, Landed, Gather, OwnSegments, Stopped, FirstSubmitted,
      V.Servable, V.RunOf, V.LunsAfter, V.Headed, IndexOfNum, V.HasLun, V.Starves, V.Plausible, Next, Enabled;
    ws, ls := Begins(w, f, v, tasks, mem, luns, i);
    var v' := Taken(v, i);
    var ws1, ls1 := Loads(ws[|ls|], f, v', tasks, mem, luns, i, w.files[f].buffer);
    Join(ws, ls, ws1, ls1);
    ws, ls := ws + ws1[1..], ls + ls1;
    if !V.Starves(v'.queue, tasks[i].sc.command) {
      var ws2, ls2 := Runs(ws[|ls|], f, v', tasks, mem, luns, i, Found(w, f, v, tasks, mem, luns, i), canned);
      Join(ws, ls, ws2, ls2);
      ws, ls := ws + ws2[1..], ls + ls2;
    }
  }

  /** So after a turn on the objects there is a run of the protocol to a state that stands for them again, and its last
      event is the hand-back that the objects have seen. */
  lemma TurnSimulated(w: World, f: nat, v: Session, tasks: seq<H.Task>, i: nat, canned: Canned, s: H.Session,
                      t: V.T.TargetData, task: UserScsiTask, memory: array<byte>, handed: seq<H.ScsiCmnd>, luns: seq<Lun>,
                      mem: seq<byte>)
    returns (ws: seq<World>, ls: seq<Label>)
    requires Due(w, f, v, tasks, mem, luns, i) && !V.Starves(Taken(v, i).queue, tasks[i].sc.command)
    requires V.Turned(s, tasks[i], i, t, task, memory, Taken(v, i), handed, luns, mem,
                      Found(w, f, v, tasks, mem, luns, i), canned)
    ensures StepsFrom(ws, ls) && ws[0] == w && Waits(ws[|ls|], f) && ws[|ls|].files[f].buffer == task.request_buffer[..]
    ensures StandsFor(ws[|ls|], s.View(), Without(tasks, i), memory[..], V.T.Views(t.luns))
    ensures InMemory(memory.Length, tasks[i].sc.segs)
    ensures ws[|ls|].log == w.log + [Done(v.queue[i].gid, tasks[i].sc.result, Gather(memory[..], tasks[i].sc.segs))]
  {
    hide Waits, OwnSegments, FirstSubmitted, V.Servable, V.RunOf, V.LunsAfter, Found, Gather, Landed, V.HasLun,
      V.Starves, V.Plausible, V.T.Views, H.Session.View, StepsFrom, H.Session.Valid, V.T.TargetData.Valid, SameTask,
      IndexOfNum, Total, StandsFor, Taken;
    V.ServableParts(tasks[i].sc, luns, mem);
    V.StatusOfRun(tasks[i].sc, tasks[i].cmdNumber, luns, mem, Found(w, f, v, tasks, mem, luns, i), canned);
    ws, ls := TurnIsRun(w, f, v, tasks, mem, luns, i, canned);
  }
}
