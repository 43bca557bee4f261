/**
 * What every reachable state of the protocol satisfies, however many commands have been accepted, and why the steps
 * of the mid layer and of registration keep it.
 */
module Invariant {
  import opened Bytes
  import opened Wire
  import opened Queue
  import opened Scsi
  import opened Engine
  import opened Protocol

  // ----- the invariant, part by part

  predicate Holding(pc: Pc) {
    pc == HasHeader || pc == Claimed || pc == HasData || pc == Executed
  }

  function Attached(files: map<nat, File>): set<nat> {
    set f | f in files && files[f].private.Some?
  }

  /** Session lifetime. */
  ghost predicate Lifetime(w: World) {
    && !w.broken
    && |Attached(w.files)| <= w.regs
    && (forall f :: f in w.files && w.files[f].private.Some? ==> Live(w, w.files[f]))
    && (forall f :: f in w.files && Holding(w.files[f].pc) ==> w.files[f].private.Some?)
    && match w.sess
       case None => w.regs == 0
       case Some(s) => 0 < w.incs && s.open as nat == w.regs % 256 && (s.ready <==> w.regs > 0)
  }

  /** The queue and its counters. */
  ghost predicate QueueOk(s: Session, next: nat) {
    && Counting(s, next)
    && Numbered(s.queue, s.base)
    && Ordered(s.queue)
    && Below(s.queue, next)
    && s.cmdNumbers == |s.queue| % TWO32
  }

  /** SCp.ptr of a command is non-null exactly when it points to that command's queued task. */
  ghost predicate Pointers(q: seq<Task>, ptr: map<nat, nat>, reqs: seq<Request>) {
    && (forall i :: 0 <= i < |q| ==> q[i].gid < |reqs| && reqs[q[i].gid].sc == q[i].sc)
    && (forall i :: 0 <= i < |q| ==> q[i].sc in ptr && ptr[q[i].sc] == q[i].gid)
    && (forall sc :: sc in ptr ==> ptr[sc] < |reqs| && reqs[ptr[sc]].sc == sc && InQueue(q, ptr[sc]))
  }

  ghost predicate InQueue(q: seq<Task>, gid: nat) {
    exists i :: 0 <= i < |q| && q[i].gid == gid
  }

  ghost predicate InLog(log: seq<Event>, gid: nat) {
    exists i :: 0 <= i < |log| && log[i].gid == gid
  }

  /** Every accepted command is queued or has left once. */
  ghost predicate Accounted(q: seq<Task>, log: seq<Event>, accepted: nat) {
    && accepted == |q| + |log|
    && (forall i :: 0 <= i < |log| ==> log[i].gid < accepted && !InQueue(q, log[i].gid))
    && (forall i, j :: 0 <= i < j < |log| ==> log[i].gid != log[j].gid)
    && (forall gid :: 0 <= gid < accepted ==> InQueue(q, gid) || InLog(log, gid))
  }

  /** The user task describes this command; bufflen is cleared once a data-out command has run. */
  predicate Describes(t: UserTask, c: Command) {
    && |t.cdb| == 16 && |c.cdb| == 16 && c.cdbLen <= 16
    && t.direction == Direction(c) && t.lun == c.lun
    && t.cdb[..c.cdbLen as nat] == c.cdb[..c.cdbLen as nat]
  }

  ghost predicate ClaimedBefore(q: seq<Task>, gid: nat) {
    forall i :: 0 <= i < |q| && q[i].gid < gid ==> q[i].flag == Received
  }

  /** What a target knows about the command it holds. */
  ghost predicate HoldOk(s: Session, reqs: seq<Request>, execs: seq<Exec>, file: File)
    requires |file.buffer| == BUFFER_SIZE
  {
    && s.base <= file.gid < |reqs|
    && file.task.num == NumOf(file.gid - s.base)
    && Describes(file.task, reqs[file.gid].cmd)
    && ClaimedBefore(s.queue, file.gid)
    && (file.pc != Executed ==> file.task.bufflen == reqs[file.gid].cmd.bufflen)
    && (file.pc == HasData ==> file.task.direction == DIR_OUT)
    && (file.pc == Executed ==> HasReply(file, reqs[file.gid], execs))
  }

  ghost predicate HasReply(file: File, r: Request, execs: seq<Exec>)
    requires |file.buffer| == BUFFER_SIZE
  {
    && file.task.bufflen == (if r.cmd.toDevice then 0 else r.cmd.bufflen)
    && COMPLETION_SIZE + file.task.bufflen <= BUFFER_SIZE
    && Ran(file.gid, file.status, ReplyBytes(file.buffer, file.task.bufflen)) in execs
  }

  ghost predicate Holders(w: World)
    requires Shaped(w)
  {
    forall f :: f in w.files && Holding(w.files[f].pc) ==>
      w.sess.Some? && HoldOk(w.sess.value, w.reqs, w.execs, w.files[f])
  }

  /** Headers have been read in the order of acceptance, and everything older than the last one is claimed. */
  ghost predicate HeadersInOrder(q: seq<Task>, headers: seq<nat>, accepted: nat) {
    && (forall k :: 0 <= k < |headers| ==> headers[k] < accepted && ClaimedBefore(q, headers[k]))
    && (forall i, j :: 0 <= i < j < |headers| ==> headers[i] <= headers[j])
  }

  /** Streams belong to living targets that have registered, and lie within their LUN files. */
  ghost predicate StreamsOk(luns: seq<Lun>, streams: map<(nat, nat), Stream>, files: map<nat, File>) {
    forall k :: k in streams ==>
      && k.0 in files && files[k.0].private.Some? && files[k.0].pc != Exited
      && k.1 < |luns| && streams[k].pos + |streams[k].bytes| <= |luns[k.1].disk|
  }

  function QueueOf(w: World): seq<Task> {
    if w.sess.Some? then w.sess.value.queue else []
  }

  ghost predicate Safe(w: World) {
    && Shaped(w)
    && Lifetime(w)
    && (w.sess.Some? ==> QueueOk(w.sess.value, |w.reqs|))
    && Pointers(QueueOf(w), w.ptr, w.reqs)
    && Accounted(QueueOf(w), w.log, |w.reqs|)
    && Holders(w)
    && HeadersInOrder(QueueOf(w), w.headers, |w.reqs|)
    && StreamsOk(w.luns, w.streams, w.files)
  }

  // ----- changes of one file

  lemma AttachedSame(files: map<nat, File>, f: nat, file: File)
    requires f in files && file.private == files[f].private
    ensures Attached(files[f := file]) == Attached(files)
  {
  }

  /** A step that only moves one target along keeps the invariant if what the target then knows is right. */
  lemma FileKeeps(w: World, f: nat, file: File)
    requires Safe(w) && f in w.files
    requires file.private == w.files[f].private && |file.buffer| == BUFFER_SIZE && |file.task.cdb| == 16
    requires Holding(file.pc) ==> w.sess.Some? && file.private.Some? && HoldOk(w.sess.value, w.reqs, w.execs, file)
    requires file.pc == Exited ==> forall k :: k in w.streams ==> k.0 != f
    ensures Safe(WithFile(w, f, file))
  {
    hide QueueOk, Pointers, Accounted, HeadersInOrder, HoldOk;
    AttachedSame(w.files, f, file);
  }

  // ----- a task leaves the queue

  lemma WithoutOrder(q: seq<Task>, i: nat)
    requires i < |q|
    ensures Ordered(q) ==> Ordered(Without(q, i))
    ensures forall g :: ClaimedBefore(q, g) ==> ClaimedBefore(Without(q, i), g)
    ensures forall k :: 0 <= k < |q| - 1 ==> Without(q, i)[k] == q[if k < i then k else k + 1]
  {
  }

  lemma WithoutMembers(q: seq<Task>, i: nat, gid: nat)
    requires i < |q| && Ordered(q)
    ensures InQueue(Without(q, i), gid) <==> InQueue(q, gid) && gid != q[i].gid
  {
    var r := Without(q, i);
    if InQueue(q, gid) && gid != q[i].gid {
      var k :| 0 <= k < |q| && q[k].gid == gid;
      assert r[if k < i then k else k - 1] == q[k];
    }
    if InQueue(r, gid) {
      var k :| 0 <= k < |r| && r[k].gid == gid;
      assert q[if k < i then k else k + 1] == r[k];
    }
  }

  lemma LeaveKeepsPointers(q: seq<Task>, ptr: map<nat, nat>, reqs: seq<Request>, i: nat)
    requires i < |q| && Ordered(q) && Pointers(q, ptr, reqs)
    ensures Pointers(Without(q, i), ptr - {q[i].sc}, reqs)
  {
    var r, p := Without(q, i), ptr - {q[i].sc};
    WithoutOrder(q, i);
    forall k | 0 <= k < |r| ensures r[k].sc in p && p[r[k].sc] == r[k].gid {
      var j := if k < i then k else k + 1;
      assert r[k] == q[j] && ptr[q[j].sc] == q[j].gid && ptr[q[i].sc] == q[i].gid;
    }
    forall sc | sc in p ensures InQueue(r, p[sc]) {
      WithoutMembers(q, i, p[sc]);
      assert reqs[q[i].gid].sc == q[i].sc;
    }
  }

  lemma LeaveKeepsAccount(q: seq<Task>, log: seq<Event>, accepted: nat, i: nat, e: Event)
    requires i < |q| && Ordered(q) && Below(q, accepted) && Accounted(q, log, accepted) && e.gid == q[i].gid
    ensures Accounted(Without(q, i), log + [e], accepted)
  {
    var r, l := Without(q, i), log + [e];
    assert InQueue(q, q[i].gid);
    forall k | 0 <= k < |l| ensures l[k].gid < accepted && !InQueue(r, l[k].gid) {
      WithoutMembers(q, i, l[k].gid);
    }
    forall gid | 0 <= gid < accepted ensures InQueue(r, gid) || InLog(l, gid) {
      WithoutMembers(q, i, gid);
      if gid == q[i].gid {
        assert l[|log|].gid == gid;
      } else if InLog(log, gid) {
        var k :| 0 <= k < |log| && log[k].gid == gid;
        assert l[k].gid == gid;
      }
    }
  }

  lemma LeaveKeepsQueue(s: Session, next: nat, i: nat)
    requires QueueOk(s, next) && i < |s.queue|
    ensures QueueOk(Remove(s, i), next)
  {
    hide NumOf;
    WithoutOrder(s.queue, i);
    CountDown(|s.queue|);
  }

  lemma CountDown(n: nat)
    requires n > 0
    ensures (n % TWO32 + TWO32 - 1) % TWO32 == (n - 1) % TWO32
  {
  }

  /** Nothing that was claimed is unclaimed by going from q to q'. */
  ghost predicate KeepsClaims(q: seq<Task>, q': seq<Task>) {
    forall g :: ClaimedBefore(q, g) ==> ClaimedBefore(q', g)
  }

  /** A step that changes the queue of the live session, with the pointers and the log that go with it. */
  lemma SessionKeeps(w: World, s': Session, ptr: map<nat, nat>, log: seq<Event>)
    requires Safe(w) && w.sess.Some?
    requires s'.base == w.sess.value.base && s'.open == w.sess.value.open && s'.ready == w.sess.value.ready
    requires QueueOk(s', |w.reqs|) && Pointers(s'.queue, ptr, w.reqs) && Accounted(s'.queue, log, |w.reqs|)
    requires KeepsClaims(w.sess.value.queue, s'.queue)
    ensures Safe(w.(sess := Some(s'), ptr := ptr, log := log))
  {
    hide QueueOk, Pointers, Accounted, ClaimedBefore;
    var w' := w.(sess := Some(s'), ptr := ptr, log := log);
    assert Shaped(w') by {
      assert Below(s'.queue, |w.reqs|) by { QueueIsBelow(s', |w.reqs|); }
    }
    forall f | f in w'.files && Holding(w'.files[f].pc)
      ensures HoldOk(s', w'.reqs, w'.execs, w'.files[f])
    {
      assert HoldOk(w.sess.value, w.reqs, w.execs, w.files[f]);
    }
    forall k | 0 <= k < |w.headers| ensures ClaimedBefore(s'.queue, w.headers[k]) {
      assert ClaimedBefore(w.sess.value.queue, w.headers[k]);
    }
  }

  lemma QueueIsBelow(s: Session, next: nat)
    requires QueueOk(s, next)
    ensures Below(s.queue, next)
  {
  }

  lemma LeaveKeeps(w: World, i: nat, e: Event)
    requires Safe(w) && w.sess.Some? && i < |w.sess.value.queue| && e.gid == w.sess.value.queue[i].gid
    ensures Safe(Leave(w, i, e))
  {
    hide Pointers, Accounted, ClaimedBefore, HoldOk;
    var s := w.sess.value;
    LeaveKeepsPointers(s.queue, w.ptr, w.reqs, i);
    LeaveKeepsAccount(s.queue, w.log, |w.reqs|, i, e);
    LeaveKeepsQueue(s, |w.reqs|, i);
    WithoutOrder(s.queue, i);
    SessionKeeps(w, Remove(s, i), w.ptr - {s.queue[i].sc}, w.log + [e]);
  }

  // ----- a task is claimed

  lemma MarkKeepsPointers(q: seq<Task>, i: nat, ptr: map<nat, nat>, reqs: seq<Request>, log: seq<Event>)
    requires i < |q| && Pointers(q, ptr, reqs) && Accounted(q, log, |reqs|)
    ensures var q' := q[i := q[i].(flag := Received)]; Pointers(q', ptr, reqs) && Accounted(q', log, |reqs|)
  {
    var q' := q[i := q[i].(flag := Received)];
    assert forall k :: 0 <= k < |q| ==> q'[k].gid == q[k].gid && q'[k].sc == q[k].sc;
    assert forall gid :: InQueue(q, gid) ==> InQueue(q', gid) by {
      forall gid | InQueue(q, gid) ensures InQueue(q', gid) {
        var k :| 0 <= k < |q| && q[k].gid == gid;
        assert q'[k].gid == gid;
      }
    }
    forall gid | InQueue(q', gid) ensures InQueue(q, gid) {
      var k :| 0 <= k < |q'| && q'[k].gid == gid;
      assert q[k].gid == gid;
    }
  }

  lemma MarkKeepsQueue(s: Session, next: nat, i: nat)
    requires QueueOk(s, next) && i < |s.queue|
    ensures QueueOk(MarkReceived(s, i), next)
    ensures KeepsClaims(s.queue, MarkReceived(s, i).queue)
  {
    hide NumOf;
    var q' := MarkReceived(s, i).queue;
    assert forall k :: 0 <= k < |q'| ==> q'[k].gid == s.queue[k].gid && q'[k].num == s.queue[k].num;
    assert forall k :: 0 <= k < |q'| && k != i ==> q'[k] == s.queue[k];
  }

  /** Claiming a task, whichever it is. */
  lemma MarkKeeps(w: World, i: nat)
    requires Safe(w) && w.sess.Some? && i < |w.sess.value.queue|
    ensures Safe(w.(sess := Some(MarkReceived(w.sess.value, i))))
  {
    hide HoldOk, Pointers, Accounted, QueueOk;
    var s := w.sess.value;
    assert QueueOk(s, |w.reqs|);
    MarkKeepsPointers(s.queue, i, w.ptr, w.reqs, w.log);
    MarkKeepsQueue(s, |w.reqs|, i);
    SessionKeeps(w, MarkReceived(s, i), w.ptr, w.log);
  }

  // ----- the queue is emptied

  lemma CountToZero(n: nat)
    ensures (n % TWO32 - n) % TWO32 == 0
  {
    assert n == n / TWO32 * TWO32 + n % TWO32;
    assert n % TWO32 - n == (-(n / TWO32)) * TWO32;
  }

  lemma EmptiedAccount(q: seq<Task>, log: seq<Event>, events: seq<Event>, accepted: nat)
    requires Ordered(q) && Below(q, accepted) && Accounted(q, log, accepted)
    requires |events| == |q| && forall i :: 0 <= i < |q| ==> events[i].gid == q[i].gid
    ensures Accounted([], log + events, accepted)
  {
    var l := log + events;
    forall i, j | 0 <= i < j < |l| ensures l[i].gid != l[j].gid {
      if i < |log| <= j {
        assert q[j - |log|].gid == l[j].gid && InQueue(q, l[j].gid);
      } else if |log| <= i {
        assert q[i - |log|].gid < q[j - |log|].gid;
      }
    }
    forall gid | 0 <= gid < accepted ensures InLog(l, gid) {
      if InQueue(q, gid) {
        var k :| 0 <= k < |q| && q[k].gid == gid;
        assert l[|log| + k].gid == gid;
      } else {
        var k :| 0 <= k < |log| && log[k].gid == gid;
        assert l[k].gid == gid;
      }
    }
  }

  lemma EmptiedPointers(q: seq<Task>, ptr: map<nat, nat>, reqs: seq<Request>)
    requires Pointers(q, ptr, reqs)
    ensures ptr - QueuedCommands(q) == map[]
  {
    forall sc | sc in ptr ensures sc in QueuedCommands(q) {
      var k :| 0 <= k < |q| && q[k].gid == ptr[sc];
      assert q[k].sc == sc;
    }
  }

  lemma ResetKeeps(w: World)
    requires Safe(w) && w.sess.Some?
    ensures Safe(Next(w, Reset))
  {
    hide HoldOk, NumOf;
    var s := w.sess.value;
    EmptiedPointers(s.queue, w.ptr, w.reqs);
    EmptiedAccount(s.queue, w.log, DropAll(s.queue), |w.reqs|);
    CountToZero(|s.queue|);
    SessionKeeps(w, Drained(s), map[], w.log + DropAll(s.queue));
  }

  lemma NoneAttached(files: map<nat, File>)
    requires |Attached(files)| == 0
    ensures forall f :: f in files ==> files[f].private.None?
  {
    forall f | f in files ensures files[f].private.None? {
      assert f !in Attached(files);
    }
  }

  /** Without a session, and without files attached to one, only the record of the past matters. */
  lemma NoSessionSafe(w: World)
    requires Shaped(w) && !w.broken && w.sess.None? && w.regs == 0 && w.ptr == map[] && Accounted([], w.log, |w.reqs|)
    requires forall f :: f in w.files ==> w.files[f].private.None? && !Holding(w.files[f].pc)
    requires HeadersInOrder([], w.headers, |w.reqs|) && StreamsOk(w.luns, w.streams, w.files)
    ensures Safe(w)
  {
    hide Shaped, Accounted, HoldOk, HeadersInOrder;
    assert Attached(w.files) == {};
  }

  lemma EmptiedHeaders(q: seq<Task>, headers: seq<nat>, accepted: nat)
    requires HeadersInOrder(q, headers, accepted)
    ensures HeadersInOrder([], headers, accepted)
  {
  }

  lemma UnregisterKeeps(w: World)
    requires Safe(w) && w.regs < 256
    ensures Safe(NextUnregister(w))
  {
    hide NumOf, Numbered, Counting, WellFormed, Accounted, Holders, Pointers, HeadersInOrder;
    if w.sess.Some? && w.sess.value.open == 0 {
      assert Below(w.sess.value.queue, |w.reqs|);
      var s := w.sess.value;
      NoneAttached(w.files);
      EmptiedPointers(s.queue, w.ptr, w.reqs);
      EmptiedAccount(s.queue, w.log, DisconnectAll(s.queue, w.reqs), |w.reqs|);
      EmptiedHeaders(s.queue, w.headers, |w.reqs|);
      NoSessionSafe(NextUnregister(w));
    }
  }

  // ----- a command is accepted

  lemma AcceptKeepsPointers(q: seq<Task>, t: Task, ptr: map<nat, nat>, reqs: seq<Request>, req: Request)
    requires Pointers(q, ptr, reqs) && Below(q, |reqs|)
    requires t.gid == |reqs| && t.sc == req.sc && forall i :: 0 <= i < |q| ==> q[i].sc != req.sc
    ensures Pointers(q + [t], ptr[req.sc := |reqs|], reqs + [req])
  {
    var q', p', r' := q + [t], ptr[req.sc := |reqs|], reqs + [req];
    assert q'[|q|] == t && r'[|reqs|] == req;
    forall sc | sc in p' ensures p'[sc] < |r'| && r'[p'[sc]].sc == sc && InQueue(q', p'[sc]) {
      if sc != req.sc {
        var k :| 0 <= k < |q| && q[k].gid == ptr[sc];
        assert q'[k] == q[k];
      }
    }
  }

  lemma AcceptKeepsAccount(q: seq<Task>, t: Task, log: seq<Event>, accepted: nat)
    requires Accounted(q, log, accepted) && t.gid == accepted
    ensures Accounted(q + [t], log, accepted + 1)
  {
    var q' := q + [t];
    assert q'[|q|] == t;
    forall i | 0 <= i < |log| ensures !InQueue(q', log[i].gid) {
      forall k | 0 <= k < |q'| ensures q'[k].gid != log[i].gid {
        assert k < |q| ==> q'[k] == q[k] && !InQueue(q, log[i].gid);
      }
    }
    forall gid | 0 <= gid < accepted + 1 ensures InQueue(q', gid) || InLog(log, gid) {
      if gid < accepted && InQueue(q, gid) {
        var k :| 0 <= k < |q| && q[k].gid == gid;
        assert q'[k].gid == gid;
      }
    }
  }

  lemma AcceptKeepsQueue(s: Session, next: nat, sc: nat)
    requires QueueOk(s, next)
    ensures QueueOk(Accept(s, next, sc), next + 1)
  {
    hide NumOf;
    AcceptCounts(s, next, sc);
    assert (s.cmdNumbers + 1) % TWO32 == (|s.queue| + 1) % TWO32;
  }

  lemma AcceptKeepsHold(s: Session, reqs: seq<Request>, req: Request, execs: seq<Exec>, file: File)
    requires |file.buffer| == BUFFER_SIZE && HoldOk(s, reqs, execs, file)
    ensures HoldOk(Accept(s, |reqs|, req.sc), reqs + [req], execs, file)
  {
    hide NumOf, Describes, HasReply;
    assert (reqs + [req])[file.gid] == reqs[file.gid];
  }

  lemma SubmitKeeps(w: World, req: Request, slot: bool)
    requires Safe(w) && Enabled(w, Submit(req, slot))
    ensures Safe(NextSubmit(w, req, slot))
  {
    hide NumOf, QueueOk, Pointers, Accounted, HoldOk;
    var s := w.sess.value;
    assert Pointers(s.queue, w.ptr, w.reqs);
    QueueIsBelow(s, |w.reqs|);
    if s.ready && !slot {
      NotPending(s.queue, w.ptr, w.reqs, req.sc);
      assert w.ptr - {req.sc} == w.ptr;
    } else if s.ready {
      var t := Task(|w.reqs|, req.sc, NextNumber(s), Submitted);
      AcceptKeepsQueue(s, |w.reqs|, req.sc);
      QueueIsBelow(Accept(s, |w.reqs|, req.sc), |w.reqs| + 1);
      AcceptKeepsPointers(s.queue, t, w.ptr, w.reqs, req);
      AcceptKeepsAccount(s.queue, t, w.log, |w.reqs|);
      var w' := NextSubmit(w, req, slot);
      forall f | f in w'.files && Holding(w'.files[f].pc)
        ensures HoldOk(w'.sess.value, w'.reqs, w'.execs, w'.files[f])
      {
        AcceptKeepsHold(s, w.reqs, req, w.execs, w.files[f]);
      }
    }
  }

  lemma NotPending(q: seq<Task>, ptr: map<nat, nat>, reqs: seq<Request>, sc: nat)
    requires Pointers(q, ptr, reqs) && forall i :: 0 <= i < |q| ==> q[i].sc != sc
    ensures sc !in ptr
  {
    if sc in ptr {
      assert false;
    }
  }

  /** A non-null SCp.ptr points to a queued task, which is that command's. */
  lemma PendingTask(q: seq<Task>, ptr: map<nat, nat>, reqs: seq<Request>, sc: nat)
    requires Pointers(q, ptr, reqs) && sc in ptr
    ensures var i := IndexOfTask(q, ptr[sc]); i < |q| && q[i].gid == ptr[sc] && q[i].sc == sc
  {
    var k :| 0 <= k < |q| && q[k].gid == ptr[sc];
  }

  lemma AbortKeeps(w: World, sc: nat)
    requires Safe(w) && w.sess.Some?
    ensures Safe(NextAbort(w, sc))
  {
    hide HoldOk, Accounted, QueueOk, Pointers, IndexOfTask, Leave;
    if sc in w.ptr {
      var q := w.sess.value.queue;
      PendingTask(q, w.ptr, w.reqs, sc);
      LeaveKeeps(w, IndexOfTask(q, w.ptr[sc]), Dropped(w.ptr[sc]));
    }
  }

  // ----- a command runs

  lemma ExecKeeps(w: World, e: Exec)
    requires Safe(w)
    ensures Safe(w.(execs := w.execs + [e]))
  {
    hide QueueOk, Pointers, Accounted, ClaimedBefore;
    var w' := w.(execs := w.execs + [e]);
    forall f | f in w'.files && Holding(w'.files[f].pc)
      ensures HoldOk(w'.sess.value, w'.reqs, w'.execs, w'.files[f])
    {
      assert HoldOk(w.sess.value, w.reqs, w.execs, w.files[f]);
    }
  }

  /** The contents of LUN files and streams matter to nothing else. */
  lemma DisksKeep(w: World, luns: seq<Lun>, streams: map<(nat, nat), Stream>)
    requires Safe(w) && SameShape(w.luns, luns) && StreamsOk(luns, streams, w.files)
    ensures Safe(w.(luns := luns, streams := streams))
  {
    hide QueueOk, Pointers, Accounted, HoldOk;
  }

  /** The LUNs are the same ones, whatever is in their files. */
  ghost predicate SameShape(luns: seq<Lun>, luns': seq<Lun>) {
    && |luns'| == |luns|
    && forall i :: 0 <= i < |luns| ==>
         luns'[i].id == luns[i].id && luns'[i].mb == luns[i].mb && |luns'[i].disk| == |luns[i].disk|
  }

  /** Looking a LUN up depends on the numbers only. */
  lemma {:induction false} SameIds(a: seq<Lun>, b: seq<Lun>, id: byte)
    requires |a| == |b| && forall i :: 0 <= i < |a| ==> a[i].id == b[i].id
    ensures FindLun(a, id) == FindLun(b, id)
  {
    if a == [] {
    } else {
      SameIds(a[1..], b[1..], id);
    }
  }

  // ----- a header is read

  lemma HeaderKeeps(w: World, i: nat)
    requires Safe(w) && w.sess.Some? && i < |w.sess.value.queue|
    requires w.sess.value.queue[i].flag == Submitted && ClaimedBefore(w.sess.value.queue, w.sess.value.queue[i].gid)
    ensures Safe(w.(headers := w.headers + [w.sess.value.queue[i].gid]))
  {
    hide QueueOk, Pointers, Accounted, HoldOk;
    var q := w.sess.value.queue;
    var g := q[i].gid;
    forall k | 0 <= k < |w.headers| ensures w.headers[k] <= g {
      assert ClaimedBefore(q, w.headers[k]);
    }
    assert HeadersInOrder(q, w.headers + [g], |w.reqs|);
  }

  // ----- files come and go

  lemma QueueOkFrame(s: Session, s': Session, next: nat)
    requires QueueOk(s, next)
    requires s'.queue == s.queue && s'.base == s.base && s'.nextNum == s.nextNum && s'.cmdNumbers == s.cmdNumbers
    ensures QueueOk(s', next)
  {
  }

  lemma HoldOkFrame(s: Session, s': Session, reqs: seq<Request>, execs: seq<Exec>, file: File)
    requires |file.buffer| == BUFFER_SIZE && HoldOk(s, reqs, execs, file)
    requires s'.queue == s.queue && s'.base == s.base
    ensures HoldOk(s', reqs, execs, file)
  {
  }

  lemma NewSessionOk(next: nat)
    ensures QueueOk(Attach(NewSession(next)), next)
  {
  }

  /** A step that attaches or detaches files and leaves the queue alone. */
  lemma AttachmentKeeps(w: World, w': World)
    requires Safe(w) && Lifetime(w')
    requires w'.reqs == w.reqs && w'.ptr == w.ptr && w'.log == w.log && w'.luns == w.luns && w'.execs == w.execs
    requires StreamsOk(w'.luns, w'.streams, w'.files)
    requires w'.headers == w.headers
    requires w.sess.Some? ==>
               w'.sess.Some? && w'.sess.value.(open := 0, ready := false) == w.sess.value.(open := 0, ready := false)
    requires w.sess.None? && w'.sess.Some? ==> w'.sess.value == Attach(NewSession(|w.reqs|))
    requires forall f :: f in w'.files ==> |w'.files[f].buffer| == BUFFER_SIZE && |w'.files[f].task.cdb| == 16
    requires forall f :: f in w'.files && Holding(w'.files[f].pc) ==> f in w.files && w'.files[f] == w.files[f]
    ensures Safe(w')
  {
    hide Pointers, Accounted, QueueOk, HoldOk, HeadersInOrder, Lifetime;
    if w.sess.Some? {
      QueueOkFrame(w.sess.value, w'.sess.value, |w.reqs|);
      QueueIsBelow(w'.sess.value, |w.reqs|);
    } else {
      NewSessionOk(|w.reqs|);
    }
    forall f | f in w'.files && Holding(w'.files[f].pc)
      ensures w'.sess.Some? && HoldOk(w'.sess.value, w'.reqs, w'.execs, w'.files[f])
    {
      HoldOkFrame(w.sess.value, w'.sess.value, w.reqs, w.execs, w.files[f]);
    }
  }

  lemma RegisterLifetime(w: World, f: nat, hostAdded: bool)
    requires Shaped(w) && Lifetime(w) && f in w.files && w.files[f].pc == Idle
    requires NextRegister(w, f, hostAdded).regs < 256
    ensures Lifetime(NextRegister(w, f, hostAdded))
  {
    hide Shaped;
    if w.sess.Some? {
      AttachedMore(w.files, f, w.files[f].(private := Some(Current(w))));
    } else if hostAdded {
      NoneAttached(w.files);
      AttachedMore(w.files, f, w.files[f].(private := Some(w.incs)));
    }
  }

  lemma AttachedMore(files: map<nat, File>, f: nat, file: File)
    requires f in files && file.private.Some?
    ensures |Attached(files[f := file])| <= |Attached(files)| + 1
  {
    assert Attached(files[f := file]) == Attached(files) + {f};
  }

  lemma AttachedLess(files: map<nat, File>, f: nat)
    requires f in files
    ensures |Attached(files - {f})| == |Attached(files)| - (if files[f].private.Some? then 1 else 0)
  {
    assert Attached(files - {f}) == Attached(files) - {f};
  }

  lemma ReleaseLifetime(w: World, f: nat)
    requires Lifetime(w) && f in w.files && w.regs < 256
    ensures Lifetime(NextRelease(w, f))
  {
    hide Attached;
    AttachedLess(w.files, f);
    var w' := NextRelease(w, f);
    assert forall g :: g in w'.files ==> w'.files[g] == w.files[g];
  }

  lemma OpenLifetime(w: World, f: nat, file: File)
    requires Lifetime(w) && f !in w.files && file.private.None? && file.pc == Idle
    ensures Lifetime(WithFile(w, f, file))
  {
    assert Attached(w.files[f := file]) == Attached(w.files);
  }

  lemma OpenKeeps(w: World, f: nat)
    requires Safe(w) && f !in w.files
    ensures Safe(Next(w, Open(f)))
  {
    hide QueueOk, Pointers, Accounted, HeadersInOrder, HoldOk, Lifetime;
    var w' := Next(w, Open(f));
    OpenLifetime(w, f, w'.files[f]);
    AttachmentKeeps(w, w');
  }

  lemma RegisterKeeps(w: World, f: nat, hostAdded: bool)
    requires Safe(w) && f in w.files && w.files[f].pc == Idle
    requires NextRegister(w, f, hostAdded).regs < 256
    ensures Safe(NextRegister(w, f, hostAdded))
  {
    hide Lifetime, Pointers, Accounted, QueueOk, HoldOk, HeadersInOrder;
    RegisterLifetime(w, f, hostAdded);
    if NextRegister(w, f, hostAdded) != w {
      AttachmentKeeps(w, NextRegister(w, f, hostAdded));
    }
  }

  lemma ReleaseKeeps(w: World, f: nat)
    requires Safe(w) && f in w.files && w.regs < 256
    ensures Safe(NextRelease(w, f))
  {
    hide Pointers, Accounted, QueueOk, HoldOk, HeadersInOrder;
    ReleaseLifetime(w, f);
    AttachmentKeeps(w, NextRelease(w, f));
  }
}
