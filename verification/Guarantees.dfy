/** What holds of every run, and where the limits are. */
module Guarantees {
  import opened Bytes
  import opened Wire
  import opened Queue
  import opened Scsi
  import opened Engine
  import opened Protocol
  import opened Invariant
  import opened Steps
  import opened Order
  import opened Streams
  import opened BlockDevice
  import opened Refinement
  import opened OneTarget

  // ----- delivery

  /** With any number of targets, and whatever numbers have been reused, headers are read in the order of acceptance. */
  lemma HeadersAreOrdered(luns: seq<Lun>, ws: seq<World>, ls: seq<Label>, n: nat)
    requires Run(luns, ws, ls) && n < |ws|
    ensures forall i, j :: 0 <= i < j < |ws[n].headers| ==> ws[n].headers[i] <= ws[n].headers[j]
    ensures forall k, i :: (0 <= k < |ws[n].headers| && 0 <= i < |QueueOf(ws[n])|
                            && QueueOf(ws[n])[i].gid < ws[n].headers[k]) ==>
              QueueOf(ws[n])[i].flag == Received
  {
    hide Pointers, Accounted, Holders, NumOf, Shaped, Lifetime, Next, Enabled, QueueOk, StreamsOk;
    RunsAreSafe(luns, ws, ls, n);
    assert HeadersInOrder(QueueOf(ws[n]), ws[n].headers, |ws[n].reqs|);
  }

  /** The first k tasks are claimed, the others are not, and all are in the order of acceptance. */
  ghost predicate TwoBlocks(q: seq<Task>, k: nat) {
    && k <= |q|
    && (forall i :: 0 <= i < k ==> q[i].flag == Received)
    && (forall i :: k <= i < |q| ==> q[i].flag == Submitted)
    && (forall i, j :: 0 <= i < j < |q| ==> q[i].gid < q[j].gid)
  }

  /** While numbers are recent, the queue is a block of claimed commands followed by a block of unclaimed ones. */
  lemma DeliveryInOrder(luns: seq<Lun>, ws: seq<World>, ls: seq<Label>, n: nat)
    requires RecentRun(luns, ws, ls) && n < |ws|
    ensures TwoBlocks(QueueOf(ws[n]), FirstSubmitted(QueueOf(ws[n])))
  {
    hide Safe, FirstSubmitted, Run, NumbersRecent;
    RunsKeepInv(luns, ws, ls, n);
    SafeOrdered(ws[n]);
    var q := QueueOf(ws[n]);
    forall i | FirstSubmitted(q) <= i < |q| ensures q[i].flag == Submitted {
    }
  }

  /** A header read returns the oldest unclaimed command: everything queued before it has been claimed. */
  lemma HeaderIsOldest(w: World, f: nat)
    requires Safe(w) && Enabled(w, ReadHeader(f))
    requires NextReadHeader(w, f).files[f].pc == HasHeader
    ensures var g, q := NextReadHeader(w, f).files[f].gid, QueueOf(w);
            && (exists i :: 0 <= i < |q| && q[i].gid == g && q[i].flag == Submitted)
            && (forall i :: 0 <= i < |q| && q[i].flag == Submitted ==> g <= q[i].gid)
            && (forall i :: 0 <= i < |q| && q[i].gid < g ==> q[i].flag == Received)
            && NextReadHeader(w, f).headers == w.headers + [g]
  {
    hide Pointers, Accounted, HoldOk, NumOf, WellFormed, Header, ParseHeader, HeadersInOrder, StreamsOk, Flushed,
      WithoutStreams;
    var q := QueueOf(w);
    var i := FirstSubmitted(q);
    if i < |q| {
      OldestFirst(q, i);
      assert q[i].gid == NextReadHeader(w, f).files[f].gid;
    }
  }

  // ----- hand-back

  /** Every accepted command is either queued, or has left the queue by exactly one hand-back or drop, however late
      completions come and whatever numbers they carry.  The driver's count of pending commands is exact modulo 2^32. */
  lemma ExactlyOneHandBack(luns: seq<Lun>, ws: seq<World>, ls: seq<Label>, n: nat)
    requires Run(luns, ws, ls) && n < |ws|
    ensures var w := ws[n];
            && |w.reqs| == |QueueOf(w)| + |w.log|
            && (forall gid :: 0 <= gid < |w.reqs| ==> InQueue(QueueOf(w), gid) != InLog(w.log, gid))
            && (forall i, j :: 0 <= i < j < |w.log| ==> w.log[i].gid != w.log[j].gid)
            && (w.sess.Some? ==> w.sess.value.cmdNumbers == |w.sess.value.queue| % TWO32)
            && (w.sess.Some? && |w.sess.value.queue| < TWO32 ==> w.sess.value.cmdNumbers == |w.sess.value.queue|)
  {
    hide Pointers, Holders, NumOf, Shaped, Lifetime, Next, Enabled, HeadersInOrder, StreamsOk;
    RunsAreSafe(luns, ws, ls, n);
    assert Accounted(QueueOf(ws[n]), ws[n].log, |ws[n].reqs|);
  }

  /** In every run SCp.ptr and the queued tasks are a bijection: the pointer of a command is set exactly while a task
      of that command is queued, and to that task. */
  lemma PointersMatchTasks(luns: seq<Lun>, ws: seq<World>, ls: seq<Label>, n: nat)
    requires Run(luns, ws, ls) && n < |ws|
    ensures var w, q := ws[n], QueueOf(ws[n]);
            && (forall sc :: sc in w.ptr <==> exists i :: 0 <= i < |q| && q[i].sc == sc)
            && (forall i :: 0 <= i < |q| ==> q[i].sc in w.ptr && w.ptr[q[i].sc] == q[i].gid)
            && (forall i, j :: 0 <= i < j < |q| ==> q[i].sc != q[j].sc)
  {
    hide Holders, NumOf, Shaped, Lifetime, Next, Enabled, HeadersInOrder, Accounted, StreamsOk;
    RunsAreSafe(luns, ws, ls, n);
    var w, q := ws[n], QueueOf(ws[n]);
    assert Pointers(q, w.ptr, w.reqs);
    SafeOrdered(w);
    forall sc | sc in w.ptr ensures exists i :: 0 <= i < |q| && q[i].sc == sc {
      PendingTask(q, w.ptr, w.reqs, sc);
      assert q[IndexOfTask(q, w.ptr[sc])].sc == sc;
    }
  }

  ghost predicate Grows(w: World, w': World) {
    w.log <= w'.log && w.reqs <= w'.reqs && w.execs <= w'.execs && w.headers <= w'.headers
  }

  lemma TargetGrows(w: World, l: Label)
    requires Shaped(w) && Enabled(w, l) && (l.ReadHeader? || l.ClaimTask? || l.Fetch?)
    ensures Grows(w, Next(w, l)) && Next(w, l).reqs == w.reqs
  {
    hide NumOf, IndexOfNum, FirstSubmitted, Header, ParseHeader, WellFormed, Patch, Flushed, WithoutStreams, Claim;
  }

  lemma CompleteGrows(w: World, f: nat)
    requires Shaped(w) && Enabled(w, Complete(f))
    ensures Grows(w, NextComplete(w, f)) && NextComplete(w, f).reqs == w.reqs
  {
    hide NumOf, IndexOfNum, WellFormed, Patch, Flushed, WithoutStreams, Completion, CompletedNum, ReplyBytes, Remove;
  }

  /** History is only ever added to, and commands are accepted by queueing them only. */
  lemma StepGrows(w: World, l: Label)
    requires Shaped(w) && Enabled(w, l)
    ensures Grows(w, Next(w, l))
    ensures !l.Submit? ==> Next(w, l).reqs == w.reqs
  {
    hide Shaped, NextReadHeader, NextClaim, NextFetch, NextExecute, NextDie, NextComplete, IndexOfTask, Drained,
      WithoutStreams;
    match l
    case ReadHeader(_) => TargetGrows(w, l);
    case ClaimTask(_) => TargetGrows(w, l);
    case Fetch(_) => TargetGrows(w, l);
    case Complete(f) => CompleteGrows(w, f);
    case Execute(f, canned, keep) => ExecuteFrame(w, f, canned, keep);
    case Die(f, written, sought) => DieFrame(w, f, written, sought);
    case _ =>
  }

  lemma {:induction false} RunGrows(luns: seq<Lun>, ws: seq<World>, ls: seq<Label>, n: nat, m: nat)
    requires Run(luns, ws, ls) && n <= m < |ws|
    ensures Grows(ws[n], ws[m])
    decreases m - n
  {
    hide Next, Enabled, Shaped, Bounded;
    if n == m {
    } else {
      RunGrows(luns, ws, ls, n, m - 1);
      var k := m - 1;
      assert ws[k + 1] == Next(ws[k], ls[k]);
      StepGrows(ws[k], ls[k]);
    }
  }

  /** A command that has left the queue never comes back, and how it left does not change. */
  lemma GoneForGood(luns: seq<Lun>, ws: seq<World>, ls: seq<Label>, n: nat, m: nat, gid: nat)
    requires Run(luns, ws, ls) && n <= m < |ws| && gid < |ws[n].reqs| && !InQueue(QueueOf(ws[n]), gid)
    ensures !InQueue(QueueOf(ws[m]), gid)
    ensures exists i :: 0 <= i < |ws[n].log| <= |ws[m].log| && ws[n].log[i].gid == gid && ws[m].log[i] == ws[n].log[i]
    ensures forall i :: |ws[n].log| <= i < |ws[m].log| ==> ws[m].log[i].gid != gid
  {
    hide Run, InQueue;
    ExactlyOneHandBack(luns, ws, ls, n);
    ExactlyOneHandBack(luns, ws, ls, m);
    RunGrows(luns, ws, ls, n, m);
    var i :| 0 <= i < |ws[n].log| && ws[n].log[i].gid == gid;
    assert ws[m].log[i] == ws[n].log[i];
  }

  // ----- session lifetime

  /** Every attached file points to the live session, which is ready exactly while registrations are outstanding;
      no step used freed memory, ran past a buffer or met a session that was not ready. */
  lemma SessionsOutliveFiles(luns: seq<Lun>, ws: seq<World>, ls: seq<Label>, n: nat)
    requires Run(luns, ws, ls) && n < |ws|
    ensures var w := ws[n];
            && !w.broken
            && (forall f :: f in w.files && w.files[f].private.Some? ==> Usable(w, w.files[f]))
            && (w.sess.Some? ==> w.sess.value.open as nat == w.regs >= |Attached(w.files)|)
            && (w.sess.Some? ==> (w.sess.value.ready <==> w.sess.value.open > 0))
  {
    hide Pointers, Holders, NumOf, Shaped, Accounted, QueueOk, Next, Enabled, HeadersInOrder, StreamsOk;
    RunsAreSafe(luns, ws, ls, n);
    assert Bounded(ws[n]);
    forall f | f in ws[n].files && ws[n].files[f].private.Some? ensures Usable(ws[n], ws[n].files[f]) {
      AttachedIsUsable(ws[n], f);
    }
  }

  /** What "broken" stands for: a call on a file whose session is gone or not ready, or one that would run past the
      request buffer, is recorded, and so is an abort whose pointer leads to no task. */
  lemma MisuseIsRecorded(w: World, l: Label)
    requires Shaped(w) && Enabled(w, l)
    ensures match l
            case Release(f) => w.files[f].private.Some? && !Live(w, w.files[f]) ==> Next(w, l).broken
            case ReadHeader(f) => w.files[f].private.Some? && !Usable(w, w.files[f]) ==> Next(w, l).broken
            case ClaimTask(f) => !Usable(w, w.files[f]) ==> Next(w, l).broken
            case Fetch(f) => !Usable(w, w.files[f]) || 31 + w.files[f].task.bufflen > BUFFER_SIZE ==> Next(w, l).broken
            case Complete(f) => !Usable(w, w.files[f]) || 6 + w.files[f].task.bufflen > BUFFER_SIZE ==> Next(w, l).broken
            case Abort(sc) =>
              sc in w.ptr && (forall i :: 0 <= i < |QueueOf(w)| ==> QueueOf(w)[i].gid != w.ptr[sc]) ==> Next(w, l).broken
            case Execute(f, canned, keep) => RunsPast(w, f) ==> Next(w, l).broken
            case _ => true
  {
    hide Shaped, Decode, Serve, FindLun, Flushed, WithoutStreams, AfterRun, Seen, NextSubmit, NextUnregister,
      NextRegister, NextDie, Drained, LeaveAll;
    if l.Abort? && l.sc in w.ptr {
      var q := w.sess.value.queue;
      assert QueueOf(w) == q;
      var i := IndexOfTask(q, w.ptr[l.sc]);
      assert i < |q| ==> QueueOf(w)[i].gid == w.ptr[l.sc];
    }
  }

  /** A target that calls exit, here for want of a session, saves what its streams hold; one that crashes, here for want
      of the LUN, loses it.  Either way nothing of it is left, and no run is recorded. */
  lemma EndsOfTarget(w: World, f: nat, canned: Canned, keep: Keep)
    requires Shaped(w) && f in w.files
    ensures w.files[f].private.None? ==>
              var w' := NextReadHeader(w, f);
              && f in w'.files && w'.files[f].pc == Exited && w'.execs == w.execs
              && (forall k :: k in w'.streams ==> k.0 != f) && |w'.luns| == |w.luns|
              && forall j :: 0 <= j < |w.luns| ==> w'.luns[j] == FlushedAt(w.luns, w.streams, f, j)
    ensures |canned.data| <= MAX_TRANSFER && FindLun(w.luns, w.files[f].task.lun % 256) == |w.luns| ==>
              var w' := NextExecute(w, f, canned, keep);
              && f in w'.files && w'.files[f].pc == Exited && w'.execs == w.execs
              && (forall k :: k in w'.streams ==> k.0 != f) && w'.luns == w.luns
  {
    hide FlushedAt, FindLun, Decode, Serve, Fits, AfterRun, Seen, WellFormed;
  }

  /** The handler of a command that addresses a LUN would run past the request buffer. */
  ghost predicate RunsPast(w: World, f: nat)
    requires Shaped(w) && f in w.files
  {
    var t := w.files[f].task;
    var i, op, at := FindLun(w.luns, t.lun % 256), Decode(t.cdb), if t.direction == DIR_OUT then 31 else 6;
    i < |w.luns| &&
    match op
    case Read(lba, blocks) => 512 * (lba + blocks) <= 1048576 * w.luns[i].mb && at + 512 * blocks > BUFFER_SIZE
    case Write(lba, blocks) => 512 * (lba + blocks) <= 1048576 * w.luns[i].mb && at + 512 * blocks > BUFFER_SIZE
    case _ => false
  }

  /** The counter of registrations is one byte: registering keeps "ready exactly while the counter is not zero" if
      and only if fewer than 255 registrations are outstanding. */
  lemma RegistrationLimit(w: World, f: nat)
    requires Safe(w) && w.regs < 256 && w.sess.Some? && f in w.files && w.files[f].pc == Idle
    ensures var s := NextRegister(w, f, true).sess.value;
            (s.ready <==> s.open > 0) <==> w.regs < 255
  {
    hide Pointers, Accounted, Holders, QueueOk, HeadersInOrder, Shaped, StreamsOk;
  }

  /** After the 256th registration the session can be destroyed under a target, whose next read uses freed memory. */
  ghost predicate CanLoseSession(w: World, f: nat)
    requires f in w.files && Shaped(w)
  {
    var w1 := NextRegister(w, f, true);
    && Shaped(w1)
    && var w2 := NextUnregister(w1);
    && f in w2.files && w2.sess.None? && w2.files[f].private.Some? && !Live(w2, w2.files[f])
    && Shaped(w2) && NextReadHeader(w2, f).broken
  }

  lemma OneRegistrationTooMany(w: World, f: nat)
    requires Safe(w) && w.regs == 255 && w.sess.Some? && f in w.files && w.files[f].pc == Idle
    ensures CanLoseSession(w, f)
  {
    hide Pointers, Accounted, Holders, HeadersInOrder, QueueOk, StreamsOk;
    assert Below(w.sess.value.queue, |w.reqs|) by { SafeOrdered(w); }
  }

  /** One target can register that often. */
  lemma {:induction false} RegisteredRun(luns: seq<Lun>, n: nat) returns (ws: seq<World>, ls: seq<Label>)
    requires 1 <= n <= 255 && |luns| <= 256 && forall i :: 0 <= i < |luns| ==> luns[i].Sized()
    ensures Run(luns, ws, ls) && var w := ws[|ls|];
            w.regs == n && w.sess.Some? && 0 in w.files && w.files[0].pc == Idle
  {
    hide Shaped;
    var l := Register(0, true);
    if n == 1 {
      ws, ls := [Init(luns)], [];
      InitHolds(luns);
      assert Run(luns, ws, ls);
      var w1 := Next(ws[0], Open(0));
      Extend(luns, ws, ls, Open(0));
      ws, ls := ws + [w1], ls + [Open(0)];
    } else {
      ws, ls := RegisteredRun(luns, n - 1);
    }
    RunsAreSafe(luns, ws, ls, |ls|);
    var w := ws[|ls|];
    assert Shaped(w);
    Extend(luns, ws, ls, l);
    ws, ls := ws + [Next(w, l)], ls + [l];
  }

  /** So there is a run, with 255 registrations, from which the next one leads to a lost session. */
  lemma SessionCanBeLost(luns: seq<Lun>)
    requires |luns| <= 256 && forall i :: 0 <= i < |luns| ==> luns[i].Sized()
    ensures exists ws, ls :: RunToLoss(luns, ws, ls)
  {
    hide Run;
    var ws, ls := RegisteredRun(luns, 255);
    RunShape(luns, ws, ls);
    RunsAreSafe(luns, ws, ls, |ls|);
    OneRegistrationTooMany(ws[|ls|], 0);
    assert RunToLoss(luns, ws, ls);
  }

  ghost predicate RunToLoss(luns: seq<Lun>, ws: seq<World>, ls: seq<Label>) {
    && Run(luns, ws, ls)
    && 0 in ws[|ls|].files && Enabled(ws[|ls|], Register(0, true)) && Shaped(ws[|ls|]) && CanLoseSession(ws[|ls|], 0)
  }

  lemma RunShape(luns: seq<Lun>, ws: seq<World>, ls: seq<Label>)
    requires Run(luns, ws, ls)
    ensures |ws| == |ls| + 1
  {
  }

  /** A command is accepted exactly when the mid layer queues it, the cache has a slot, and a target is registered; it is
      then the youngest command, queued at the end and unclaimed.  Without registrations the queue never grows. */
  lemma AcceptedWhenRegistered(luns: seq<Lun>, ws: seq<World>, ls: seq<Label>, k: nat)
    requires Run(luns, ws, ls) && k < |ls|
    ensures ws[k + 1].reqs != ws[k].reqs <==> ls[k].Submit? && ls[k].slot && ws[k].regs > 0
    ensures ws[k + 1].reqs != ws[k].reqs ==>
              && ws[k + 1].reqs == ws[k].reqs + [ls[k].req]
              && |QueueOf(ws[k + 1])| == |QueueOf(ws[k])| + 1
              && QueueOf(ws[k + 1])[..|QueueOf(ws[k])|] == QueueOf(ws[k])
              && var t := QueueOf(ws[k + 1])[|QueueOf(ws[k])|];
              t.gid == |ws[k].reqs| && t.sc == ls[k].req.sc && t.flag == Submitted
    ensures ws[k].regs == 0 ==> |QueueOf(ws[k + 1])| <= |QueueOf(ws[k])|
    ensures ls[k].Submit? && ws[k].regs == 0 ==> ws[k + 1] == ws[k]
  {
    hide Pointers, Holders, NumOf, Shaped, HeadersInOrder, StreamsOk, Next, Enabled, QueueOk, WellFormed;
    RunsAreSafe(luns, ws, ls, k);
    RunsAreSafe(luns, ws, ls, k + 1);
    var w, w' := ws[k], ws[k + 1];
    StepGrows(w, ls[k]);
    assert Accounted(QueueOf(w), w.log, |w.reqs|) && Accounted(QueueOf(w'), w'.log, |w'.reqs|);
    match ls[k] {
      case Submit(req, slot) => SubmitOutcome(w, req, slot);
      case _ =>
    }
  }

  lemma SubmitOutcome(w: World, req: Request, slot: bool)
    requires Shaped(w) && Lifetime(w) && Enabled(w, Submit(req, slot))
    ensures Next(w, Submit(req, slot)) == NextSubmit(w, req, slot)
    ensures var w' := NextSubmit(w, req, slot);
            && (w.regs == 0 ==> w' == w)
            && (!slot ==> w'.reqs == w.reqs)
            && (w.regs > 0 && slot ==>
                  && w'.reqs == w.reqs + [req]
                  && exists t: Task ::
                       t.gid == |w.reqs| && t.sc == req.sc && t.flag == Submitted && QueueOf(w') == QueueOf(w) + [t])
  {
    hide Attached, Holding, NumOf, WellFormed;
    var t := Task(|w.reqs|, req.sc, NextNumber(w.sess.value), Submitted);
    assert slot && w.regs > 0 ==> QueueOf(NextSubmit(w, req, slot)) == QueueOf(w) + [t];
  }

  // ----- completions

  /** While numbers are recent, a completion finishes the command whose header its target read, or nothing at all:
      if that command was aborted, reset, or finished by another target, only the target itself moves on. */
  lemma CompletionIsOwn(w: World, f: nat)
    requires Safe(w) && NumbersRecent(w) && Enabled(w, Complete(f))
    ensures var w', g := NextComplete(w, f), w.files[f].gid;
            && w'.files[f].pc == Idle
            && (InQueue(QueueOf(w), g) ==>
                  exists i, e: Event :: 0 <= i < |QueueOf(w)| && QueueOf(w)[i].gid == g && e.Done? && e.gid == g
                    && w' == Leave(WithFile(w, f, w'.files[f]), i, e))
            && (!InQueue(QueueOf(w), g) ==> w' == WithFile(w, f, w'.files[f]))
  {
    hide NumOf, IndexOfNum, Pointers, Accounted, HeadersInOrder, QueueOk, Describes, WellFormed, StreamsOk,
      Completion, CompletedNum, ClaimedBefore;
    HeldFacts(w, f);
    OwnNumber(w, f);
    CompletionStep(w, f);
  }

  /** What a completion does, whoever's number it carries: the first queued task with this number leaves the queue with
      the status of the target's run, and with the data of that run as far as its own buffer reaches. */
  lemma CompletionStep(w: World, f: nat)
    requires Safe(w) && Enabled(w, Complete(f))
    ensures f in w.files && w.sess.Some? && w.files[f].gid < |w.reqs|
    ensures var file, w', q := w.files[f], NextComplete(w, f), w.sess.value.queue;
            var i := IndexOfNum(q, file.task.num);
            && w'.files[f].pc == Idle
            && COMPLETION_SIZE + file.task.bufflen <= BUFFER_SIZE
            && Ran(file.gid, file.status, ReplyBytes(file.buffer, file.task.bufflen)) in w.execs
            && (i == |q| ==> w' == WithFile(w, f, w'.files[f]))
            && (i < |q| ==>
                  && q[i].gid < |w.reqs| && COMPLETION_SIZE + w.reqs[q[i].gid].cmd.bufflen <= BUFFER_SIZE
                  && w' == Leave(WithFile(w, f, w'.files[f]), i, Done(q[i].gid, ResultOf(file.status),
                       if file.status == GOOD && file.task.bufflen > 0
                       then ReplyBytes(file.buffer, w.reqs[q[i].gid].cmd.bufflen) else w.reqs[q[i].gid].payload)))
  {
    hide NumOf, IndexOfNum, Pointers, Accounted, HeadersInOrder, QueueOk, Describes, WellFormed, StreamsOk,
      Completion, CompletedNum, ClaimedBefore;
    HeldFacts(w, f);
    var file, q := w.files[f], w.sess.value.queue;
    CompletionRoundTrip(file.buffer, file.task.num, file.status, file.task.bufflen);
    var i := IndexOfNum(q, file.task.num);
    if i < |q| {
      CommandFits(w.reqs[q[i].gid]);
    }
  }

  /** The step hands back a command other than the one whose header the target read. */
  ghost predicate HandsBackAnother(w: World, f: nat, w': World)
    requires f in w.files
  {
    |w'.log| == |w.log| + 1 && w.log <= w'.log && w'.log[|w.log|].gid != w.files[f].gid
  }

  /** A queued command has the number of the held one, and is found instead of it. */
  ghost predicate Impostor(q: seq<Task>, base: nat, gid: nat, j: nat) {
    && j < |q| && q[j].gid != gid && base <= q[j].gid && base <= gid
    && (q[j].gid - base) % NUMBERS == (gid - base) % NUMBERS
    && (q[j].gid < gid || !InQueue(q, gid))
  }

  /** A completion hands back the queued command that its number finds. */
  lemma HandedBackByNumber(w: World, f: nat)
    requires Safe(w) && Enabled(w, Complete(f))
    ensures f in w.files && w.sess.Some?
    ensures var q := w.sess.value.queue;
            var i := IndexOfNum(q, w.files[f].task.num);
            && (HandsBackAnother(w, f, NextComplete(w, f)) <==> i < |q| && q[i].gid != w.files[f].gid)
            && (i < |q| && q[i].gid != w.files[f].gid ==>
                  var e := NextComplete(w, f).log[|w.log|];
                  e.Done? && e.gid == q[i].gid && e.result == ResultOf(w.files[f].status))
    ensures exists reply :: Ran(w.files[f].gid, w.files[f].status, reply) in w.execs
  {
    hide Safe, IndexOfNum, NextComplete, ResultOf, Remove, WellFormed;
    CompletionStep(w, f);
  }

  /** Once numbers have wrapped, a completion hands back a command that is not its target's own exactly when a command
      accepted a multiple of 2^32 - 1 places away is queued and is either older than its own or queued without it.
      That command then gets the status of the target's run of the other. */
  lemma StaleCompletionMisdirects(w: World, f: nat)
    requires Safe(w) && Enabled(w, Complete(f))
    ensures f in w.files && w.sess.Some?
    ensures HandsBackAnother(w, f, NextComplete(w, f)) <==>
            exists j :: Impostor(w.sess.value.queue, w.sess.value.base, w.files[f].gid, j)
    ensures HandsBackAnother(w, f, NextComplete(w, f)) ==>
              var e := NextComplete(w, f).log[|w.log|];
              e.Done? && e.result == ResultOf(w.files[f].status)
              && exists reply :: Ran(w.files[f].gid, w.files[f].status, reply) in w.execs
  {
    hide Safe, IndexOfNum, NextComplete, ResultOf, Impostor, HandsBackAnother, NumOf;
    HandedBackByNumber(w, f);
    HeldNumber(w, f);
    StaleNumberMisdirects(w.sess.value.queue, w.sess.value.base, w.files[f].gid);
  }

  lemma HeldNumber(w: World, f: nat)
    requires Safe(w) && f in w.files && Holding(w.files[f].pc)
    ensures w.sess.Some? && var s := w.sess.value;
            && s.base <= w.files[f].gid && w.files[f].task.num == NumOf(w.files[f].gid - s.base)
            && Numbered(s.queue, s.base) && Ordered(s.queue)
  {
    hide NumOf, Pointers, Accounted, HeadersInOrder, StreamsOk, WellFormed;
    HeldFacts(w, f);
  }

  /** The lookup behind it. */
  lemma StaleNumberMisdirects(q: seq<Task>, base: nat, gid: nat)
    requires Numbered(q, base) && Ordered(q) && base <= gid
    ensures var i := IndexOfNum(q, NumOf(gid - base));
            (i < |q| && q[i].gid != gid) <==> exists j :: Impostor(q, base, gid, j)
  {
    hide IndexOfNum;
    var num := NumOf(gid - base);
    var i := IndexOfNum(q, num);
    LookupModulo(q, base, gid);
    if i < |q| && q[i].gid != gid {
      forall k | 0 <= k < |q| && q[i].gid >= gid ensures q[k].gid != gid {
        if k < i {
          assert (q[k].gid - base) % NUMBERS != (gid - base) % NUMBERS;
        }
      }
      assert Impostor(q, base, gid, i);
    }
    if j: nat :| Impostor(q, base, gid, j) {
      assert i <= j;
      assert q[i].gid <= q[j].gid;
      assert q[i].gid == gid ==> InQueue(q, gid);
    }
  }

  // ----- abort, reset, destruction

  /** Abort removes the command's own task and no other, and calls no completion; a command that is not pending is
      left alone. */
  lemma AbortIsExact(w: World, sc: nat)
    requires Safe(w) && w.sess.Some?
    ensures var w', q := NextAbort(w, sc), w.sess.value.queue;
            && sc !in w'.ptr
            && (forall i :: 0 <= i < |q| && q[i].sc == sc ==>
                  w'.sess == Some(Remove(w.sess.value, i)) && w'.log == w.log + [Dropped(q[i].gid)])
            && ((forall i :: 0 <= i < |q| ==> q[i].sc != sc) ==> w' == w)
  {
    hide HoldOk, Accounted, NumOf, IndexOfTask, HeadersInOrder, WellFormed, StreamsOk;
    var q := w.sess.value.queue;
    if sc in w.ptr {
      PendingTask(q, w.ptr, w.reqs, sc);
      var k := IndexOfTask(q, w.ptr[sc]);
      forall i | 0 <= i < |q| && q[i].sc == sc ensures i == k {
        assert w.ptr[q[i].sc] == q[i].gid;
      }
    }
  }

  /** Host reset empties the queue without calling a completion; destruction hands every pending command back once,
      in order, as not connected, and does nothing while registrations are counted. */
  lemma DrainsAreComplete(w: World)
    requires Safe(w) && w.sess.Some?
    ensures var q, w' := w.sess.value.queue, Next(w, Reset);
            && w'.sess.value.queue == [] && w'.sess.value.cmdNumbers == 0 && w'.ptr == map[]
            && |w'.log| == |w.log| + |q|
            && forall i :: 0 <= i < |q| ==> w'.log[|w.log| + i] == Dropped(q[i].gid)
    ensures var q, w' := w.sess.value.queue, NextUnregister(w);
            && (w.sess.value.open != 0 ==> w' == w)
            && (w.sess.value.open == 0 ==>
                  && w'.sess.None? && w'.ptr == map[] && |w'.log| == |w.log| + |q|
                  && forall i :: 0 <= i < |q| ==>
                       w'.log[|w.log| + i] == Done(q[i].gid, DID_NO_CONNECT * 0x1_0000, w.reqs[q[i].gid].payload))
  {
    hide HoldOk, Accounted, NumOf, HeadersInOrder, WellFormed, StreamsOk;
    EmptiedPointers(w.sess.value.queue, w.ptr, w.reqs);
    CountToZero(|w.sess.value.queue|);
  }

  // ----- an atomic block device

  /** Up to state n no unflushed bytes were lost. */
  ghost predicate Lossless(ws: seq<World>, ls: seq<Label>, n: nat)
    requires n <= |ls| < |ws|
  {
    forall k :: 0 <= k < n ==> Shaped(ws[k]) && Enabled(ws[k], ls[k]) && NothingLost(ws[k], ls[k])
  }

  /** And no command met unflushed bytes of another target, or outdated ones in its own stream. */
  ghost predicate AllSteady(ws: seq<World>, ls: seq<Label>, n: nat)
    requires n <= |ls| < |ws|
  {
    forall k :: 0 <= k < n ==> Shaped(ws[k]) && Enabled(ws[k], ls[k]) && Steady(ws[k], ls[k])
  }

  /** Every state of a steady run, with any number of targets, stands for a state of the device that meets its
      guarantees. */
  lemma {:induction false} RunsRefine(luns: seq<Lun>, ws: seq<World>, ls: seq<Label>, n: nat)
    requires RecentRun(luns, ws, ls) && n <= |ls| && AllSteady(ws, ls, n)
    ensures Consistent(luns, Abstract(ws[n])) && Sole(ws[n].streams)
  {
    hide Inv, Next, Enabled, Shaped, NumbersRecent, Consistent, Step, Abstract, Sole, Steady, Bounded;
    RunsKeepInv(luns, ws, ls, n);
    if n == 0 {
      InitIsConsistent(luns);
    } else {
      var k := n - 1;
      assert ws[k + 1] == Next(ws[k], ls[k]);
      RunsRefine(luns, ws, ls, k);
      RunsKeepInv(luns, ws, ls, k);
      InvShape(ws[k]);
      var a := StepRefines(ws[k], ls[k]);
      StepKeepsConsistent(luns, Abstract(ws[k]), a, Abstract(ws[n]));
    }
  }

  lemma InitIsConsistent(luns: seq<Lun>)
    requires SizedAll(luns)
    ensures RunsForward(Init(luns)) && Once(Init(luns).execs) && Sole(Init(luns).streams) && StreamsCurrent(Init(luns))
    ensures Consistent(luns, Abstract(Init(luns)))
  {
    var w := Init(luns);
    forall i | 0 <= i < |luns| ensures SettledAt(luns, w.streams, i) == luns[i] {
      SettledNone(luns, w.streams, i);
    }
    assert Settled(luns, w.streams) == luns;
  }

  /** With at most one target attached at a time, the run is steady as long as no target is killed that has unflushed
      bytes. */
  lemma {:induction false} SoloRunsAreSteady(luns: seq<Lun>, ws: seq<World>, ls: seq<Label>, n: nat)
    requires RecentRun(luns, ws, ls) && n <= |ls| && Lossless(ws, ls, n) && forall k :: 0 <= k <= n ==> Solo(ws[k])
    ensures AllSteady(ws, ls, n) && StreamsCurrent(ws[n])
  {
    hide Inv, Next, Enabled, Shaped, NumbersRecent, Steady, NothingLost, StreamsCurrent, Solo, Bounded;
    if n == 0 {
      InitIsConsistent(luns);
    } else {
      var k := n - 1;
      assert ws[k + 1] == Next(ws[k], ls[k]);
      SoloRunsAreSteady(luns, ws, ls, k);
      RunsKeepInv(luns, ws, ls, k);
      assert Solo(ws[k]);
      SoloIsSteady(ws[k], ls[k]);
      StepKeepsCurrent(ws[k], ls[k]);
    }
  }

  /** With at most one target attached at a time commands run at most once, in the order of acceptance. */
  lemma {:induction false} SoloRunsInTurn(luns: seq<Lun>, ws: seq<World>, ls: seq<Label>, n: nat)
    requires RecentRun(luns, ws, ls) && n < |ws| && forall k :: 0 <= k <= n ==> Solo(ws[k])
    ensures RunsForward(ws[n]) && Once(ws[n].execs)
  {
    hide Inv, Next, Enabled, Shaped, NumbersRecent, RunsForward, Solo, Once, Bounded;
    if n == 0 {
      InitIsConsistent(luns);
    } else {
      var k := n - 1;
      assert ws[k + 1] == Next(ws[k], ls[k]);
      SoloRunsInTurn(luns, ws, ls, k);
      RunsKeepInv(luns, ws, ls, k);
      InvShape(ws[k]);
      assert Solo(ws[k]);
      StepForward(ws[k], ls[k]);
      OnceMore(ws[k], ls[k]);
    }
  }

  /** A command that was handed back with a status of the target's. */
  ghost predicate AnsweredByTarget(e: Event) {
    e.Done? && e.result < DID_NO_CONNECT * 0x1_0000
  }

  /** Entry i of the log is right: a run of its own command gave its status, and if that is good, its data are what the
      runs before one of its own had left. */
  ghost predicate RightEntry(luns: seq<Lun>, w: World, i: nat)
    requires SizedAll(luns) && i < |w.log|
  {
    && (AnsweredByTarget(w.log[i]) ==>
          exists k :: 0 <= k < |w.execs| && w.execs[k].Ran? && w.execs[k].gid == w.log[i].gid
            && w.log[i].result == ResultOf(w.execs[k].status))
    && (w.log[i].Done? && w.log[i].result == GOOD as nat && w.log[i].gid < |w.reqs| ==>
          exists k :: 0 <= k < |w.execs| && w.execs[k].gid == w.log[i].gid && WellFormed(w.reqs[w.log[i].gid])
            && RightData(Replay(luns, w.reqs, w.execs[..k]), w.reqs[w.log[i].gid], w.log[i].data))
  }

  /** In every steady run with any number of targets, through aborts, resets, crashes and restarts: the disks, once all
      streams are flushed, are the replay of what ran; a command is handed back with the status of a run of its own; and
      the data of a command handed back as good are what the runs before one of its own had left. */
  lemma RunIsBlockDevice(luns: seq<Lun>, ws: seq<World>, ls: seq<Label>, n: nat)
    requires RecentRun(luns, ws, ls) && n <= |ls| && AllSteady(ws, ls, n)
    ensures var w := ws[n];
            && SizedAll(luns) && Settled(w.luns, w.streams) == Replay(luns, w.reqs, w.execs)
            && forall i :: 0 <= i < |w.log| ==> RightEntry(luns, w, i)
  {
    hide Inv, Next, Enabled, Shaped, NumbersRecent, ReportsHistory, Backed, Replay, RightData, ResultOf, Settled,
      Steady, Bounded;
    RunsRefine(luns, ws, ls, n);
    var w, d := ws[n], Abstract(ws[n]);
    forall i | 0 <= i < |w.log| ensures RightEntry(luns, w, i) {
      if AnsweredByTarget(w.log[i]) {
        AnswersAreBacked(luns, d, i);
      }
      if w.log[i].Done? && w.log[i].result == GOOD as nat && w.log[i].gid < |w.reqs| {
        AnswersAreRight(luns, d, i);
      }
    }
  }

  lemma AnswersAreBacked(luns: seq<Lun>, d: Device, i: nat)
    requires Consistent(luns, d) && i < |d.out| && AnsweredByTarget(d.out[i])
    ensures exists k :: 0 <= k < |d.execs| && d.execs[k].Ran? && d.execs[k].gid == d.out[i].gid
              && d.out[i].result == ResultOf(d.execs[k].status)
  {
    assert Backed(d.execs, d.issued, d.out[i]);
  }

  /** With at most one target attached at a time this needs only that no target is killed that has unflushed bytes; and
      commands run at most once and in the order of acceptance, so that the data of a good answer are what the older
      commands had left. */
  lemma SoloRunIsBlockDevice(luns: seq<Lun>, ws: seq<World>, ls: seq<Label>, n: nat)
    requires RecentRun(luns, ws, ls) && n <= |ls| && Lossless(ws, ls, n) && forall k :: 0 <= k <= n ==> Solo(ws[k])
    ensures var w := ws[n];
            && SizedAll(luns) && Settled(w.luns, w.streams) == Replay(luns, w.reqs, w.execs)
            && (forall i, j :: 0 <= i < j < |w.execs| ==> w.execs[i].gid < w.execs[j].gid)
            && (forall i :: 0 <= i < |w.log| ==> RightEntry(luns, w, i))
            && forall i, k :: 0 <= i < |w.log| && w.log[i].Done? && w.log[i].result == GOOD as nat && w.log[i].gid < |w.reqs|
                              && 0 <= k < |w.execs| && w.execs[k].gid == w.log[i].gid ==>
                 WellFormed(w.reqs[w.log[i].gid])
                 && RightData(Replay(luns, w.reqs, w.execs[..k]), w.reqs[w.log[i].gid], w.log[i].data)
  {
    hide Inv, Next, Enabled, Shaped, NumbersRecent, Solo, Replay, RightData, RunsForward, AnsweredByTarget, Settled,
      Steady, NothingLost, StreamsCurrent, Bounded;
    SoloRunsAreSteady(luns, ws, ls, n);
    RunIsBlockDevice(luns, ws, ls, n);
    SoloRunsInTurn(luns, ws, ls, n);
    var w := ws[n];
    forall i, k | 0 <= i < |w.log| && w.log[i].Done? && w.log[i].result == GOOD as nat && w.log[i].gid < |w.reqs|
                  && 0 <= k < |w.execs| && w.execs[k].gid == w.log[i].gid
      ensures WellFormed(w.reqs[w.log[i].gid])
      ensures RightData(Replay(luns, w.reqs, w.execs[..k]), w.reqs[w.log[i].gid], w.log[i].data)
    {
      assert RightEntry(luns, w, i);
    }
  }

  /** The exact limit: after such a run, killing a target leaves the disks as the replay of what ran if and only if its
      unflushed bytes are in the files already. */
  lemma KillingLosesWrites(luns: seq<Lun>, ws: seq<World>, ls: seq<Label>, n: nat, f: nat)
    requires RecentRun(luns, ws, ls) && n <= |ls| && AllSteady(ws, ls, n) && f in ws[n].files
    ensures SizedAll(luns)
    ensures var w, w' := ws[n], NextRelease(ws[n], f);
            Settled(w'.luns, w'.streams) == Replay(luns, w.reqs, w.execs) <==> Redundant(w.luns, w.streams, f)
  {
    hide Inv, Next, Enabled, Shaped, NumbersRecent, Replay, Settled, Steady, Redundant, Consistent, Bounded,
      WithoutStreams;
    RunsRefine(luns, ws, ls, n);
    RunIsBlockDevice(luns, ws, ls, n);
    KillingLoses(ws[n].luns, ws[n].streams, f);
    ReleasedDisks(ws[n], f);
  }

  lemma ReleasedDisks(w: World, f: nat)
    requires f in w.files
    ensures NextRelease(w, f).luns == w.luns && NextRelease(w, f).streams == WithoutStreams(w.streams, f)
  {
  }
}
