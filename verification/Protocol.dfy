/**
 * The host adapter of one minor number and the targets that serve it, as one step system.  A step is one locked
 * section of the driver, one system call of the target API, or the run of one command in a target; steps of the
 * mid layer and of any number of targets interleave freely.
 */
module Protocol {
  import opened Bytes
  import opened Wire
  import opened Queue
  import opened Scsi
  import opened Engine

  datatype Option<+T> = None | Some(value: T)

  /** A command as the mid layer hands it over: the scsi_cmnd object it arrives in, the fields the driver reads,
      and the flat contents of its buffer. */
  datatype Request = Request(sc: nat, cmd: Command, payload: seq<byte>)

  /** The largest transfer: SCSITAP_MAX_SECTORS sectors. */
  const MAX_TRANSFER: nat := 256 * BLOCK

  /** What the mid layer guarantees of a command. */
  predicate WellFormed(r: Request) {
    && r.cmd.Valid() && 1 <= r.cmd.cdbLen <= 16 && CdbSize(r.cmd.cdb[0]) <= r.cmd.cdbLen as nat
    && |r.payload| == r.cmd.bufflen <= MAX_TRANSFER
    && match Decode(r.cmd.cdb)
       case Read(_, blocks) => blocks * BLOCK == r.cmd.bufflen && (blocks > 0 ==> !r.cmd.toDevice)
       case Write(_, blocks) => blocks * BLOCK == r.cmd.bufflen && (blocks > 0 ==> r.cmd.toDevice)
       case _ => true
  }

  /** How a command left the queue.  result is the host and SCSI status; data is the flat buffer at that moment. */
  datatype Event =
    | Done(gid: nat, result: nat, data: seq<byte>)
    | Dropped(gid: nat)

  /** One run of a command in a target; a target that dies inside a write leaves a prefix of it on the disk. */
  datatype Exec =
    | Ran(gid: nat, status: byte, reply: seq<byte>)
    | Torn(gid: nat, written: nat)

  /** Where a target is in its service loop. */
  datatype Pc = Idle | HasHeader | Claimed | HasData | Executed | Exited

  /** An open control device and the process behind it: private_data, the loop's position, the task and request
      buffer, and the index of the command whose header was read last. */
  datatype File = File(private: Option<nat>, pc: Pc, task: UserTask, buffer: seq<byte>, status: byte, gid: nat)

  /** What a target's stdio stream on a LUN file remembers: bytes it has been given and not yet written to the file
      (dirty), or bytes it has read from the file and may serve again. */
  datatype Stream = Stream(pos: nat, bytes: seq<byte>, dirty: bool)

  /** sess is the live session if there is one, and incs counts the sessions created so far; regs counts
      registrations of the live session not yet matched by a close.  log, headers and execs record, in order, how
      commands left the queue, whose headers were read, and which commands ran.  luns are the LUN files; streams are the
      streams of the targets on them, by target and position in the LUN list.  broken records that a step used a freed
      session or task, ran past a buffer, or reached a not-ready return of an attached file. */
  datatype World = World(
    sess: Option<Session>, incs: nat, regs: nat, files: map<nat, File>,
    reqs: seq<Request>, ptr: map<nat, nat>, log: seq<Event>,
    headers: seq<nat>, luns: seq<Lun>, streams: map<(nat, nat), Stream>, execs: seq<Exec>, broken: bool)

  /** What a stream remembers after a command: of a write its last unflushed bytes, otherwise any range. */
  datatype Keep = Keep(unflushed: nat, pos: nat, length: nat)

  datatype Label =
    | Open(f: nat)
    | Register(f: nat, hostAdded: bool)
    | Release(f: nat)
    | Unregister
    | Submit(req: Request, slot: bool)
    | Abort(sc: nat)
    | Reset
    | ReadHeader(f: nat)
    | ClaimTask(f: nat)
    | Fetch(f: nat)
    | Execute(f: nat, canned: Canned, keep: Keep)
    | Die(f: nat, written: nat, sought: bool)
    | Complete(f: nat)

  // ----- pieces of steps

  function WithFile(w: World, f: nat, file: File): World {
    w.(files := w.files[f := file])
  }

  function Broken(w: World): World {
    w.(broken := true)
  }

  // the streams of a target

  /** The file with the bytes of a stream in place. */
  function Apply(l: Lun, s: Stream): (l': Lun)
    ensures l'.id == l.id && l'.mb == l.mb && |l'.disk| == |l.disk|
  {
    if s.pos + |s.bytes| <= |l.disk| then l.(disk := Patch(l.disk, s.pos, s.bytes)) else l
  }

  /** LUN file i after target f has flushed its stream on it. */
  function FlushedAt(luns: seq<Lun>, streams: map<(nat, nat), Stream>, f: nat, i: nat): (l: Lun)
    requires i < |luns|
    ensures l.id == luns[i].id && l.mb == luns[i].mb && |l.disk| == |luns[i].disk|
  {
    if (f, i) in streams && streams[(f, i)].dirty then Apply(luns[i], streams[(f, i)]) else luns[i]
  }

  /** All LUN files after target f has flushed its streams. */
  function Flushed(luns: seq<Lun>, streams: map<(nat, nat), Stream>, f: nat): (l: seq<Lun>)
    ensures |l| == |luns| && forall i :: 0 <= i < |luns| ==> l[i] == FlushedAt(luns, streams, f, i)
  {
    seq(|luns|, i requires 0 <= i < |luns| => FlushedAt(luns, streams, f, i))
  }

  /** LUN i as target f sees it through its stream. */
  function Seen(luns: seq<Lun>, streams: map<(nat, nat), Stream>, f: nat, i: nat): (l: Lun)
    requires i < |luns|
    ensures l.id == luns[i].id && l.mb == luns[i].mb && |l.disk| == |luns[i].disk|
  {
    if (f, i) in streams then Apply(luns[i], streams[(f, i)]) else luns[i]
  }

  function WithoutStreams(streams: map<(nat, nat), Stream>, f: nat): map<(nat, nat), Stream> {
    map k | k in streams && k.0 != f :: streams[k]
  }

  /** Some range of the bytes that a stream has seen. */
  function Remembered(disk: seq<byte>, keep: Keep): (s: Stream)
    ensures !s.dirty && s.pos + |s.bytes| <= |disk| && s.bytes == disk[s.pos..s.pos + |s.bytes|]
  {
    var pos := Min(keep.pos, |disk|);
    Stream(pos, disk[pos..pos + Min(keep.length, |disk| - pos)], false)
  }

  /** Whether a command makes its handler seek on the LUN file, which flushes the stream. */
  predicate Seeks(op: Op, mb: nat) {
    match op
    case Read(lba, blocks) => blocks > 0 && InRange(mb, lba, blocks)
    case Write(lba, blocks) => blocks > 0 && InRange(mb, lba, blocks)
    case ReadCapacity => true
    case _ => false
  }

  /** The process calls exit, which flushes its streams. */
  function Exit(w: World, f: nat): World
    requires f in w.files
  {
    WithFile(w.(luns := Flushed(w.luns, w.streams, f), streams := WithoutStreams(w.streams, f)),
             f, w.files[f].(pc := Exited))
  }

  /** The process is killed: what its streams hold is lost. */
  function Killed(w: World, f: nat): World
    requires f in w.files
  {
    WithFile(w.(streams := WithoutStreams(w.streams, f)), f, w.files[f].(pc := Exited))
  }

  /** The session created last: its place in the order of creation stands for its address. */
  function Current(w: World): nat {
    if w.incs == 0 then 0 else w.incs - 1
  }

  /** private_data points to the live session. */
  predicate Live(w: World, file: File) {
    w.sess.Some? && file.private == Some(Current(w))
  }

  /** The tests a file operation makes before it works on its session. */
  predicate Usable(w: World, file: File) {
    Live(w, file) && w.sess.value.ready
  }

  /** Task i has left the queue. */
  function Leave(w: World, i: nat, e: Event): World
    requires w.sess.Some? && i < |w.sess.value.queue|
  {
    w.(sess := Some(Remove(w.sess.value, i)),
       ptr := w.ptr - {w.sess.value.queue[i].sc},
       log := w.log + [e])
  }

  function QueuedCommands(q: seq<Task>): set<nat> {
    set i | 0 <= i < |q| :: q[i].sc
  }

  function DropAll(q: seq<Task>): seq<Event> {
    seq(|q|, i requires 0 <= i < |q| => Dropped(q[i].gid))
  }

  function DisconnectAll(q: seq<Task>, reqs: seq<Request>): seq<Event>
    requires Below(q, |reqs|)
  {
    seq(|q|, i requires 0 <= i < |q| => Done(q[i].gid, DID_NO_CONNECT * 0x1_0000, reqs[q[i].gid].payload))
  }

  /** All tasks have left the queue, in order. */
  function LeaveAll(w: World, sess: Option<Session>, events: seq<Event>): World
    requires w.sess.Some?
  {
    w.(sess := sess, ptr := w.ptr - QueuedCommands(w.sess.value.queue), log := w.log + events)
  }

  /** run_scsi_command: the first LUN of the list with this number, or the length of the list. */
  function FindLun(luns: seq<Lun>, id: byte): (i: nat)
    ensures i <= |luns|
    ensures i < |luns| ==> luns[i].id == id
  {
    if luns == [] || luns[0].id == id then 0 else 1 + FindLun(luns[1..], id)
  }

  function Ids(luns: seq<Lun>): (ids: seq<byte>)
    ensures |ids| == |luns|
  {
    seq(|luns|, i requires 0 <= i < |luns| => luns[i].id)
  }

  /** Where a target puts a command's data in its request buffer. */
  function DataOffset(t: UserTask): nat {
    if t.direction == DIR_OUT then UHEADER_SIZE else COMPLETION_SIZE
  }

  function TaskLun(t: UserTask): byte {
    t.lun % 256
  }

  predicate Running(file: File) {
    file.pc == HasData || (file.pc == Claimed && file.task.direction == DIR_IN)
  }

  // ----- the steps

  /** What holds of the shape of every state, so that the steps are defined. */
  ghost predicate Shaped(w: World) {
    && (forall i :: 0 <= i < |w.reqs| ==> WellFormed(w.reqs[i]))
    && (w.sess.Some? ==> Below(w.sess.value.queue, |w.reqs|))
    && (forall f :: f in w.files ==> |w.files[f].buffer| == BUFFER_SIZE && |w.files[f].task.cdb| == 16)
    && |w.luns| <= 256 && (forall i :: 0 <= i < |w.luns| ==> w.luns[i].Sized())
  }

  predicate Enabled(w: World, l: Label) {
    match l
    case Open(f) => f !in w.files
    case Register(f, _) => f in w.files && w.files[f].pc == Idle
    case Release(f) => f in w.files
    case Unregister => true
    case Submit(req, _) =>
      // the mid layer does not queue a command that is still pending
      w.sess.Some? && WellFormed(req) && forall i :: 0 <= i < |w.sess.value.queue| ==> w.sess.value.queue[i].sc != req.sc
    case Abort(_) => w.sess.Some?
    case Reset => w.sess.Some?
    case ReadHeader(f) => f in w.files && w.files[f].pc == Idle
    case ClaimTask(f) => f in w.files && w.files[f].pc == HasHeader
    case Fetch(f) => f in w.files && w.files[f].pc == Claimed && w.files[f].task.direction == DIR_OUT
    case Execute(f, canned, _) => f in w.files && Running(w.files[f]) && |canned.data| <= MAX_TRANSFER
    case Die(f, _, _) => f in w.files && Running(w.files[f])
    case Complete(f) => f in w.files && w.files[f].pc == Executed
  }

  function NextRegister(w: World, f: nat, hostAdded: bool): World
    requires f in w.files
  {
    match w.sess
    case None =>
      if !hostAdded then w
      else WithFile(w.(sess := Some(Attach(NewSession(|w.reqs|))), incs := w.incs + 1, regs := 1),
                    f, w.files[f].(private := Some(w.incs)))
    case Some(s) =>
      WithFile(w.(sess := Some(Attach(s)), regs := w.regs + 1), f, w.files[f].(private := Some(Current(w))))
  }

  /** The control device of a target is closed because its process is gone; unless the process had exited before,
      it was killed. */
  function NextRelease(w: World, f: nat): World
    requires f in w.files
  {
    var gone := w.(files := w.files - {f}, streams := WithoutStreams(w.streams, f));
    if w.files[f].private.None? then gone
    else if !Live(w, w.files[f]) then Broken(gone)
    else gone.(sess := Some(Detach(w.sess.value)), regs := if w.regs == 0 then 0 else w.regs - 1)
  }

  function NextUnregister(w: World): World
    requires w.sess.Some? ==> Below(w.sess.value.queue, |w.reqs|)
  {
    if w.sess.None? || w.sess.value.open != 0 then w
    else LeaveAll(w, None, DisconnectAll(w.sess.value.queue, w.reqs)).(regs := 0)
  }

  function NextSubmit(w: World, req: Request, slot: bool): World
    requires w.sess.Some?
  {
    if !w.sess.value.ready then w
    else if !slot then w.(ptr := w.ptr - {req.sc})
    else w.(sess := Some(Accept(w.sess.value, |w.reqs|, req.sc)),
            ptr := w.ptr[req.sc := |w.reqs|],
            reqs := w.reqs + [req])
  }

  function NextAbort(w: World, sc: nat): World
    requires w.sess.Some?
  {
    if sc !in w.ptr then w
    else
      var i := IndexOfTask(w.sess.value.queue, w.ptr[sc]);
      if i < |w.sess.value.queue| then Leave(w, i, Dropped(w.ptr[sc])) else Broken(w)
  }

  function HeaderOf(w: World, t: Task, kind: byte): (h: seq<byte>)
    requires t.gid < |w.reqs| && w.reqs[t.gid].cmd.Valid()
    ensures |h| == UHEADER_SIZE
  {
    Header(kind, t.num, w.reqs[t.gid].cmd)
  }

  function NextReadHeader(w: World, f: nat): World
    requires Shaped(w) && f in w.files
  {
    var file := w.files[f];
    if file.private.None? then Exit(w, f)
    else if !Usable(w, file) then Broken(Exit(w, f))
    else
      var q := w.sess.value.queue;
      var i := FirstSubmitted(q);
      if i == |q| then w
      else
        HeaderRoundTrip(TYPE_C, q[i].num, w.reqs[q[i].gid].cmd, file.task.cdb);
        WithFile(w.(headers := w.headers + [q[i].gid]), f,
                 file.(pc := HasHeader, task := ParseHeader(HeaderOf(w, q[i], TYPE_C), file.task.cdb), gid := q[i].gid))
  }

  function NextClaim(w: World, f: nat): World
    requires f in w.files
  {
    var file := w.files[f];
    if !Usable(w, file) then Broken(Exit(w, f))
    else WithFile(w.(sess := Some(Claim(w.sess.value, file.task.num))), f, file.(pc := Claimed))
  }

  function NextFetch(w: World, f: nat): World
    requires Shaped(w) && f in w.files
  {
    var file := w.files[f];
    if !Usable(w, file) || UHEADER_SIZE + file.task.bufflen > BUFFER_SIZE then Broken(Exit(w, f))
    else
      var q := w.sess.value.queue;
      if file.task.bufflen == 0 then
        // the count equals the header size, so the read is answered with the next header
        var i := FirstSubmitted(q);
        if i == |q| then Exit(w, f)
        else WithFile(w, f, file.(pc := HasData, buffer := Patch(file.buffer, 0, HeaderOf(w, q[i], TYPE_C))))
      else
        var i := IndexOfNum(q, file.task.num);
        if i == |q| || q[i].flag != Received || w.reqs[q[i].gid].cmd.bufflen != file.task.bufflen then Exit(w, f)
        else WithFile(w, f, file.(pc := HasData,
                                  buffer := Patch(file.buffer, 0, HeaderOf(w, q[i], TYPE_D) + w.reqs[q[i].gid].payload)))
  }

  /** The reply bytes a completed run would send. */
  function ReplyBytes(buffer: seq<byte>, len: nat): seq<byte>
    requires COMPLETION_SIZE + len <= |buffer|
  {
    buffer[COMPLETION_SIZE..COMPLETION_SIZE + len]
  }

  /** The target has run its command with this outcome. */
  function Finish(w: World, f: nat, r: Reply, luns: seq<Lun>, streams: map<(nat, nat), Stream>): World
    requires f in w.files && |r.buffer| == BUFFER_SIZE
    requires COMPLETION_SIZE + w.files[f].task.bufflen <= BUFFER_SIZE
  {
    var file := w.files[f];
    var len: uint32 := if file.task.direction == DIR_OUT then 0 else file.task.bufflen;
    WithFile(w.(luns := luns, streams := streams,
                execs := w.execs + [Ran(file.gid, r.status, ReplyBytes(r.buffer, len))]),
             f, file.(pc := Executed, buffer := r.buffer, status := r.status, task := file.task.(bufflen := len)))
  }

  /** LUN file i and the stream of target f on it after a command: the seek has flushed the stream; the last bytes
      of a write may still be in it. */
  function AfterRun(luns: seq<Lun>, streams: map<(nat, nat), Stream>, f: nat, i: nat, op: Op, data: seq<byte>, keep: Keep)
    : (r: (Lun, map<(nat, nat), Stream>))
    requires i < |luns| && luns[i].Sized()
    requires op.Write? && InRange(luns[i].mb, op.lba, op.blocks) ==> |data| == op.blocks * BLOCK
    ensures r.0.id == luns[i].id && r.0.mb == luns[i].mb && |r.0.disk| == |luns[i].disk|
  {
    if !Seeks(op, luns[i].mb) then (luns[i], streams)
    else
      var own := FlushedAt(luns, streams, f, i);
      if op.Write? then
        var n := |data| - Min(keep.unflushed, |data|);
        var l := own.(disk := WriteExtent(own.disk, op.lba, data[..n]));
        (l, streams[(f, i) := if n < |data| then Stream(op.lba * BLOCK + n, data[n..], true) else Remembered(l.disk, keep)])
      else (own, streams[(f, i) := Remembered(Seen(luns, streams, f, i).disk, keep)])
  }

  /** The bytes of the request buffer that a write command takes. */
  function DataOf(buffer: seq<byte>, at: nat, op: Op): (data: seq<byte>)
    requires at <= |buffer|
  {
    if op.Write? then buffer[at..Min(|buffer|, at + op.blocks * BLOCK)] else []
  }

  /** canned stands for the reply of a command that does not depend on the disk. */
  function NextExecute(w: World, f: nat, canned: Canned, keep: Keep): World
    requires Shaped(w) && f in w.files && |canned.data| <= MAX_TRANSFER
  {
    var file := w.files[f];
    var at := DataOffset(file.task);
    var op := Decode(file.task.cdb);
    var i := FindLun(w.luns, TaskLun(file.task));
    if i == |w.luns| then Killed(w, f)
    else if COMPLETION_SIZE + file.task.bufflen > BUFFER_SIZE then Broken(Exit(w, f))
    else if op.Other? then
      Finish(w, f, Reply(canned.status, w.luns[i].disk, Patch(file.buffer, at, canned.data)), w.luns, w.streams)
    else if !Fits(op, w.luns[i].mb, BUFFER_SIZE - at, file.task.bufflen) then Broken(Exit(w, f))
    else
      var r := Serve(Seen(w.luns, w.streams, f, i), op, Ids(w.luns), file.buffer, at, file.task.bufflen);
      var after := AfterRun(w.luns, w.streams, f, i, op, DataOf(file.buffer, at, op), keep);
      Finish(w, f, r, w.luns[i := after.0], after.1)
  }

  /** The target process is killed while it runs its command: before the seek, or after it, when some first bytes of a
      write have reached the file. */
  function NextDie(w: World, f: nat, written: nat, sought: bool): World
    requires Shaped(w) && f in w.files
  {
    var file := w.files[f];
    var op := Decode(file.task.cdb);
    var i := FindLun(w.luns, TaskLun(file.task));
    var at := DataOffset(file.task);
    if i == |w.luns| || !sought || !Seeks(op, w.luns[i].mb) then
      Killed(w.(execs := w.execs + [Torn(file.gid, 0)]), f)
    else
      var own := FlushedAt(w.luns, w.streams, f, i);
      if !op.Write? then Killed(w.(luns := w.luns[i := own], execs := w.execs + [Torn(file.gid, 0)]), f)
      else if at + op.blocks * BLOCK > BUFFER_SIZE then Broken(Exit(w, f))
      else
        var n := Min(written, op.blocks * BLOCK);
        var disk := WriteExtent(own.disk, op.lba, file.buffer[at..at + n]);
        Killed(w.(luns := w.luns[i := own.(disk := disk)], execs := w.execs + [Torn(file.gid, n)]), f)
  }

  function NextComplete(w: World, f: nat): World
    requires Shaped(w) && f in w.files
  {
    var file := w.files[f];
    if !Usable(w, file) || COMPLETION_SIZE + file.task.bufflen > BUFFER_SIZE then Broken(Exit(w, f))
    else
      var m := Completion(file.buffer, file.task.num, file.status, file.task.bufflen);
      var q := w.sess.value.queue;
      var i := IndexOfNum(q, CompletedNum(m));
      var buffer := Patch(file.buffer, 0, CompletionHead(file.task.num, file.status));
      var idle := WithFile(w, f, file.(pc := Idle, buffer := buffer));
      if i == |q| then idle
      else
        // the kernel takes as many bytes as the command's own buffer holds
        var r := w.reqs[q[i].gid];
        var data := if m[5] == 0 && |m| > COMPLETION_SIZE then ReplyBytes(file.buffer, r.cmd.bufflen) else r.payload;
        Leave(idle, i, Done(q[i].gid, ResultOf(m[5]), data))
  }

  function Next(w: World, l: Label): World
    requires Shaped(w) && Enabled(w, l)
  {
    match l
    case Open(f) => WithFile(w, f, File(None, Idle, UserTask(0, 0, 0, 0, 0, Zeros(16), 0), Zeros(BUFFER_SIZE), 0, 0))
    case Register(f, hostAdded) => NextRegister(w, f, hostAdded)
    case Release(f) => NextRelease(w, f)
    case Unregister => NextUnregister(w)
    case Submit(req, slot) => NextSubmit(w, req, slot)
    case Abort(sc) => NextAbort(w, sc)
    case Reset => LeaveAll(w, Some(Drained(w.sess.value)), DropAll(w.sess.value.queue))
    case ReadHeader(f) => NextReadHeader(w, f)
    case ClaimTask(f) => NextClaim(w, f)
    case Fetch(f) => NextFetch(w, f)
    case Execute(f, canned, keep) => NextExecute(w, f, canned, keep)
    case Die(f, written, sought) => NextDie(w, f, written, sought)
    case Complete(f) => NextComplete(w, f)
  }

  function Init(luns: seq<Lun>): World {
    World(None, 0, 0, map[], [], map[], [], [], luns, map[], [], false)
  }
}
