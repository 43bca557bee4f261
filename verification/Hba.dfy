/**
 * kernel/hba.c on its own objects: commands, tasks and sessions that point to each other.  Each locked section is
 * one method.  View gives the session as the value on which the protocol is defined, and the methods are proved to
 * do to the view what the functions of module Queue say.
 */
module Hba {
  import opened Bytes
  import opened Wire
  import opened ScatterGather
  import Q = Queue

  const CONNECTION_NOT_READY: nat := 0
  const CONNECTION_READY: nat := 1

  const TASK_SUBMITTED: nat := 1
  const TASK_RECEIVED: nat := 4
  const TASK_ABORTED: nat := 6

  const HOST_BUSY: int := 0x1055
  const SENSE_SIZE: nat := 96

  /** set_sensedata_commfailure: five bytes are stored, the others keep their values. */
  function CommFailure(sense: seq<byte>): (s: seq<byte>)
    requires |sense| == SENSE_SIZE
    ensures |s| == SENSE_SIZE
  {
    sense[0 := 0x70][2 := 0x02][7 := 0x06][12 := 0x08][13 := 0x00]
  }

  /** set_sensedata_illegal: the whole buffer is cleared first. */
  function IllegalSense(): (s: seq<byte>)
    ensures |s| == SENSE_SIZE
  {
    Zeros(SENSE_SIZE)[0 := 0x70][7 := 0x06]
  }

  /** Sense data in fixed format as an initiator reads it (SPC-3, section 4.5.3): response code, sense key, number of
      additional bytes, and additional sense code with its qualifier. */
  datatype FixedSense = FixedSense(response: nat, key: nat, additional: nat, code: nat, qualifier: nat)

  function DecodeSense(sense: seq<byte>): FixedSense
    requires |sense| == SENSE_SIZE
  {
    FixedSense(sense[0] % 128, sense[2] % 16, sense[7], sense[12], sense[13])
  }

  const NO_SENSE: nat := 0
  const NOT_READY: nat := 2

  /** Current error, not ready, logical unit communication failure; everything else is as it was. */
  ghost predicate TellsNotReady(sense: seq<byte>, before: seq<byte>) {
    && |sense| == |before| == SENSE_SIZE
    && DecodeSense(sense) == FixedSense(0x70, NOT_READY, 6, 0x08, 0x00)
    && sense[0] < 128 && sense[2] < 16
    && forall k :: 0 <= k < SENSE_SIZE && k !in [0, 2, 7, 12, 13] ==> sense[k] == before[k]
  }

  /** Current error, but no sense and no additional code, in a buffer that holds nothing else. */
  lemma IllegalSenseMeans()
    ensures DecodeSense(IllegalSense()) == FixedSense(0x70, NO_SENSE, 6, 0x00, 0x00)
    ensures IllegalSense()[0] < 128
    ensures forall k :: 0 < k < SENSE_SIZE && k != 7 ==> IllegalSense()[k] == 0
  {
  }

  lemma CommFailureMeans(before: seq<byte>)
    requires |before| == SENSE_SIZE
    ensures TellsNotReady(CommFailure(before), before)
  {
  }

  /** struct scsi_cmnd; id names the object. */
  class ScsiCmnd {
    const id: nat
    const command: Command
    const useSg: bool
    const segs: seq<Sg>
    var ptr: Task?
    var result: nat
    var resid: nat
    var sense: seq<byte>

    constructor (id: nat, command: Command, useSg: bool, segs: seq<Sg>)
      ensures this.id == id && this.command == command && this.useSg == useSg && this.segs == segs
      ensures ptr == null && |sense| == SENSE_SIZE
    {
      this.id, this.command, this.useSg, this.segs := id, command, useSg, segs;
      ptr, result, resid, sense := null, 0, 0, Zeros(SENSE_SIZE);
    }
  }

  /** What a command looks like that is handed back because no target is connected. */
  ghost predicate NotConnected(sc: ScsiCmnd, sense: seq<byte>)
    reads sc
  {
    && sc.result == DID_NO_CONNECT * 0x1_0000 && sc.resid == sc.command.bufflen
    && TellsNotReady(sc.sense, sense)
  }

  class Task {
    const cmdNumber: uint32
    const lun: uint32
    const sc: ScsiCmnd
    const session: Session
    ghost const gid: nat
    var flags: nat

    constructor (cmdNumber: uint32, sc: ScsiCmnd, session: Session, ghost gid: nat)
      ensures this.cmdNumber == cmdNumber && this.sc == sc && this.session == session && this.gid == gid
      ensures lun == sc.command.lun && flags == TASK_SUBMITTED
    {
      this.cmdNumber, this.lun, this.sc, this.session, this.gid := cmdNumber, sc.command.lun, sc, session, gid;
      flags := TASK_SUBMITTED;
    }

    ghost function View(): Q.Task
      reads this
    {
      Q.Task(gid, sc.id, cmdNumber, if flags == TASK_RECEIVED then Q.Received else Q.Submitted)
    }
  }

  ghost function Views(q: seq<Task>): (v: seq<Q.Task>)
    reads q
    ensures |v| == |q| && forall i :: 0 <= i < |q| ==> v[i] == q[i].View()
  {
    seq(|q|, i requires 0 <= i < |q| reads q => q[i].View())
  }

  function Commands(q: seq<Task>): seq<ScsiCmnd> {
    seq(|q|, i requires 0 <= i < |q| => q[i].sc)
  }

  ghost function Senses(q: seq<Task>): (s: seq<seq<byte>>)
    reads set t | t in q :: t.sc
    ensures |s| == |q| && forall i :: 0 <= i < |q| ==> s[i] == q[i].sc.sense
  {
    if q == [] then [] else [q[0].sc.sense] + Senses(q[1..])
  }

  function Position<T(==)>(q: seq<T>, t: T): (i: nat)
    requires t in q
    ensures i < |q| && q[i] == t
  {
    if q[0] == t then 0 else 1 + Position(q[1..], t)
  }

  class Session {
    const devId: nat
    var flags: nat
    var deviceOpen: byte
    var cmdNumbers: uint32
    var nextCmdNumber: uint32
    var queue: seq<Task>
    // the commands of this host, and those handed back by a call of scsi_done, in order
    ghost var commands: set<ScsiCmnd>
    ghost var handed: seq<ScsiCmnd>
    // the number of commands accepted before the session was created, and the index of the next one
    ghost const base: nat
    ghost var next: nat

    constructor (devId: nat, ghost base: nat)
      ensures Valid() && fresh(this)
      ensures View() == Q.NewSession(base) && commands == {} && queue == [] && handed == [] && this.devId == devId
              && next == base
    {
      this.devId, this.base, next := devId, base, base;
      flags, deviceOpen, cmdNumbers, nextCmdNumber, queue := CONNECTION_NOT_READY, 0, 0, 1, [];
      commands, handed := {}, [];
    }

    ghost predicate TasksLinked()
      reads this, queue, commands
    {
      forall i :: 0 <= i < |queue| ==>
        queue[i].session == this && queue[i].sc in commands && queue[i].sc.ptr == queue[i]
    }

    ghost predicate CommandsLinked()
      reads this, commands
    {
      forall c :: c in commands && c.ptr != null ==> c.ptr in queue && c.ptr.sc == c
    }

    ghost predicate Distinct()
      reads this
    {
      forall i, j :: 0 <= i < j < |queue| ==> queue[i] != queue[j]
    }

    ghost predicate CommandsSane()
      reads this, commands
    {
      && (forall c :: c in commands ==> |c.sense| == SENSE_SIZE)
      && (forall c, d :: c in commands && d in commands && c.id == d.id ==> c == d)
    }

    /** Tasks and commands point to each other, one to one. */
    ghost predicate Linked()
      reads this, queue, commands
    {
      TasksLinked() && CommandsLinked() && Distinct() && CommandsSane() && cmdNumbers == |queue| % TWO32
    }

    ghost predicate Flagged()
      reads this, queue
    {
      forall i :: 0 <= i < |queue| ==> queue[i].flags == TASK_SUBMITTED || queue[i].flags == TASK_RECEIVED
    }

    ghost predicate Valid()
      reads this, queue, commands
    {
      Linked() && Flagged()
    }

    ghost function View(): Q.Session
      reads this, queue
    {
      Q.Session(base, flags == CONNECTION_READY, deviceOpen, cmdNumbers, nextCmdNumber, Views(queue))
    }

    /** task_of_cmd. */
    method TaskOfCmd(cmdNumber: uint32) returns (task: Task?)
      ensures var i := Q.IndexOfNum(View().queue, cmdNumber);
              task == if i < |queue| then queue[i] else null
    {
      for i := 0 to |queue|
        invariant forall j :: 0 <= j < i ==> queue[j].cmdNumber != cmdNumber
      {
        if queue[i].cmdNumber == cmdNumber {
          Q.IndexOfNumIs(View().queue, cmdNumber, i);
          return queue[i];
        }
      }
      Q.IndexOfNumIs(View().queue, cmdNumber, |queue|);
      return null;
    }

    /** Taking one task out of the queue and clearing its command's pointer keeps everything linked. */
    twostate lemma TakenOut(i: nat)
      requires old(Linked()) && i < |old(queue)|
      requires queue == Q.Without(old(queue), i) && commands == old(commands)
      requires cmdNumbers == (old(cmdNumbers) + TWO32 - 1) % TWO32
      requires forall c :: c in commands ==> c.sense == old(c.sense)
      requires forall c :: c in commands ==> c.ptr == if c == old(queue)[i].sc then null else old(c.ptr)
      ensures Linked() && old(queue)[i] !in queue
    {
      var q := old(queue);
      assert forall k :: 0 <= k < |queue| ==> queue[k] == q[if k < i then k else k + 1];
      assert q[i].sc.ptr == null;
      forall k | 0 <= k < |queue|
        ensures queue[k].session == this && queue[k].sc in commands && queue[k].sc.ptr == queue[k]
      {
        assert old(q[i].sc.ptr) == q[i];
      }
      assert TasksLinked();
      forall c | c in commands && c.ptr != null ensures c.ptr in queue && c.ptr.sc == c {
        var k := Position(q, c.ptr);
        assert old(q[i].sc.ptr) == q[i] && k != i;
        assert queue[if k < i then k else k - 1] == c.ptr;
      }
      assert CommandsLinked();
      assert Distinct() && CommandsSane();
    }

    /** So does adding a task for a command that has none. */
    twostate lemma PutIn(sc: ScsiCmnd, new task: Task)
      requires old(Linked()) && sc in commands && task !in old(queue)
      requires forall i :: 0 <= i < |old(queue)| ==> old(queue)[i].sc != sc
      requires queue == old(queue) + [task] && commands == old(commands)
      requires task.sc == sc && task.session == this
      requires cmdNumbers == (old(cmdNumbers) + 1) % TWO32
      requires forall c :: c in commands ==> |c.sense| == SENSE_SIZE && c.ptr == if c == sc then task else old(c.ptr)
      ensures Linked()
    {
      var q := old(queue);
      assert queue[|q|] == task && forall k :: 0 <= k < |q| ==> queue[k] == q[k];
      assert TasksLinked();
      forall c | c in commands && c.ptr != null ensures c.ptr in queue && c.ptr.sc == c {
        if c != sc {
          assert queue[Position(q, c.ptr)] == c.ptr;
        }
      }
      assert CommandsLinked();
      assert Distinct() && CommandsSane();
    }

    /** A command without a task may be touched. */
    twostate lemma Untouched(sc: ScsiCmnd)
      requires old(Linked()) && sc in commands && old(sc.ptr) == sc.ptr && |sc.sense| == SENSE_SIZE
      requires queue == old(queue) && commands == old(commands) && cmdNumbers == old(cmdNumbers)
      requires forall c :: c in commands && c != sc ==> c.ptr == old(c.ptr) && c.sense == old(c.sense)
      ensures Linked()
    {
      forall i | 0 <= i < |queue| ensures queue[i].sc.ptr == queue[i] {
      }
      assert TasksLinked() && CommandsLinked() && Distinct() && CommandsSane();
    }

    /** The view loses the task that was taken out; the flags of the others have not moved. */
    twostate lemma ViewTakenOut(i: nat)
      requires i < |old(queue)| && queue == Q.Without(old(queue), i)
      requires forall k :: 0 <= k < |old(queue)| && k != i ==> old(queue)[k].flags == old(queue[k].flags)
      ensures Views(queue) == Q.Without(old(Views(queue)), i)
      ensures old(Flagged()) ==> Flagged()
    {
      var q := old(queue);
      assert forall k :: 0 <= k < |queue| ==> queue[k] == q[if k < i then k else k + 1];
    }

    twostate lemma FlagsKept()
      requires queue == old(queue)
      requires forall k :: 0 <= k < |queue| ==> queue[k].flags == old(queue[k].flags)
      ensures old(Flagged()) ==> Flagged()
    {
    }

    twostate lemma ViewPutIn(new task: Task)
      requires queue == old(queue) + [task] && task.flags == TASK_SUBMITTED
      requires forall k :: 0 <= k < |old(queue)| ==> old(queue)[k].flags == old(queue[k].flags)
      ensures Views(queue) == old(Views(queue)) + [task.View()]
      ensures old(Flagged()) ==> Flagged()
    {
      var q := old(queue);
      assert queue[|q|] == task && forall k :: 0 <= k < |q| ==> queue[k] == q[k];
    }

    lemma NoTaskNoPointer(sc: ScsiCmnd)
      requires Linked() && sc in commands && forall i :: 0 <= i < |queue| ==> queue[i].sc != sc
      ensures sc.ptr == null
    {
      if sc.ptr != null {
        assert false;
      }
    }

    /** scsitap_complete_task; the task's flag is read as it was before the task was freed. */
    method CompleteTask(task: Task)
      requires Linked() && task in queue
      modifies this`queue, this`cmdNumbers, this`handed, task.sc`ptr
      ensures Linked() && task !in queue
      ensures queue == Q.Without(old(queue), Position(old(queue), task))
      ensures cmdNumbers == (old(cmdNumbers) + TWO32 - 1) % TWO32
      ensures task.sc.ptr == null
      ensures handed == old(handed) + if task.flags != TASK_ABORTED then [task.sc] else []
    {
      hide TasksLinked, CommandsLinked, Distinct, CommandsSane;
      var sc := task.sc;
      ghost var i := Position(queue, task);
      cmdNumbers := if cmdNumbers == 0 then TWO32 - 1 else cmdNumbers - 1;
      queue := Q.Without(queue, Position(queue, task));
      sc.ptr := null;
      if task.flags != TASK_ABORTED {
        handed := handed + [sc];
      }
      TakenOut(i);
    }

    /** The stores that refuse a command for want of a target. */
    static method Refuse(sc: ScsiCmnd)
      requires |sc.sense| == SENSE_SIZE
      modifies sc
      ensures NotConnected(sc, old(sc.sense)) && |sc.sense| == SENSE_SIZE && sc.ptr == old(sc.ptr)
    {
      sc.result := DID_NO_CONNECT * 0x1_0000;
      sc.resid := sc.command.bufflen;
      CommFailureMeans(sc.sense);
      sc.sense := CommFailure(sc.sense);
    }

    /** scsitap_queuecommand; slot tells whether the task cache had a slot. */
    method QueueCommand(sc: ScsiCmnd, slot: bool) returns (ret: int)
      requires Valid() && sc in commands
      requires forall i :: 0 <= i < |queue| ==> queue[i].sc != sc
      modifies this, sc
      ensures Valid() && commands == old(commands)
      ensures old(flags) != CONNECTION_READY ==>
                && ret == 0 && View() == old(View()) && next == old(next) && handed == old(handed) + [sc]
                && queue == old(queue) && sc.ptr == null && NotConnected(sc, old(sc.sense))
      ensures old(flags) == CONNECTION_READY && !slot ==>
                && ret == HOST_BUSY && View() == old(View()) && next == old(next) && sc.ptr == null
                && queue == old(queue) && handed == old(handed)
      ensures old(flags) == CONNECTION_READY && slot ==>
                && ret == 0 && View() == Q.Accept(old(View()), old(next), sc.id) && next == old(next) + 1
                && sc.ptr != null && fresh(sc.ptr) && queue == old(queue) + [sc.ptr]
                && sc.ptr.sc == sc && sc.ptr.lun == sc.command.lun
                && handed == old(handed) && sc.result == 0
    {
      hide TasksLinked, CommandsLinked, Distinct, Views, Flagged;
      NoTaskNoPointer(sc);
      if flags != CONNECTION_READY {
        Refuse(sc);
        handed := handed + [sc];
        Untouched(sc);
        FlagsKept();
        return 0;
      }
      sc.result := 0;
      sc.ptr := null;
      if !slot {
        Untouched(sc);
        FlagsKept();
        return HOST_BUSY;
      }
      nextCmdNumber := if nextCmdNumber != 0 then nextCmdNumber else 1;
      var task := new Task(nextCmdNumber, sc, this, next);
      cmdNumbers := (cmdNumbers + 1) % TWO32;
      nextCmdNumber := (nextCmdNumber + 1) % TWO32;
      sc.ptr := task;
      queue := queue + [task];
      next := next + 1;
      PutIn(sc, task);
      ViewPutIn(task);
      return 0;
    }

    /** scsitap_eh_abort. */
    method EhAbort(sc: ScsiCmnd)
      requires Valid() && sc in commands
      modifies this, sc, sc.ptr
      ensures Valid() && commands == old(commands) && sc.ptr == null && handed == old(handed)
      ensures next == old(next)
      ensures old(sc.ptr) == null ==> View() == old(View()) && queue == old(queue)
      ensures old(sc.ptr) != null ==>
                && old(sc.ptr) in old(queue)
                && View() == Q.Remove(old(View()), Position(old(queue), old(sc.ptr)))
                && queue == Q.Without(old(queue), Position(old(queue), old(sc.ptr)))
    {
      hide TasksLinked, Distinct, CommandsSane, Views, Flagged;
      var task := sc.ptr;
      if task == null {
        return;
      }
      ghost var q, i := queue, Position(queue, task);
      OnlyAt(i);
      task.flags := TASK_ABORTED;
      Reflagged();
      CompleteTask(task);
      ViewTakenOut(i);
    }

    /** scsitap_eh_host_reset: the list is emptied while it is walked. */
    method EhHostReset()
      requires Valid()
      modifies this`queue, this`cmdNumbers, this`handed, queue, set t | t in queue :: t.sc
      ensures Valid() && View() == Q.Drained(old(View())) && queue == [] && handed == old(handed)
      ensures forall t :: t in old(queue) ==> t.sc.ptr == null
    {
      hide TasksLinked, CommandsLinked, Distinct, CommandsSane, Views;
      ghost var v := View();
      var q := queue;
      TasksOfLinked();
      for i := 0 to |q|
        invariant Linked() && queue == q[i..] && handed == old(handed)
        invariant forall k :: 0 <= k < i ==> q[k].sc.ptr == null
      {
        label turn:
        assert q[i..][0] == q[i] && q[i..][1..] == q[i + 1..];
        q[i].flags := TASK_ABORTED;
        Reflagged@turn();
        CompleteTask(q[i]);
      }
      assert queue == [];
      EmptiedView(v);
    }

    lemma TasksOfLinked()
      requires Linked()
      ensures forall i :: 0 <= i < |queue| ==> queue[i].sc in commands
    {
    }

    lemma SensesSized()
      requires Linked()
      ensures forall i :: 0 <= i < |queue| ==> |queue[i].sc.sense| == SENSE_SIZE
    {
    }

    lemma Emptied(c: uint32, n: nat)
      requires c == n % TWO32
      ensures (c - n) % TWO32 == 0
    {
      assert n == n / TWO32 * TWO32 + c;
      assert c - n == (-(n / TWO32)) * TWO32;
    }

    /** One turn of the loop below. */
    method HandBackFirst(task: Task)
      requires Linked() && queue != [] && queue[0] == task && |task.sc.sense| == SENSE_SIZE
      requires task.flags != TASK_ABORTED
      modifies this`queue, this`cmdNumbers, this`handed, task.sc
      ensures Linked() && queue == old(queue)[1..] && handed == old(handed) + [task.sc]
      ensures task.sc.ptr == null && NotConnected(task.sc, old(task.sc.sense))
    {
      hide TasksLinked, CommandsLinked, Distinct, CommandsSane, CommFailure;
      Refuse(task.sc);
      Resensed(task.sc);
      CompleteTask(task);
    }

    /** The loop of scsitap_destroy_session over the pending commands. */
    method HandBackAll()
      requires Valid()
      modifies this`queue, this`cmdNumbers, this`handed, set t | t in queue :: t.sc
      ensures Valid() && View() == Q.Drained(old(View())) && queue == []
      ensures handed == old(handed) + Commands(old(queue))
      ensures forall t :: t in old(queue) ==> t.sc.ptr == null && NotConnected(t.sc, old(t.sc.sense))
    {
      hide TasksLinked, CommandsLinked, Distinct, CommandsSane, Views, NotConnected, CommFailure, Flagged, Senses;
      ghost var v := View();
      var q := queue;
      ghost var senses := Senses(q);
      TasksOfLinked();
      CommandsApart();
      SensesSized();
      NotAborted();
      for i := 0 to |q|
        invariant Linked() && queue == q[i..]
        invariant handed == old(handed) + Commands(q[..i])
        invariant forall k :: 0 <= k < i ==> q[k].sc.ptr == null && NotConnected(q[k].sc, senses[k])
        invariant forall k :: i <= k < |q| ==> q[k].sc.sense == senses[k] && |senses[k]| == SENSE_SIZE
      {
        assert q[i..][0] == q[i] && q[i..][1..] == q[i + 1..];
        HandBackFirst(q[i]);
        assert Commands(q[..i + 1]) == Commands(q[..i]) + [q[i].sc];
      }
      assert queue == [] && q[..|q|] == q;
      NoTasksFlagged();
      EmptiedView(v);
    }

    /** An empty queue with its exact count is a drained one. */
    lemma EmptiedView(v: Q.Session)
      requires Linked() && queue == [] && v.cmdNumbers == |v.queue| % TWO32
      requires v.(queue := [], cmdNumbers := 0) == View().(queue := [], cmdNumbers := 0)
      ensures View() == Q.Drained(v)
    {
      Emptied(v.cmdNumbers, |v.queue|);
    }

    lemma NotAborted()
      requires Flagged()
      ensures forall i :: 0 <= i < |queue| ==> queue[i].flags != TASK_ABORTED
    {
    }

    lemma NoTasksFlagged()
      requires queue == []
      ensures Flagged()
    {
    }

    lemma CommandsApart()
      requires Linked()
      ensures forall i, j :: 0 <= i < j < |queue| ==> queue[i].sc != queue[j].sc
    {
      forall i, j | 0 <= i < j < |queue| ensures queue[i].sc != queue[j].sc {
        assert queue[i].sc.ptr == queue[i] && queue[j].sc.ptr == queue[j];
      }
    }

    /** Nor do they depend on what a sense buffer holds. */
    twostate lemma Resensed(sc: ScsiCmnd)
      requires old(Linked())
      requires queue == old(queue) && commands == old(commands) && cmdNumbers == old(cmdNumbers)
      requires forall c :: c in commands ==> c.ptr == old(c.ptr) && |c.sense| == |old(c.sense)|
      ensures Linked()
    {
    }

    lemma OnlyAt(i: nat)
      requires Linked() && i < |queue|
      ensures forall k :: 0 <= k < |queue| && k != i ==> queue[k] != queue[i]
      ensures queue[i].sc in commands && queue[i].sc.ptr == queue[i]
    {
    }

    lemma PositionIs(i: nat)
      requires Linked() && i < |queue|
      ensures Position(queue, queue[i]) == i
    {
    }

    /** The links do not depend on the flags. */
    twostate lemma Reflagged()
      requires old(Linked())
      requires queue == old(queue) && commands == old(commands) && cmdNumbers == old(cmdNumbers)
      requires forall c :: c in commands ==> c.ptr == old(c.ptr) && c.sense == old(c.sense)
      ensures Linked()
    {
    }
  }
}
