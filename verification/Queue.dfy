/**
 * The task queue of one session as a value: what the locked sections of kernel/hba.c and kernel/device.c do to it.
 * Every accepted command has a global index gid, its place in the order of acceptance; the kernel knows only the
 * 32-bit command number derived from it.
 */
module Queue {
  import opened Bytes

  /** How many command numbers there are: 0 is never given out. */
  const NUMBERS: nat := TWO32 - 1

  datatype Flag = Submitted | Received

  datatype Task = Task(gid: nat, sc: nat, num: uint32, flag: Flag)

  datatype Session = Session(base: nat, ready: bool, open: byte, cmdNumbers: uint32, nextNum: uint32, queue: seq<Task>)

  // ----- the operations

  /** scsitap_create_session: numbering starts at 1; base is the number of commands accepted before. */
  function NewSession(base: nat): Session {
    Session(base, false, 0, 0, 1, [])
  }

  /** The number the next accepted command gets. */
  function NextNumber(s: Session): uint32 {
    if s.nextNum == 0 then 1 else s.nextNum
  }

  function Accept(s: Session, gid: nat, sc: nat): Session {
    var num := NextNumber(s);
    s.(cmdNumbers := (s.cmdNumbers + 1) % TWO32,
       nextNum := (num + 1) % TWO32,
       queue := s.queue + [Task(gid, sc, num, Submitted)])
  }

  /** task_of_cmd: the position of the first task with this number, or the length of the queue. */
  function IndexOfNum(q: seq<Task>, num: uint32): (i: nat)
    ensures i <= |q|
    ensures i < |q| ==> q[i].num == num
    ensures forall j :: 0 <= j < i ==> q[j].num != num
  {
    if q == [] || q[0].num == num then 0
    else
      var i := IndexOfNum(q[1..], num);
      assert forall j :: 0 < j <= i ==> q[j] == q[1..][j - 1];
      1 + i
  }

  /** The position of the first task that no target has claimed, or the length of the queue. */
  function FirstSubmitted(q: seq<Task>): (i: nat)
    ensures i <= |q|
    ensures i < |q| ==> q[i].flag == Submitted
    ensures forall j :: 0 <= j < i ==> q[j].flag == Received
  {
    if q == [] || q[0].flag == Submitted then 0
    else
      assert q[0].flag == Received;
      var i := FirstSubmitted(q[1..]);
      assert forall j :: 0 < j <= i ==> q[j] == q[1..][j - 1];
      1 + i
  }

  /** The position of the task object with this index, or the length of the queue. */
  function IndexOfTask(q: seq<Task>, gid: nat): (i: nat)
    ensures i <= |q|
    ensures i < |q| ==> q[i].gid == gid
    ensures forall j :: 0 <= j < i ==> q[j].gid != gid
  {
    if q == [] || q[0].gid == gid then 0
    else
      var i := IndexOfTask(q[1..], gid);
      assert forall j :: 0 < j <= i ==> q[j] == q[1..][j - 1];
      1 + i
  }

  /** The searches are determined by what their contracts say. */
  lemma {:induction false} IndexOfNumIs(q: seq<Task>, num: uint32, i: nat)
    requires i <= |q| && (i < |q| ==> q[i].num == num) && forall j :: 0 <= j < i ==> q[j].num != num
    ensures IndexOfNum(q, num) == i
  {
    if i == 0 {
    } else {
      IndexOfNumIs(q[1..], num, i - 1);
    }
  }

  lemma {:induction false} FirstSubmittedIs(q: seq<Task>, i: nat)
    requires i <= |q| && (i < |q| ==> q[i].flag == Submitted) && forall j :: 0 <= j < i ==> q[j].flag == Received
    ensures FirstSubmitted(q) == i
  {
    if i == 0 {
    } else {
      FirstSubmittedIs(q[1..], i - 1);
    }
  }

  function Without<T>(q: seq<T>, i: nat): (r: seq<T>)
    requires i < |q|
    ensures |r| == |q| - 1
  {
    q[..i] + q[i + 1..]
  }

  /** scsitap_complete_task, as far as the session is concerned. */
  function Remove(s: Session, i: nat): Session
    requires i < |s.queue|
  {
    s.(cmdNumbers := (s.cmdNumbers + TWO32 - 1) % TWO32, queue := Without(s.queue, i))
  }

  function MarkReceived(s: Session, i: nat): Session
    requires i < |s.queue|
  {
    s.(queue := s.queue[i := s.queue[i].(flag := Received)])
  }

  /** SCSITAP_IOCTL_RECEIVE_TASK on a ready session. */
  function Claim(s: Session, num: uint32): Session {
    var i := IndexOfNum(s.queue, num);
    if i < |s.queue| then MarkReceived(s, i) else s
  }

  /** Every task of the queue has been completed, one after the other. */
  function Drained(s: Session): Session {
    s.(cmdNumbers := (s.cmdNumbers - |s.queue|) % TWO32, queue := [])
  }

  /** SCSITAP_IOCTL_REGISTER_CLIENT on an existing session: Device_Open is one byte. */
  function Attach(s: Session): Session {
    s.(open := (s.open + 1) % 256, ready := true)
  }

  /** The close of a file attached to the session. */
  function Detach(s: Session): Session {
    var open := (s.open + 255) % 256;
    s.(open := open, ready := s.ready && open != 0)
  }

  // ----- command numbers

  /** The number of the k-th accepted command of a session, counting from 0. */
  function NumOf(k: nat): (n: uint32)
    ensures 1 <= n
  {
    k % NUMBERS + 1
  }

  /** next is the number of commands accepted so far, over all sessions. */
  ghost predicate Counting(s: Session, next: nat) {
    s.base <= next && NextNumber(s) == NumOf(next - s.base)
  }

  ghost predicate Numbered(q: seq<Task>, base: nat) {
    forall i :: 0 <= i < |q| ==> base <= q[i].gid && q[i].num == NumOf(q[i].gid - base)
  }

  ghost predicate Ordered(q: seq<Task>) {
    forall i, j :: 0 <= i < j < |q| ==> q[i].gid < q[j].gid
  }

  /** Claimed tasks come first. */
  ghost predicate Fifo(q: seq<Task>) {
    forall i, j :: 0 <= i < j < |q| && q[j].flag == Received ==> q[i].flag == Received
  }

  ghost predicate Below(q: seq<Task>, next: nat) {
    forall i :: 0 <= i < |q| ==> q[i].gid < next
  }

  /** Fewer than 2^32 - 1 commands have been accepted after command gid. */
  predicate Recent(gid: nat, next: nat) {
    gid < next <= gid + NUMBERS
  }

  ghost predicate RecentQueue(q: seq<Task>, next: nat) {
    forall i :: 0 <= i < |q| ==> Recent(q[i].gid, next)
  }

  lemma NumOfNext(k: nat)
    ensures NumOf(k + 1) == if NumOf(k) == NUMBERS then 1 else NumOf(k) + 1
  {
    var d, r := k / 0xFFFF_FFFF, k % 0xFFFF_FFFF;
    assert k == d * 0xFFFF_FFFF + r;
    if r == 0xFFFF_FFFE {
      assert k + 1 == (d + 1) * 0xFFFF_FFFF + 0;
    } else {
      assert k + 1 == d * 0xFFFF_FFFF + (r + 1);
    }
  }

  /** The n-th accepted command of a session gets number ((n - 1) mod (2^32 - 1)) + 1: accepting one keeps the
      counter right through the wrap. */
  lemma AcceptCounts(s: Session, gid: nat, sc: nat)
    requires Counting(s, gid)
    ensures Counting(Accept(s, gid, sc), gid + 1)
    ensures Numbered(s.queue, s.base) ==> Numbered(Accept(s, gid, sc).queue, s.base)
  {
    hide NumOf;
    NumOfNext(gid - s.base);
    assert gid + 1 - s.base == gid - s.base + 1;
  }

  lemma NumOfInjective(a: nat, b: nat)
    requires NumOf(a) == NumOf(b) && a <= b < a + NUMBERS
    ensures a == b
  {
    var da, db := a / NUMBERS, b / NUMBERS;
    assert a == da * NUMBERS + a % NUMBERS && b == db * NUMBERS + b % NUMBERS;
    assert (db - da) * NUMBERS == b - a;
  }

  /** Looking a number up finds the oldest queued task accepted a multiple of 2^32 - 1 places away from the
      command that was meant, if there is one. */
  lemma LookupModulo(q: seq<Task>, base: nat, gid: nat)
    requires Numbered(q, base) && base <= gid
    ensures var i := IndexOfNum(q, NumOf(gid - base));
            && (i < |q| ==> (q[i].gid - base) % NUMBERS == (gid - base) % NUMBERS)
            && (forall j :: 0 <= j < i ==> (q[j].gid - base) % NUMBERS != (gid - base) % NUMBERS)
  {
    var i := IndexOfNum(q, NumOf(gid - base));
    forall j | 0 <= j < i ensures (q[j].gid - base) % NUMBERS != (gid - base) % NUMBERS {
      assert q[j].num == NumOf(q[j].gid - base);
    }
  }

  lemma SameNumberSameCommand(base: nat, next: nat, a: nat, b: nat)
    requires base <= a && base <= b && Recent(a, next) && Recent(b, next)
    requires NumOf(a - base) == NumOf(b - base)
    ensures a == b
  {
    hide NumOf;
    if a <= b {
      NumOfInjective(a - base, b - base);
    } else {
      NumOfInjective(b - base, a - base);
    }
  }

  /** While numbers are recent, looking one up finds the very command it was given to, or nothing. */
  lemma LookupExact(q: seq<Task>, base: nat, next: nat, gid: nat)
    requires Numbered(q, base) && RecentQueue(q, next)
    requires base <= gid && Recent(gid, next)
    ensures var i := IndexOfNum(q, NumOf(gid - base));
            && (i < |q| ==> q[i].gid == gid)
            && (i == |q| ==> forall j :: 0 <= j < |q| ==> q[j].gid != gid)
  {
    hide NumOf, IndexOfNum;
    var num := NumOf(gid - base);
    var i := IndexOfNum(q, num);
    if i < |q| {
      assert Recent(q[i].gid, next);
      SameNumberSameCommand(base, next, q[i].gid, gid);
    } else {
      assert forall j :: 0 <= j < |q| ==> q[j].num != num;
    }
  }

  /** Queued numbers are pairwise distinct while they are recent. */
  lemma NumbersDistinct(q: seq<Task>, base: nat, next: nat, i: nat, j: nat)
    requires Numbered(q, base) && RecentQueue(q, next) && Ordered(q)
    requires i < j < |q|
    ensures q[i].num != q[j].num
  {
    hide NumOf;
    assert Recent(q[i].gid, next) && Recent(q[j].gid, next);
    if q[i].num == q[j].num {
      SameNumberSameCommand(base, next, q[i].gid, q[j].gid);
    }
  }

  /** Hence a command that was just read from the queue is found again under its number. */
  lemma FoundAgain(q: seq<Task>, base: nat, next: nat, i: nat)
    requires Numbered(q, base) && RecentQueue(q, next) && Ordered(q) && i < |q|
    ensures IndexOfNum(q, q[i].num) == i
  {
    hide NumOf, IndexOfNum;
    forall j | 0 <= j < i ensures q[j].num != q[i].num {
      NumbersDistinct(q, base, next, j, i);
    }
    IndexOfNumIs(q, q[i].num, i);
  }

  /** A recent queue is short enough for the counter of pending commands to be exact. */
  lemma {:induction false} RecentIsShort(q: seq<Task>, next: nat)
    requires Ordered(q) && RecentQueue(q, next)
    ensures |q| <= NUMBERS
  {
    if q == [] {
    } else {
      SpreadOut(q, |q| - 1);
      assert Recent(q[0].gid, next) && Recent(q[|q| - 1].gid, next);
    }
  }

  lemma {:induction false} SpreadOut(q: seq<Task>, k: nat)
    requires Ordered(q) && k < |q|
    ensures q[k].gid >= q[0].gid + k
  {
    if k == 0 {
    } else {
      SpreadOut(q, k - 1);
      assert q[k - 1].gid < q[k].gid;
    }
  }
}
