/**
 * The reference: a block device that runs one command at a time, atomically, on its disks.  It knows nothing of
 * queues, headers, numbers or processes.
 */
module BlockDevice {
  import opened Bytes
  import opened Wire
  import opened Scsi
  import opened Engine
  import opened Protocol

  datatype Device = Device(luns: seq<Lun>, issued: seq<Request>, pending: seq<nat>, execs: seq<Exec>, out: seq<Event>)

  /** The LUN a request is addressed to, or the length of the list. */
  function LunOf(luns: seq<Lun>, r: Request): (i: nat)
    ensures i <= |luns|
  {
    FindLun(luns, r.cmd.lun % 256)
  }

  predicate SizedAll(luns: seq<Lun>) {
    forall i :: 0 <= i < |luns| ==> luns[i].Sized()
  }

  /** The disks after the first n bytes of a write have reached its extent; all of it if n is large enough. */
  function Written(luns: seq<Lun>, r: Request, n: nat): (luns': seq<Lun>)
    requires SizedAll(luns) && WellFormed(r)
    ensures SizedAll(luns') && |luns'| == |luns|
    ensures forall i :: 0 <= i < |luns| ==> luns'[i].id == luns[i].id && luns'[i].mb == luns[i].mb
  {
    var i := LunOf(luns, r);
    match Decode(r.cmd.cdb)
    case Write(lba, blocks) =>
      if i < |luns| && InRange(luns[i].mb, lba, blocks)
      then luns[i := luns[i].(disk := WriteExtent(luns[i].disk, lba, r.payload[..Min(n, |r.payload|)]))]
      else luns
    case _ => luns
  }

  /** The disks after one run. */
  function Effect(luns: seq<Lun>, issued: seq<Request>, e: Exec): (luns': seq<Lun>)
    requires SizedAll(luns)
    ensures SizedAll(luns') && |luns'| == |luns|
    ensures forall i :: 0 <= i < |luns| ==> luns'[i].id == luns[i].id && luns'[i].mb == luns[i].mb
  {
    if e.gid < |issued| && WellFormed(issued[e.gid])
    then Written(luns, issued[e.gid], if e.Torn? then e.written else |issued[e.gid].payload|)
    else luns
  }

  /** The reply starts like a REPORT LUNS response; what the buffer held behind it is left. */
  ghost predicate ListsLuns(reply: seq<byte>, ids: seq<byte>, alloc: nat) {
    |ids| <= 256 && exists data: seq<byte> ::
      |data| > alloc && |data| >= 8 && |reply| <= |data| && reply == ReportLunsData(data, ids, alloc)[..|reply|]
  }

  /** Decoding such a reply gives the first LUNs that fit, and the length field counts all of them. */
  lemma ListedLuns(reply: seq<byte>, ids: seq<byte>, alloc: nat)
    requires ListsLuns(reply, ids, alloc) && alloc % 8 == 0 && 16 <= alloc <= |reply|
    ensures FromBe32(reply[..4]) == 8 * |ids| && DecodeLuns(reply, alloc) == ids[..Min(|ids|, (alloc - 8) / 8)]
  {
    var data: seq<byte> :| |data| > alloc && |data| >= 8 && |reply| <= |data|
                           && reply == ReportLunsData(data, ids, alloc)[..|reply|];
    var full := ReportLunsData(data, ids, alloc);
    ReportLunsRoundTrip(data, ids, alloc);
    assert reply[..4] == full[..4];
    assert DecodeLuns(reply, alloc) == DecodeLuns(full, alloc);
  }

  /** Looking a number up finds the first LUN with this number, and fails only if there is none. */
  lemma {:induction false} FindLunFirst(luns: seq<Lun>, id: byte)
    ensures forall j :: 0 <= j < FindLun(luns, id) ==> luns[j].id != id
  {
    if luns == [] {
    } else {
      FindLunFirst(luns[1..], id);
      assert forall j :: 0 < j < |luns| ==> luns[j] == luns[1..][j - 1];
    }
  }

  /** An initiator that decodes the reply finds the numbers of the LUNs themselves, each at its place in the list; and if
      all fit, exactly those numbers under which commands find a LUN. */
  lemma ReportedLuns(reply: seq<byte>, luns: seq<Lun>, alloc: nat)
    requires ListsLuns(reply, Ids(luns), alloc) && alloc % 8 == 0 && 16 <= alloc <= |reply|
    ensures |DecodeLuns(reply, alloc)| == Min(|luns|, (alloc - 8) / 8)
    ensures forall k :: 0 <= k < |DecodeLuns(reply, alloc)| ==> DecodeLuns(reply, alloc)[k] == luns[k].id
    ensures 8 + 8 * |luns| <= alloc ==>
              forall id: byte :: id in DecodeLuns(reply, alloc) <==> FindLun(luns, id) < |luns|
  {
    hide ListsLuns, DecodeLuns;
    ListedLuns(reply, Ids(luns), alloc);
    var found := DecodeLuns(reply, alloc);
    assert forall k :: 0 <= k < |found| ==> found[k] == Ids(luns)[k];
    if 8 + 8 * |luns| <= alloc {
      forall id: byte ensures id in found <==> FindLun(luns, id) < |luns| {
        FindLunFirst(luns, id);
        var i := FindLun(luns, id);
        assert i < |luns| ==> found[i] == luns[i].id;
      }
    }
  }

  /** The reply starts with the READ CAPACITY(10) data of a disk of this size. */
  predicate TellsCapacity(reply: seq<byte>, size: nat)
    requires size <= MAX_MB * MIB
  {
    var n := Min(|reply|, 12);
    reply[..n] == CapacityData(size)[..n]
  }

  /** What a completed run reports about the disks it found. */
  ghost predicate Reports(luns: seq<Lun>, r: Request, status: byte, reply: seq<byte>)
    requires SizedAll(luns) && r.cmd.Valid()
  {
    var i := LunOf(luns, r);
    && i < |luns| && |reply| == (if r.cmd.toDevice then 0 else r.cmd.bufflen)
    && match Decode(r.cmd.cdb)
       case Read(lba, blocks) =>
         if InRange(luns[i].mb, lba, blocks) then status == GOOD && reply == Extent(luns[i].disk, lba, blocks)
         else status == CHECK_CONDITION
       case Write(lba, blocks) =>
         status == if InRange(luns[i].mb, lba, blocks) then GOOD else CHECK_CONDITION
       case ReadCapacity =>
         status == GOOD && TellsCapacity(reply, |luns[i].disk|)
       case ReportLuns(alloc) =>
         if alloc <= r.cmd.bufflen then status == GOOD && ListsLuns(reply, Ids(luns), alloc)
         else status == CHECK_CONDITION
       case Other => true
  }

  /** A command that is younger than everything that has run. */
  ghost predicate NotYetRun(d: Device, gid: nat) {
    gid < |d.issued| && forall k :: 0 <= k < |d.execs| ==> d.execs[k].gid < gid
  }

  ghost predicate Remaining(pending: seq<nat>, pending': seq<nat>, gid: nat) {
    exists i :: 0 <= i < |pending| && pending[i] == gid && pending' == pending[..i] + pending[i + 1..]
  }

  datatype Action =
    | Stay
    | Issue(r: Request)
    | RunOne(e: Exec)
    | Answer(status: byte, reply: seq<byte>, gid: nat)
    | Drop(gid: nat)
    | DropPending
    | Disconnect

  /** One atomic step of the device. */
  ghost predicate Step(d: Device, a: Action, d': Device)
    requires SizedAll(d.luns) && forall k :: 0 <= k < |d.issued| ==> WellFormed(d.issued[k])
  {
    match a
    case Stay => d' == d
    case Issue(r) => WellFormed(r) && d' == d.(issued := d.issued + [r], pending := d.pending + [|d.issued|])
    case RunOne(e) =>
      && e.gid < |d.issued| && WellFormed(d.issued[e.gid])
      && (e.Ran? ==> Reports(d.luns, d.issued[e.gid], e.status, e.reply))
      && d' == d.(luns := Effect(d.luns, d.issued, e), execs := d.execs + [e])
    case Answer(status, reply, gid) =>
      && gid < |d.issued| && Ran(gid, status, reply) in d.execs
      && Remaining(d.pending, d'.pending, gid)
      && var data := if status == GOOD && |reply| > 0 then reply else d.issued[gid].payload;
         d' == d.(pending := d'.pending, out := d.out + [Done(gid, ResultOf(status), data)])
    case Drop(gid) =>
      && Remaining(d.pending, d'.pending, gid)
      && d' == d.(pending := d'.pending, out := d.out + [Dropped(gid)])
    case DropPending =>
      d' == d.(pending := [], out := d.out + seq(|d.pending|, i requires 0 <= i < |d.pending| => Dropped(d.pending[i])))
    case Disconnect =>
      && (forall i :: 0 <= i < |d.pending| ==> d.pending[i] < |d.issued|)
      && d' == d.(pending := [], out := d.out + seq(|d.pending|, i requires 0 <= i < |d.pending| =>
                    Done(d.pending[i], DID_NO_CONNECT * 0x1_0000, d.issued[d.pending[i]].payload)))
  }

  /** The device only starts a command that is younger than everything that has run. */
  ghost predicate InTurn(d: Device, a: Action) {
    a.RunOne? ==> NotYetRun(d, a.e.gid)
  }

  /** Every command has run at most once, in the order of issue. */
  ghost predicate Once(execs: seq<Exec>) {
    forall i, j :: 0 <= i < j < |execs| ==> execs[i].gid < execs[j].gid
  }

  // ----- what the device guarantees

  /** The disks after a sequence of runs. */
  function Replay(luns: seq<Lun>, issued: seq<Request>, execs: seq<Exec>): (luns': seq<Lun>)
    requires SizedAll(luns)
    ensures SizedAll(luns') && |luns'| == |luns|
    ensures forall i :: 0 <= i < |luns| ==> luns'[i].id == luns[i].id && luns'[i].mb == luns[i].mb
  {
    if execs == [] then luns
    else Effect(Replay(luns, issued, execs[..|execs| - 1]), issued, execs[|execs| - 1])
  }

  /** Run k reported the disks as the runs before it had left them. */
  ghost predicate ReportsHistory(luns: seq<Lun>, issued: seq<Request>, execs: seq<Exec>, k: nat)
    requires SizedAll(luns) && k < |execs|
  {
    && execs[k].gid < |issued| && WellFormed(issued[execs[k].gid])
    && (execs[k].Ran? ==>
          Reports(Replay(luns, issued, execs[..k]), issued[execs[k].gid], execs[k].status, execs[k].reply))
  }

  /** A completed command reported what its run reported. */
  ghost predicate Backed(execs: seq<Exec>, issued: seq<Request>, e: Event) {
    e.Done? && e.result < DID_NO_CONNECT * 0x1_0000 ==>
      e.gid < |issued| &&
      exists k :: 0 <= k < |execs| && execs[k].Ran? && execs[k].gid == e.gid && e.result == ResultOf(execs[k].status)
        && e.data == if execs[k].status == GOOD && |execs[k].reply| > 0 then execs[k].reply else issued[e.gid].payload
  }

  ghost predicate Consistent(init: seq<Lun>, d: Device) {
    && SizedAll(init)
    && (forall k :: 0 <= k < |d.issued| ==> WellFormed(d.issued[k]))
    && d.luns == Replay(init, d.issued, d.execs)
    && (forall k :: 0 <= k < |d.execs| ==> ReportsHistory(init, d.issued, d.execs, k))
    && (forall i :: 0 <= i < |d.out| ==> Backed(d.execs, d.issued, d.out[i]))
  }

  lemma {:induction false} ReplayIssued(luns: seq<Lun>, issued: seq<Request>, r: Request, execs: seq<Exec>)
    requires SizedAll(luns) && forall k :: 0 <= k < |execs| ==> execs[k].gid < |issued|
    ensures Replay(luns, issued + [r], execs) == Replay(luns, issued, execs)
  {
    if execs == [] {
    } else {
      ReplayIssued(luns, issued, r, execs[..|execs| - 1]);
      assert execs[|execs| - 1].gid < |issued|;
    }
  }

  lemma IssueKeeps(init: seq<Lun>, d: Device, r: Request, d': Device)
    requires Consistent(init, d) && Step(d, Issue(r), d')
    ensures Consistent(init, d')
  {
    hide Replay, Effect, Reports;
    forall k | 0 <= k < |d.execs| ensures d.execs[k].gid < |d.issued| {
      assert ReportsHistory(init, d.issued, d.execs, k);
    }
    ReplayIssued(init, d.issued, r, d.execs);
    forall k | 0 <= k < |d.execs| ensures ReportsHistory(init, d'.issued, d.execs, k) {
      assert ReportsHistory(init, d.issued, d.execs, k);
      forall j | 0 <= j < k ensures d.execs[..k][j].gid < |d.issued| {
        assert ReportsHistory(init, d.issued, d.execs, j);
      }
      ReplayIssued(init, d.issued, r, d.execs[..k]);
      assert d'.issued[d.execs[k].gid] == d.issued[d.execs[k].gid];
    }
    forall i | 0 <= i < |d'.out| ensures Backed(d.execs, d'.issued, d'.out[i]) {
      assert Backed(d.execs, d.issued, d.out[i]);
    }
  }

  lemma RunKeeps(init: seq<Lun>, d: Device, e: Exec, d': Device)
    requires Consistent(init, d) && Step(d, RunOne(e), d')
    ensures Consistent(init, d')
  {
    hide Effect, Reports, WellFormed;
    assert d'.execs[..|d'.execs| - 1] == d.execs;
    forall k | 0 <= k < |d'.execs| ensures ReportsHistory(init, d'.issued, d'.execs, k) {
      if k < |d.execs| {
        assert ReportsHistory(init, d.issued, d.execs, k);
        assert d'.execs[..k] == d.execs[..k];
      } else {
        assert d'.execs[..k] == d.execs;
      }
    }
    forall i | 0 <= i < |d'.out| ensures Backed(d'.execs, d'.issued, d'.out[i]) {
      BackedStays(d.execs, e, d.issued, d.out[i]);
    }
  }

  lemma BackedStays(execs: seq<Exec>, e: Exec, issued: seq<Request>, v: Event)
    requires Backed(execs, issued, v)
    ensures Backed(execs + [e], issued, v)
  {
    if v.Done? && v.result < DID_NO_CONNECT * 0x1_0000 {
      var k :| 0 <= k < |execs| && execs[k].Ran? && execs[k].gid == v.gid && v.result == ResultOf(execs[k].status)
        && v.data == if execs[k].status == GOOD && |execs[k].reply| > 0 then execs[k].reply else issued[v.gid].payload;
      assert (execs + [e])[k] == execs[k];
    }
  }

  /** Every step of the device keeps its guarantees. */
  lemma StepKeepsConsistent(init: seq<Lun>, d: Device, a: Action, d': Device)
    requires Consistent(init, d) && Step(d, a, d')
    ensures Consistent(init, d')
  {
    if a.Issue? {
      IssueKeeps(init, d, a.r, d');
    } else if a.RunOne? {
      RunKeeps(init, d, a.e, d');
    } else {
      hide Replay, ReportsHistory, Reports, Effect, WellFormed;
      forall i | 0 <= i < |d'.out| ensures Backed(d'.execs, d'.issued, d'.out[i]) {
        if i < |d.out| {
          assert Backed(d.execs, d.issued, d.out[i]) && d'.out[i] == d.out[i];
        } else if a.Answer? {
          var k :| 0 <= k < |d.execs| && d.execs[k] == Ran(a.gid, a.status, a.reply);
        }
      }
    }
  }

  /** If it always starts commands in turn, each runs at most once. */
  lemma StepKeepsOnce(d: Device, a: Action, d': Device)
    requires SizedAll(d.luns) && forall k :: 0 <= k < |d.issued| ==> WellFormed(d.issued[k])
    requires Step(d, a, d') && InTurn(d, a) && Once(d.execs)
    ensures Once(d'.execs)
  {
    hide Effect, Reports, WellFormed;
  }

  /** data is what a read of these disks returns. */
  ghost predicate ReadResult(luns: seq<Lun>, r: Request, data: seq<byte>)
    requires SizedAll(luns) && r.cmd.Valid() && Decode(r.cmd.cdb).Read?
  {
    var op, i := Decode(r.cmd.cdb), LunOf(luns, r);
    i < |luns| && InRange(luns[i].mb, op.lba, op.blocks) && data == Extent(luns[i].disk, op.lba, op.blocks)
  }

  /** data is what a command that was answered good returns: from these disks for a read, and from sizes and numbers
      of the LUNs for the two commands about them. */
  ghost predicate RightData(luns: seq<Lun>, r: Request, data: seq<byte>)
    requires SizedAll(luns) && WellFormed(r)
  {
    match Decode(r.cmd.cdb)
    case Read(_, _) => ReadResult(luns, r, data)
    case ReadCapacity =>
      !r.cmd.toDevice && r.cmd.bufflen > 0 ==>
        LunOf(luns, r) < |luns| && TellsCapacity(data, luns[LunOf(luns, r)].mb * MIB)
    case ReportLuns(alloc) => !r.cmd.toDevice && r.cmd.bufflen > 0 ==> ListsLuns(data, Ids(luns), alloc)
    case _ => true
  }

  /** A command answered with good status carries what the runs before one of its own had left. */
  lemma AnswersAreRight(init: seq<Lun>, d: Device, i: nat)
    requires Consistent(init, d) && i < |d.out| && d.out[i].Done? && d.out[i].result == GOOD as nat
    requires d.out[i].gid < |d.issued|
    ensures exists k :: 0 <= k < |d.execs| && d.execs[k].gid == d.out[i].gid && WellFormed(d.issued[d.out[i].gid])
              && RightData(Replay(init, d.issued, d.execs[..k]), d.issued[d.out[i].gid], d.out[i].data)
  {
    hide ListsLuns, TellsCapacity;
    var gid := d.out[i].gid;
    assert Backed(d.execs, d.issued, d.out[i]);
    var k :| 0 <= k < |d.execs| && d.execs[k].Ran? && d.execs[k].gid == gid
      && d.out[i].result == ResultOf(d.execs[k].status)
      && d.out[i].data == if d.execs[k].status == GOOD && |d.execs[k].reply| > 0 then d.execs[k].reply else d.issued[gid].payload;
    assert ReportsHistory(init, d.issued, d.execs, k);
    assert WellFormed(d.issued[gid]);
    assert RightData(Replay(init, d.issued, d.execs[..k]), d.issued[gid], d.out[i].data);
  }
}
