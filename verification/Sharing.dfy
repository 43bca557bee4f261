/**
 * How often a command runs.  Reading a header does not claim the command, so a second target can read it too.  Every
 * command runs at most once if no header is read while another target stands between the header and the claim of a
 * command that is still unclaimed; and from every state in which that happens both targets can run it.
 */
module Sharing {
  import opened Bytes
  import opened Wire
  import opened Queue
  import opened Scsi
  import opened Engine
  import opened Protocol
  import opened Invariant
  import opened Steps
  import opened Order
  import opened Refinement
  import opened OneTarget
  import opened Continuations

  /** Command gid is queued and unclaimed. */
  ghost predicate Waiting(w: World, gid: nat) {
    exists i :: 0 <= i < |QueueOf(w)| && QueueOf(w)[i].gid == gid && QueueOf(w)[i].flag == Submitted
  }

  /** No two targets are about to run one command, none is about to run what has run, and nothing has run twice. */
  ghost predicate Unshared(w: World) {
    && (forall f, g :: f in w.files && g in w.files && f != g && AboutToRun(w.files[f].pc) && AboutToRun(w.files[g].pc) ==>
          w.files[f].gid != w.files[g].gid)
    && (forall f, k :: f in w.files && AboutToRun(w.files[f].pc) && 0 <= k < |w.execs| ==> w.execs[k].gid != w.files[f].gid)
    && AtMostOnce(w.execs)
  }

  ghost predicate AtMostOnce(execs: seq<Exec>) {
    forall i, j :: 0 <= i < j < |execs| ==> execs[i].gid != execs[j].gid
  }

  /** The guard: no other target stands between the header and the claim of a command that is still unclaimed. */
  ghost predicate Clear(w: World, f: nat) {
    forall g :: g in w.files && g != f && w.files[g].pc == HasHeader ==> !Waiting(w, w.files[g].gid)
  }

  // ----- the guard is exact

  /** The header read returns the command of another target that is about to run it if and only if that target has not
      claimed it and nobody else has. */
  lemma HeaderShared(w: World, f: nat, g: nat)
    requires Inv(w) && Enabled(w, ReadHeader(f)) && NextReadHeader(w, f).files[f].pc == HasHeader
    requires g in w.files && g != f && AboutToRun(w.files[g].pc)
    ensures NextReadHeader(w, f).files[f].gid == w.files[g].gid <==>
            w.files[g].pc == HasHeader && Waiting(w, w.files[g].gid)
  {
    hide Lifetime, Pointers, Accounted, NumOf, WellFormed, Header, ParseHeader, HeadersInOrder, StreamsOk, Flushed,
      WithoutStreams, Describes, HasReply, ExecsClaimed, HasPayload, Fifo;
    AttachedOrNot(w, f);
    HeldFacts(w, g);
    var q := QueueOf(w);
    var i := FirstSubmitted(q);
    assert HeldInOrder(q, w.reqs, w.files[g]);
    assert ClaimedBefore(q, w.files[g].gid);
    if Waiting(w, w.files[g].gid) {
      var k :| 0 <= k < |q| && q[k].gid == w.files[g].gid && q[k].flag == Submitted;
      assert i <= k;
      assert q[i].gid >= q[k].gid;
    }
  }

  /** What has run is claimed, so a header never brings it back. */
  lemma HeaderIsNew(w: World, f: nat, k: nat)
    requires Inv(w) && Enabled(w, ReadHeader(f)) && NextReadHeader(w, f).files[f].pc == HasHeader && k < |w.execs|
    ensures NextReadHeader(w, f).files[f].gid != w.execs[k].gid
  {
    hide Lifetime, Pointers, Accounted, NumOf, WellFormed, Header, ParseHeader, HeadersInOrder, StreamsOk, Flushed,
      WithoutStreams, HoldOk, HasPayload, Fifo;
    AttachedOrNot(w, f);
    assert ClaimedUpTo(QueueOf(w), w.execs[k].gid);
  }

  /** Reading a header keeps commands unshared if and only if the guard holds. */
  lemma ReadKeepsUnshared(w: World, f: nat)
    requires Inv(w) && Unshared(w) && Enabled(w, ReadHeader(f)) && NextReadHeader(w, f).files[f].pc == HasHeader
    ensures Unshared(NextReadHeader(w, f)) <==> Clear(w, f)
  {
    hide Inv, NextReadHeader, Waiting, AtMostOnce;
    ReadFrame(w, f);
    var w' := NextReadHeader(w, f);
    forall g | g in w.files && g != f && AboutToRun(w.files[g].pc)
      ensures w'.files[f].gid == w.files[g].gid <==> w.files[g].pc == HasHeader && Waiting(w, w.files[g].gid)
    {
      HeaderShared(w, f, g);
    }
    forall k | 0 <= k < |w.execs| ensures w'.files[f].gid != w.execs[k].gid {
      HeaderIsNew(w, f, k);
    }
    if !Clear(w, f) {
      var g :| g in w.files && g != f && w.files[g].pc == HasHeader && Waiting(w, w.files[g].gid);
      assert w'.files[f].gid == w'.files[g].gid && AboutToRun(w'.files[g].pc);
    }
  }

  lemma ReadFrame(w: World, f: nat)
    requires Inv(w) && Enabled(w, ReadHeader(f))
    ensures Shaped(w) && f in NextReadHeader(w, f).files
    ensures var w' := NextReadHeader(w, f);
            w'.files == w.files[f := w'.files[f]] && w'.execs == w.execs
            && (w'.files[f].pc != HasHeader ==> !AboutToRun(w'.files[f].pc))
  {
    hide Safe, InOrder, Header, ParseHeader, Flushed, WithoutStreams, FirstSubmitted, WellFormed;
    InvShaped(w);
  }

  // ----- every run under the guard

  /** A target that stays about to run keeps its command; nobody else starts on one; nothing runs. */
  lemma QuietKeepsUnshared(w: World, w': World)
    requires Unshared(w) && w'.execs == w.execs
    requires StartsNothing(w, w')
    ensures Unshared(w')
  {
  }

  lemma RunKeepsUnshared(w: World, f: nat, w': World)
    requires Unshared(w) && f in w.files && Running(w.files[f]) && TargetRan(w, f, w')
    ensures Unshared(w')
  {
    forall g, k | g in w'.files && AboutToRun(w'.files[g].pc) && 0 <= k < |w'.execs|
      ensures w'.execs[k].gid != w'.files[g].gid
    {
      assert g != f && w'.files[g] == w.files[g];
    }
    forall i, j | 0 <= i < j < |w'.execs| ensures w'.execs[i].gid != w'.execs[j].gid {
      assert w'.execs[i] == w.execs[i];
    }
  }

  /** Whoever is about to run after the step was about to run the same command before. */
  ghost predicate StartsNothing(w: World, w': World) {
    forall f :: f in w'.files && AboutToRun(w'.files[f].pc) ==>
      f in w.files && AboutToRun(w.files[f].pc) && w'.files[f].gid == w.files[f].gid
  }

  lemma ClaimStartsNothing(w: World, f: nat)
    requires Shaped(w) && Enabled(w, ClaimTask(f))
    ensures StartsNothing(w, NextClaim(w, f))
  {
    hide Shaped, Claim, Flushed, WithoutStreams;
  }

  lemma FetchStartsNothing(w: World, f: nat)
    requires Shaped(w) && Enabled(w, Fetch(f))
    ensures StartsNothing(w, NextFetch(w, f))
  {
    hide Header, Flushed, WithoutStreams, FirstSubmitted, IndexOfNum, WellFormed, Patch, Below;
  }

  lemma CompleteStartsNothing(w: World, f: nat)
    requires Shaped(w) && Enabled(w, Complete(f))
    ensures StartsNothing(w, NextComplete(w, f))
  {
    hide Flushed, WithoutStreams, IndexOfNum, WellFormed, Completion, CompletedNum, Patch, ReplyBytes, Remove, Below;
  }

  lemma AttachmentStartsNothing(w: World, l: Label)
    requires Shaped(w) && Enabled(w, l) && (l.Open? || l.Register? || l.Release?)
    ensures StartsNothing(w, Next(w, l))
  {
    hide WithoutStreams, WellFormed, Below, Zeros, Attach, Detach;
  }

  lemma StepKeepsUnshared(w: World, l: Label)
    requires Inv(w) && Unshared(w) && Enabled(w, l) && (l.ReadHeader? ==> Clear(w, l.f))
    ensures Shaped(w) && Unshared(Next(w, l))
  {
    hide Inv, Unshared, Clear, Shaped;
    hide NextRegister, NextRelease, NextUnregister, NextSubmit, NextAbort, NextReadHeader, NextClaim, NextFetch,
      NextExecute, NextDie, NextComplete, Drained, LeaveAll;
    InvShaped(w);
    match l
    case ReadHeader(f) =>
      ReadFrame(w, f);
      if NextReadHeader(w, f).files[f].pc == HasHeader {
        ReadKeepsUnshared(w, f);
      } else {
        QuietKeepsUnshared(w, NextReadHeader(w, f));
      }
    case Execute(f, canned, keep) =>
      ExecuteFrame(w, f, canned, keep);
      RunKeepsUnshared(w, f, NextExecute(w, f, canned, keep));
    case Die(f, written, sought) =>
      DieFrame(w, f, written, sought);
      RunKeepsUnshared(w, f, NextDie(w, f, written, sought));
    case ClaimTask(f) =>
      ExecsSame(w, l);
      ClaimStartsNothing(w, f);
      QuietKeepsUnshared(w, Next(w, l));
    case Fetch(f) =>
      ExecsSame(w, l);
      FetchStartsNothing(w, f);
      QuietKeepsUnshared(w, Next(w, l));
    case Complete(f) =>
      ExecsSame(w, l);
      CompleteStartsNothing(w, f);
      QuietKeepsUnshared(w, Next(w, l));
    case Open(_) =>
      ExecsSame(w, l);
      AttachmentStartsNothing(w, l);
      QuietKeepsUnshared(w, Next(w, l));
    case Register(_, _) =>
      ExecsSame(w, l);
      AttachmentStartsNothing(w, l);
      QuietKeepsUnshared(w, Next(w, l));
    case Release(_) =>
      ExecsSame(w, l);
      AttachmentStartsNothing(w, l);
      QuietKeepsUnshared(w, Next(w, l));
    case _ =>
      MidLayerStreams(w, l);
      QuietKeepsUnshared(w, Next(w, l));
  }

  /** Every header read of the run so far met the guard. */
  ghost predicate Guarded(ws: seq<World>, ls: seq<Label>, n: nat)
    requires n <= |ls| < |ws|
  {
    forall k :: 0 <= k < n && ls[k].ReadHeader? ==> Clear(ws[k], ls[k].f)
  }

  /** With any number of targets, if no header is read while another target stands between the header and the claim of
      an unclaimed command, every command runs at most once. */
  lemma {:induction false} GuardedRunsOnce(luns: seq<Lun>, ws: seq<World>, ls: seq<Label>, n: nat)
    requires RecentRun(luns, ws, ls) && n <= |ls| && Guarded(ws, ls, n)
    ensures Unshared(ws[n]) && AtMostOnce(ws[n].execs)
  {
    hide Inv, Next, Enabled, Shaped, NumbersRecent, Bounded, Clear, AtMostOnce;
    if n == 0 {
      assert AtMostOnce([]) by { OnceNone(); }
    } else {
      var k := n - 1;
      GuardedRunsOnce(luns, ws, ls, k);
      RunsKeepInv(luns, ws, ls, k);
      StepKeepsUnshared(ws[k], ls[k]);
    }
  }

  lemma OnceNone()
    ensures AtMostOnce([])
  {
  }

  /** The guard holds in particular when no other target has a header it has not claimed, and with one target. */
  lemma ClearWhenAlone(w: World, f: nat)
    requires Safe(w) && f in w.files
    ensures (forall g :: g in w.files && g != f ==> w.files[g].pc != HasHeader) ==> Clear(w, f)
    ensures Solo(w) && w.files[f].private.Some? ==> Clear(w, f)
  {
    hide QueueOk, Pointers, Accounted, HeadersInOrder, StreamsOk, Holders, Shaped, Waiting;
  }

  // ----- and where it does not hold

  /** A run whose last state has two targets holding the same queued command. */
  ghost predicate Both(luns: seq<Lun>, ws: seq<World>, ls: seq<Label>, f: nat, g: nat, pf: Pc, pg: Pc,
                       gid: nat, r: Request)
  {
    && RecentRun(luns, ws, ls) && f != g
    && var w := ws[|ls|];
    && Holds(w, f, gid, pf) && Holds(w, g, gid, pg)
    && InQueue(QueueOf(w), gid) && gid < |w.reqs| && w.reqs[gid] == r && FindLun(w.luns, r.cmd.lun % 256) < |w.luns|
  }

  /** The steps by which a target that has read a header comes to run the command. */
  predicate Towards(f: nat, pc: Pc, l: Label, pc': Pc, r: Request) {
    match l
    case ClaimTask(h) => h == f && pc == HasHeader && pc' == Claimed
    case Fetch(h) => h == f && pc == Claimed && pc' == HasData && r.cmd.toDevice && r.cmd.bufflen > 0
    case Execute(h, canned, _) => h == f && pc == AboutTo(r) && pc' == Executed && |canned.data| <= MAX_TRANSFER
    case _ => false
  }

  /** A target's loop is here when it runs command r. */
  function AboutTo(r: Request): Pc {
    if r.cmd.toDevice then HasData else Claimed
  }

  ghost predicate OneMore(execs: seq<Exec>, execs': seq<Exec>, gid: nat) {
    |execs'| == |execs| + 1 && execs <= execs' && execs'[|execs|].Ran? && execs'[|execs|].gid == gid
  }

  /** One of the two moves on, the other stays where it is. */
  lemma Advance(luns: seq<Lun>, ws: seq<World>, ls: seq<Label>, f: nat, g: nat, pf: Pc, pg: Pc, gid: nat, r: Request,
                l: Label, pf': Pc) returns (ws': seq<World>, ls': seq<Label>)
    requires Both(luns, ws, ls, f, g, pf, pg, gid, r) && Towards(f, pf, l, pf', r)
    ensures Both(luns, ws', ls', f, g, pf', pg, gid, r) && ws <= ws'
    ensures var execs, execs' := ws[|ls|].execs, ws'[|ls'|].execs;
            if l.Execute? then OneMore(execs, execs', gid) else execs' == execs
  {
    hide Inv, Shaped, NextClaim, NextFetch, NextExecute, FindLun, Below, NumbersRecent, InQueue, Run;
    RecentBounds(luns, ws, ls);
    var w := ws[|ls|];
    match l {
      case ClaimTask(_) => Claims(w, f, gid);
      case Fetch(_) => Fetches(w, f, gid);
      case Execute(_, canned, keep) =>
        Serves(w, f, gid, canned, keep);
        Executes(w, f, gid, canned, keep);
    }
    Continue(luns, ws, ls, l);
    ws', ls' := ws + [Next(w, l)], ls + [l];
    SameIds(Next(w, l).luns, w.luns, r.cmd.lun % 256);
    StillQueued(w, f, Next(w, l), gid);
  }

  lemma Swap(luns: seq<Lun>, ws: seq<World>, ls: seq<Label>, f: nat, g: nat, pf: Pc, pg: Pc, gid: nat, r: Request)
    requires Both(luns, ws, ls, f, g, pf, pg, gid, r)
    ensures Both(luns, ws, ls, g, f, pg, pf, gid, r)
  {
    hide RecentRun;
  }

  /** From the header to the point where the command is run. */
  lemma ClaimAndFetch(luns: seq<Lun>, ws: seq<World>, ls: seq<Label>, f: nat, g: nat, pg: Pc, gid: nat, r: Request)
    returns (ws': seq<World>, ls': seq<Label>)
    requires Both(luns, ws, ls, f, g, HasHeader, pg, gid, r) && (r.cmd.toDevice ==> r.cmd.bufflen > 0)
    ensures Both(luns, ws', ls', f, g, AboutTo(r), pg, gid, r) && ws <= ws' && ws'[|ls'|].execs == ws[|ls|].execs
  {
    hide Both;
    ws', ls' := Advance(luns, ws, ls, f, g, HasHeader, pg, gid, r, ClaimTask(f), Claimed);
    if r.cmd.toDevice {
      ws', ls' := Advance(luns, ws', ls', f, g, Claimed, pg, gid, r, Fetch(f), HasData);
    }
  }

  lemma BothRun(luns: seq<Lun>, ws: seq<World>, ls: seq<Label>, f: nat, g: nat, gid: nat, r: Request)
    returns (ws': seq<World>, ls': seq<Label>)
    requires Both(luns, ws, ls, f, g, AboutTo(r), AboutTo(r), gid, r)
    ensures Both(luns, ws', ls', g, f, Executed, Executed, gid, r) && ws <= ws'
    ensures TwoMore(ws[|ls|].execs, ws'[|ls'|].execs, gid)
  {
    hide RecentRun, Both, AboutTo;
    var canned := Canned(GOOD, []);
    var keep := Keep(0, 0, 0);
    ws', ls' := Advance(luns, ws, ls, f, g, AboutTo(r), AboutTo(r), gid, r, Execute(f, canned, keep), Executed);
    Swap(luns, ws', ls', f, g, Executed, AboutTo(r), gid, r);
    ws', ls' := Advance(luns, ws', ls', g, f, AboutTo(r), Executed, gid, r, Execute(g, canned, keep), Executed);
  }

  ghost predicate TwoMore(execs: seq<Exec>, execs': seq<Exec>, gid: nat) {
    && |execs'| == |execs| + 2 && execs <= execs'
    && execs'[|execs|].Ran? && execs'[|execs| + 1].Ran? && execs'[|execs|].gid == execs'[|execs| + 1].gid == gid
  }

  /** The run ws' continues ws by two executions of command gid. */
  ghost predicate RunsTwice(luns: seq<Lun>, ws: seq<World>, ws': seq<World>, ls': seq<Label>, gid: nat) {
    ws != [] && RecentRun(luns, ws', ls') && ws <= ws' && TwoMore(ws[|ws| - 1].execs, ws'[|ls'|].execs, gid)
  }

  /** An attached target is idle while another stands between the header and the claim of an unclaimed command, which is
      for an existing LUN and has data if it takes data. */
  ghost predicate Contended(w: World, f: nat, g: nat) {
    && f in w.files && g in w.files && f != g && w.files[f].private.Some? && w.files[f].pc == Idle
    && w.files[g].pc == HasHeader && Waiting(w, w.files[g].gid) && w.files[g].gid < |w.reqs|
    && Servable(w, w.files[g].gid)
  }

  ghost predicate Servable(w: World, gid: nat)
    requires gid < |w.reqs|
  {
    var r := w.reqs[gid];
    FindLun(w.luns, r.cmd.lun % 256) < |w.luns| && (r.cmd.toDevice ==> r.cmd.bufflen > 0)
  }

  /** Wherever the guard fails for an idle target, the run can go on so that both targets execute the command. */
  lemma UnguardedRunsTwice(luns: seq<Lun>, ws: seq<World>, ls: seq<Label>, f: nat, g: nat)
    requires RecentRun(luns, ws, ls) && Contended(ws[|ls|], f, g)
    ensures exists ws', ls' :: RunsTwice(luns, ws, ws', ls', ws[|ls|].files[g].gid)
  {
    hide RecentRun, Inv, NumbersRecent, Both, AboutTo, Shaped, FindLun, Waiting, Bounded;
    RecentBounds(luns, ws, ls);
    var gid := ws[|ls|].files[g].gid;
    var r := ws[|ls|].reqs[gid];
    var ws', ls' := Share(luns, ws, ls, f, g);
    ws', ls' := ClaimAndFetch(luns, ws', ls', f, g, HasHeader, gid, r);
    Swap(luns, ws', ls', f, g, AboutTo(r), HasHeader, gid, r);
    ws', ls' := ClaimAndFetch(luns, ws', ls', g, f, AboutTo(r), gid, r);
    ws', ls' := BothRun(luns, ws', ls', g, f, gid, r);
    BothIsRun(luns, ws', ls', f, g, Executed, Executed, gid, r);
    assert RunsTwice(luns, ws, ws', ls', gid);
  }

  lemma BothIsRun(luns: seq<Lun>, ws: seq<World>, ls: seq<Label>, f: nat, g: nat, pf: Pc, pg: Pc, gid: nat, r: Request)
    requires Both(luns, ws, ls, f, g, pf, pg, gid, r)
    ensures RecentRun(luns, ws, ls)
  {
  }

  /** The idle target reads the header of the command the other one has not claimed. */
  lemma Share(luns: seq<Lun>, ws: seq<World>, ls: seq<Label>, f: nat, g: nat)
    returns (ws': seq<World>, ls': seq<Label>)
    requires RecentRun(luns, ws, ls) && Contended(ws[|ls|], f, g)
    ensures var gid := ws[|ls|].files[g].gid;
            && gid < |ws[|ls|].reqs| && Both(luns, ws', ls', f, g, HasHeader, HasHeader, gid, ws[|ls|].reqs[gid])
    ensures ws <= ws' && ws'[|ls'|].execs == ws[|ls|].execs
  {
    hide Inv, Shaped, NextReadHeader, FindLun, NumbersRecent, Run, FirstSubmitted, Below;
    RecentBounds(luns, ws, ls);
    var w := ws[|ls|];
    HoldersAttached(w, g);
    var k :| 0 <= k < |QueueOf(w)| && QueueOf(w)[k].gid == w.files[g].gid && QueueOf(w)[k].flag == Submitted;
    assert FirstSubmitted(QueueOf(w)) <= k;
    Reads(w, f);
    HeaderShared(w, f, g);
    Continue(luns, ws, ls, ReadHeader(f));
    ws', ls' := ws + [NextReadHeader(w, f)], ls + [ReadHeader(f)];
    SameIds(ws'[|ls'|].luns, w.luns, w.reqs[w.files[g].gid].cmd.lun % 256);
    StillQueued(w, f, ws'[|ls'|], w.files[g].gid);
  }

  lemma HoldersAttached(w: World, g: nat)
    requires Inv(w) && g in w.files && Holding(w.files[g].pc)
    ensures w.sess.Some? && w.files[g].private.Some?
  {
    hide QueueOk, Pointers, Accounted, HeadersInOrder, StreamsOk, Shaped, InOrder, HoldOk;
  }

  /** Two attached targets are idle while such a command waits. */
  ghost predicate Pending(w: World, f: nat, g: nat) {
    && f != g && f in w.files && g in w.files
    && w.files[f].private.Some? && w.files[g].private.Some? && w.files[f].pc == Idle && w.files[g].pc == Idle
    && w.sess.Some? && FirstSubmitted(w.sess.value.queue) < |w.sess.value.queue|
    && OldestUnclaimed(w) < |w.reqs| && Servable(w, OldestUnclaimed(w))
  }

  /** In particular from every state in which two targets are idle and a command waits. */
  lemma TwoTargetsRunTwice(luns: seq<Lun>, ws: seq<World>, ls: seq<Label>, f: nat, g: nat)
    requires RecentRun(luns, ws, ls) && Pending(ws[|ls|], f, g)
    ensures exists ws', ls' :: RunsTwice(luns, ws, ws', ls', OldestUnclaimed(ws[|ls|]))
  {
    hide Inv, Shaped, NextReadHeader, FindLun, NumbersRecent, Run, Below;
    RecentBounds(luns, ws, ls);
    var w := ws[|ls|];
    Reads(w, g);
    var w1 := NextReadHeader(w, g);
    Continue(luns, ws, ls, ReadHeader(g));
    var ws1, ls1 := ws + [w1], ls + [ReadHeader(g)];
    var gid := OldestUnclaimed(w);
    SameIds(w1.luns, w.luns, w.reqs[gid].cmd.lun % 256);
    assert QueueOf(w1)[FirstSubmitted(QueueOf(w))].gid == gid;
    assert Waiting(w1, gid);
    UnguardedRunsTwice(luns, ws1, ls1, f, g);
    var ws', ls' :| RunsTwice(luns, ws1, ws', ls', gid);
    assert RunsTwice(luns, ws, ws', ls', gid);
  }
}
