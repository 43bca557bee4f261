/**
 * With at most one target attached at a time the device runs its commands in turn, and every step is steady unless it
 * kills a target that has unflushed bytes.
 */
module OneTarget {
  import opened Bytes
  import opened Wire
  import opened Queue
  import opened Scsi
  import opened Engine
  import opened Protocol
  import opened Invariant
  import opened Steps
  import opened Order
  import opened Streams
  import opened BlockDevice
  import opened Refinement

  /** At most one target is attached. */
  ghost predicate Solo(w: World) {
    forall f, g :: f in w.files && g in w.files && w.files[f].private.Some? && w.files[g].private.Some? ==> f == g
  }

  predicate AboutToRun(pc: Pc) {
    pc == HasHeader || pc == Claimed || pc == HasData
  }

  /** What the target is about to run is younger than everything that has run. */
  ghost predicate RunsForward(w: World) {
    forall f, k :: f in w.files && AboutToRun(w.files[f].pc) && 0 <= k < |w.execs| ==> w.execs[k].gid < w.files[f].gid
  }

  ghost predicate Alone(w: World) {
    Inv(w) && NumbersRecent(w) && Solo(w) && RunsForward(w)
  }

  /** The target is no longer about to run anything, and there is no other. */
  lemma NoneAboutToRun(w: World, f: nat, w': World)
    requires Alone(w) && f in w.files && Running(w.files[f]) && TargetRan(w, f, w')
    ensures RunsForward(w')
  {
    HeldFacts(w, f);
    forall g | g in w'.files ensures !AboutToRun(w'.files[g].pc) {
      assert g != f ==> w.files[g].private.None? && w'.files[g] == w.files[g];
    }
  }

  lemma ReadHeaderForward(w: World, f: nat)
    requires Alone(w) && Enabled(w, ReadHeader(f))
    ensures RunsForward(NextReadHeader(w, f))
  {
    hide NumOf, Pointers, Accounted, QueueOk, HoldOk, Header, ParseHeader, WellFormed, Flushed, WithoutStreams;
    var w' := NextReadHeader(w, f);
    forall g, k | g in w'.files && AboutToRun(w'.files[g].pc) && 0 <= k < |w'.execs|
      ensures w'.execs[k].gid < w'.files[g].gid
    {
      if g == f {
        assert ClaimedUpTo(QueueOf(w), w.execs[k].gid);
      }
    }
  }

  lemma ClaimForward(w: World, f: nat)
    requires Alone(w) && Enabled(w, ClaimTask(f))
    ensures RunsForward(NextClaim(w, f))
  {
    hide Inv, NumbersRecent, Claim, Usable, Flushed, WithoutStreams;
    assert AboutToRun(w.files[f].pc);
  }

  lemma FetchForward(w: World, f: nat)
    requires Alone(w) && Enabled(w, Fetch(f))
    ensures RunsForward(NextFetch(w, f))
  {
    hide Inv, NumOf, IndexOfNum, FirstSubmitted, WellFormed, Header, Flushed, WithoutStreams, Patch;
    InvShape(w);
    var w' := NextFetch(w, f);
    assert AboutToRun(w.files[f].pc) && w'.files[f].gid == w.files[f].gid;
  }

  lemma AttachmentForward(w: World, l: Label)
    requires Alone(w) && Enabled(w, l)
    requires l.Open? || l.Register? || l.Release?
    ensures RunsForward(Next(w, l))
  {
    hide Inv, NumbersRecent, Attach, Detach, WithoutStreams;
    assert Shaped(w) by { InvShape(w); }
    var w' := Next(w, l);
    forall g, k | g in w'.files && AboutToRun(w'.files[g].pc) && 0 <= k < |w'.execs|
      ensures w'.execs[k].gid < w'.files[g].gid
    {
      assert g in w.files && w'.files[g].gid == w.files[g].gid && w'.files[g].pc == w.files[g].pc;
    }
  }

  lemma CompleteForward(w: World, f: nat)
    requires Alone(w) && Enabled(w, Complete(f))
    ensures RunsForward(NextComplete(w, f))
  {
    hide Inv, NumOf, IndexOfNum, WellFormed, Completion, CompletedNum, Flushed, WithoutStreams, Patch;
    InvShape(w);
    var w' := NextComplete(w, f);
    assert w'.execs == w.execs && !AboutToRun(w'.files[f].pc);
  }

  /** With one target at a time, what is about to run stays younger than everything that has run. */
  lemma StepForward(w: World, l: Label)
    requires Alone(w) && Enabled(w, l)
    ensures RunsForward(Next(w, l))
  {
    hide Inv, NumbersRecent, Solo, RunsForward, Shaped;
    hide NextRegister, NextRelease, NextUnregister, NextSubmit, NextAbort, NextReadHeader, NextClaim, NextFetch,
      NextExecute, NextDie, NextComplete, Drained, LeaveAll;
    InvShape(w);
    match l
    case Open(f) => AttachmentForward(w, l);
    case Register(f, hostAdded) => AttachmentForward(w, l);
    case Release(f) => AttachmentForward(w, l);
    case ReadHeader(f) => ReadHeaderForward(w, f);
    case ClaimTask(f) => ClaimForward(w, f);
    case Fetch(f) => FetchForward(w, f);
    case Execute(f, canned, keep) =>
      ExecuteFrame(w, f, canned, keep);
      NoneAboutToRun(w, f, NextExecute(w, f, canned, keep));
    case Die(f, written, sought) =>
      DieFrame(w, f, written, sought);
      NoneAboutToRun(w, f, NextDie(w, f, written, sought));
    case Complete(f) => CompleteForward(w, f);
    case _ =>
      MidLayerStreams(w, l);
      SameForward(w, Next(w, l));
  }

  lemma SameForward(w: World, w': World)
    requires RunsForward(w) && w'.files == w.files && w'.execs == w.execs
    ensures RunsForward(w')
  {
  }

  /** And so no command runs twice. */
  lemma OnceMore(w: World, l: Label)
    requires Alone(w) && Enabled(w, l) && Once(w.execs)
    ensures Once(Next(w, l).execs)
  {
    hide Inv, NumbersRecent, Solo, Shaped, Once;
    hide NextRegister, NextRelease, NextUnregister, NextSubmit, NextAbort, NextReadHeader, NextClaim, NextFetch,
      NextExecute, NextDie, NextComplete, Drained, LeaveAll;
    InvShape(w);
    match l
    case Execute(f, canned, keep) =>
      ExecuteFrame(w, f, canned, keep);
      OneMoreRun(w, f, NextExecute(w, f, canned, keep));
    case Die(f, written, sought) =>
      DieFrame(w, f, written, sought);
      OneMoreRun(w, f, NextDie(w, f, written, sought));
    case _ => ExecsSame(w, l);
  }

  lemma OneMoreRun(w: World, f: nat, w': World)
    requires RunsForward(w) && Once(w.execs) && f in w.files && Running(w.files[f]) && TargetRan(w, f, w')
    ensures Once(w'.execs)
  {
    if |w'.execs| == |w.execs| + 1 {
      assert w'.execs[..|w.execs|] == w.execs;
    }
  }

  // ----- the streams of a lone target

  /** What streams have read before is what is in the files. */
  ghost predicate StreamsCurrent(w: World) {
    forall f: nat, i: nat :: i < |w.luns| ==> UpToDate(w.luns, w.streams, f, i)
  }

  /** A lone target meets no other's bytes. */
  lemma SoloIsSteady(w: World, l: Label)
    requires Inv(w) && Solo(w) && StreamsCurrent(w) && Enabled(w, l) && NothingLost(w, l)
    ensures Steady(w, l)
  {
    hide QueueOk, Pointers, Accounted, HeadersInOrder, InOrder, WellFormed, Decode, Seeks, HoldOk, FindLun;
    if l.Execute? || l.Die? {
      HeldIsUsable(w, l.f);
      forall g: nat, i: nat | Unflushed(w.streams, g, i) ensures g == l.f {
        assert (g, i) in w.streams;
      }
    }
  }

  /** Its streams stay what they are worth. */
  lemma StreamsOfAttached(w: World, f: nat)
    requires Safe(w) && Solo(w) && f in w.files && w.files[f].private.Some?
    ensures WithoutStreams(w.streams, f) == map[]
  {
    hide QueueOk, Pointers, Accounted, HeadersInOrder, Holders, Lifetime, Shaped;
    forall k | k in w.streams ensures k.0 == f {
      assert k.0 in w.files && w.files[k.0].private.Some?;
    }
    assert WithoutStreams(w.streams, f) == map[];
  }

  lemma StreamsOfOthers(w: World, f: nat)
    requires Safe(w) && f in w.files && w.files[f].private.None?
    ensures WithoutStreams(w.streams, f) == w.streams && Flushed(w.luns, w.streams, f) == w.luns
  {
    hide QueueOk, Pointers, Accounted, HeadersInOrder, Holders, Lifetime, Shaped;
    assert forall k :: k in w.streams ==> k.0 != f;
  }

  lemma FewerCurrent(w: World, f: nat, w': World)
    requires StreamsCurrent(w) && w'.luns == w.luns
    requires w'.streams == w.streams || w'.streams == WithoutStreams(w.streams, f)
    ensures StreamsCurrent(w')
  {
    forall g: nat, i: nat | i < |w'.luns| ensures UpToDate(w'.luns, w'.streams, g, i) {
      assert UpToDate(w.luns, w.streams, g, i);
      assert (g, i) in w'.streams ==> (g, i) in w.streams && w'.streams[(g, i)] == w.streams[(g, i)];
    }
  }

  lemma NoneCurrent(w: World)
    requires w.streams == map[]
    ensures StreamsCurrent(w)
  {
  }

  /** Executing on a LUN leaves this LUN's stream up to date, and no others on it. */
  lemma RunKeepsCurrent(w: World, f: nat, op: Op, i: nat, data: seq<byte>, keep: Keep, w': World)
    requires Safe(w) && Solo(w) && StreamsCurrent(w) && f in w.files && w.files[f].private.Some? && i < |w.luns|
    requires w.luns[i].Sized() && (op.Write? && InRange(w.luns[i].mb, op.lba, op.blocks) ==> |data| == op.blocks * BLOCK)
    requires var after := AfterRun(w.luns, w.streams, f, i, op, data, keep);
             w'.luns == w.luns[i := after.0] && w'.streams == after.1
    ensures StreamsCurrent(w')
  {
    hide Safe, Solo, AfterRun, Remembered;
    StreamsOfAttached(w, f);
    var after := AfterRun(w.luns, w.streams, f, i, op, data, keep);
    assert UpToDate(w.luns, w.streams, f, i);
    if !Seeks(op, w.luns[i].mb) {
      assert after == (w.luns[i], w.streams) by { NotSeeking(w, f, op, i, data, keep); }
      assert w'.luns == w.luns;
      FewerCurrent(w, f, w');
    } else {
      SeekingStreams(w, f, op, i, data, keep);
      FileAndStream(w.luns, w.streams, f, i, op, data, keep);
      forall g: nat, j: nat | j < |w.luns| ensures UpToDate(w'.luns, w'.streams, g, j) {
        assert UpToDate(w.luns, w.streams, g, j);
        assert (g, j) in w.streams && g != f ==> (g, j) in WithoutStreams(w.streams, f);
      }
    }
  }

  lemma NotSeeking(w: World, f: nat, op: Op, i: nat, data: seq<byte>, keep: Keep)
    requires i < |w.luns| && w.luns[i].Sized() && !Seeks(op, w.luns[i].mb)
    requires op.Write? && InRange(w.luns[i].mb, op.lba, op.blocks) ==> |data| == op.blocks * BLOCK
    ensures AfterRun(w.luns, w.streams, f, i, op, data, keep) == (w.luns[i], w.streams)
  {
  }

  lemma SeekingStreams(w: World, f: nat, op: Op, i: nat, data: seq<byte>, keep: Keep)
    requires i < |w.luns| && w.luns[i].Sized() && Seeks(op, w.luns[i].mb) && UpToDate(w.luns, w.streams, f, i)
    requires op.Write? && InRange(w.luns[i].mb, op.lba, op.blocks) ==> |data| == op.blocks * BLOCK
    ensures var streams' := AfterRun(w.luns, w.streams, f, i, op, data, keep).1;
            (f, i) in streams' && streams' == w.streams[(f, i) := streams'[(f, i)]]
    ensures op.Write? ==> |data| == op.blocks * BLOCK
    ensures Seen(w.luns, w.streams, f, i) == FlushedAt(w.luns, w.streams, f, i)
  {
    hide Remembered;
  }

  lemma StepKeepsCurrent(w: World, l: Label)
    requires Inv(w) && Solo(w) && StreamsCurrent(w) && Enabled(w, l)
    ensures StreamsCurrent(Next(w, l))
  {
    hide Inv, Solo, StreamsCurrent, Shaped, WithoutStreams, Flushed;
    hide NextReadHeader, NextFetch, NextRegister, NextUnregister, NextSubmit, NextAbort, NextClaim, NextExecute,
      NextDie, NextComplete, Drained, LeaveAll;
    InvShape(w);
    match l
    case ReadHeader(f) => ReadStreams(w, f); ExitKeepsCurrent(w, f, NextReadHeader(w, f));
    case Fetch(f) => FetchStreams(w, f); ExitKeepsCurrent(w, f, NextFetch(w, f));
    case Execute(f, canned, keep) => ExecuteKeepsCurrent(w, f, canned, keep);
    case Die(f, written, sought) => DieKeepsCurrent(w, f, written, sought);
    case Release(f) => FewerCurrent(w, f, Next(w, l));
    case Open(f) => FewerCurrent(w, f, Next(w, l));
    case Register(f, _) => RegisterStreams(w, l); SameStreamsCurrent(w, Next(w, l));
    case ClaimTask(f) => HeldIsUsable(w, f); ClaimStreams(w, f); SameStreamsCurrent(w, Next(w, l));
    case Complete(f) => HeldIsUsable(w, f); CompleteStreams(w, f); SameStreamsCurrent(w, Next(w, l));
    case _ => MidLayerStreams(w, l); SameStreamsCurrent(w, Next(w, l));
  }

  /** The streams of a target are as before, or the target has exited. */
  ghost predicate SameOrExited(w: World, f: nat, w': World) {
    || (w'.luns == w.luns && w'.streams == w.streams)
    || (w'.luns == Flushed(w.luns, w.streams, f) && w'.streams == WithoutStreams(w.streams, f))
  }

  lemma ReadStreams(w: World, f: nat)
    requires Shaped(w) && f in w.files
    ensures SameOrExited(w, f, NextReadHeader(w, f))
  {
    hide WithoutStreams, Flushed, WellFormed, Header, ParseHeader, FirstSubmitted;
  }

  lemma FetchStreams(w: World, f: nat)
    requires Shaped(w) && f in w.files
    ensures SameOrExited(w, f, NextFetch(w, f))
  {
    hide WithoutStreams, Flushed, WellFormed, Header, Patch, FirstSubmitted, IndexOfNum;
  }

  lemma SameStreamsCurrent(w: World, w': World)
    requires StreamsCurrent(w) && w'.streams == w.streams && w'.luns == w.luns
    ensures StreamsCurrent(w')
  {
  }

  lemma RegisterStreams(w: World, l: Label)
    requires Shaped(w) && Enabled(w, l) && l.Register?
    ensures Next(w, l).streams == w.streams && Next(w, l).luns == w.luns
  {
    hide Shaped;
  }

  lemma ClaimStreams(w: World, f: nat)
    requires Enabled(w, ClaimTask(f)) && Usable(w, w.files[f])
    ensures NextClaim(w, f).streams == w.streams && NextClaim(w, f).luns == w.luns
  {
  }

  lemma CompleteStreams(w: World, f: nat)
    requires Inv(w) && Enabled(w, Complete(f))
    ensures Shaped(w) && NextComplete(w, f).streams == w.streams && NextComplete(w, f).luns == w.luns
  {
    hide QueueOk, Pointers, Accounted, HeadersInOrder, InOrder, WellFormed, IndexOfNum, Completion, CompletedNum,
      Patch, Describes, NumOf, ClaimedBefore;
    HeldFacts(w, f);
  }

  /** Steps that leave files and streams alone, or end in exit. */
  lemma ExitKeepsCurrent(w: World, f: nat, w': World)
    requires Inv(w) && Solo(w) && StreamsCurrent(w) && f in w.files
    requires SameOrExited(w, f, w')
    ensures StreamsCurrent(w')
  {
    hide Safe, InOrder, Solo, StreamsCurrent, WithoutStreams, Flushed;
    if w'.luns == w.luns {
      FewerCurrent(w, f, w');
    } else if w.files[f].private.Some? {
      StreamsOfAttached(w, f);
      NoneCurrent(w');
    } else {
      StreamsOfOthers(w, f);
      FewerCurrent(w, f, w');
    }
  }

  lemma ExecuteKeepsCurrent(w: World, f: nat, canned: Canned, keep: Keep)
    requires Inv(w) && Solo(w) && StreamsCurrent(w) && Enabled(w, Execute(f, canned, keep))
    ensures Shaped(w) && StreamsCurrent(NextExecute(w, f, canned, keep))
  {
    hide Safe, InOrder, Solo, StreamsCurrent, WithoutStreams, Flushed, AfterRun, Decode, Serve, Fits, FindLun,
      WellFormed, Below, Patch, Seen;
    HeldIsUsable(w, f);
    InvShape(w);
    var w' := NextExecute(w, f, canned, keep);
    var file := w.files[f];
    var i, op, at := LunFor(w, f), Decode(file.task.cdb), DataOffset(file.task);
    if i < |w.luns| && !op.Other? && COMPLETION_SIZE + file.task.bufflen <= BUFFER_SIZE
       && Fits(op, w.luns[i].mb, BUFFER_SIZE - at, file.task.bufflen) {
      RoomForWrite(op, w.luns[i].mb, file.buffer, at, file.task.bufflen);
      RunKeepsCurrent(w, f, op, i, DataOf(file.buffer, at, op), keep, w');
    } else {
      if w'.luns == w.luns {
        FewerCurrent(w, f, w');
      } else {
        ExitKeepsCurrent(w, f, w');
      }
    }
  }

  lemma DieKeepsCurrent(w: World, f: nat, written: nat, sought: bool)
    requires Inv(w) && Solo(w) && StreamsCurrent(w) && Enabled(w, Die(f, written, sought))
    ensures Shaped(w) && StreamsCurrent(NextDie(w, f, written, sought))
  {
    hide Safe, InOrder, Solo, StreamsCurrent, WithoutStreams, Flushed, Decode, FindLun, WellFormed, Below, FlushedAt,
      Seeks, WriteExtent;
    HeldIsUsable(w, f);
    InvShape(w);
    StreamsOfAttached(w, f);
    NoneCurrent(NextDie(w, f, written, sought));
  }
}
