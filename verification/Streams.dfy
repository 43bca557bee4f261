/**
 * The stdio streams of the targets on their LUN files.  A write that was answered good may still be in the stream of
 * the target that ran it; what the disks will hold once every stream has been flushed are the settled disks.
 */
module Streams {
  import opened Bytes
  import opened Wire
  import opened Scsi
  import opened Engine
  import opened Protocol

  type StreamMap = map<(nat, nat), Stream>

  ghost predicate Unflushed(streams: StreamMap, f: nat, i: nat) {
    (f, i) in streams && streams[(f, i)].dirty
  }

  /** No LUN has unflushed bytes in the streams of two targets. */
  ghost predicate Sole(streams: StreamMap) {
    forall f, g, i :: Unflushed(streams, f, i) && Unflushed(streams, g, i) ==> f == g
  }

  /** No other target has unflushed bytes for LUN i. */
  ghost predicate Mine(streams: StreamMap, f: nat, i: nat) {
    forall g :: Unflushed(streams, g, i) ==> g == f
  }

  /** Target f has no unflushed bytes. */
  ghost predicate Clean(streams: StreamMap, f: nat) {
    forall i :: !Unflushed(streams, f, i)
  }

  /** What the stream has read before is what is in the file. */
  ghost predicate UpToDate(luns: seq<Lun>, streams: StreamMap, f: nat, i: nat)
    requires i < |luns|
  {
    (f, i) in streams && !streams[(f, i)].dirty ==> Apply(luns[i], streams[(f, i)]) == luns[i]
  }

  // ----- settled disks

  ghost function SettledAt(luns: seq<Lun>, streams: StreamMap, i: nat): (l: Lun)
    requires i < |luns|
    ensures l.id == luns[i].id && l.mb == luns[i].mb && |l.disk| == |luns[i].disk|
  {
    if exists f :: Unflushed(streams, f, i)
    then var f :| Unflushed(streams, f, i); Apply(luns[i], streams[(f, i)])
    else luns[i]
  }

  ghost function Settled(luns: seq<Lun>, streams: StreamMap): (l: seq<Lun>)
    ensures |l| == |luns| && forall i :: 0 <= i < |luns| ==> l[i] == SettledAt(luns, streams, i)
  {
    seq(|luns|, i requires 0 <= i < |luns| => SettledAt(luns, streams, i))
  }

  lemma SettledBy(luns: seq<Lun>, streams: StreamMap, f: nat, i: nat)
    requires i < |luns| && Mine(streams, f, i)
    ensures SettledAt(luns, streams, i) == FlushedAt(luns, streams, f, i)
  {
    if exists g :: Unflushed(streams, g, i) {
      var g :| Unflushed(streams, g, i);
      assert g == f;
    } else {
      assert !Unflushed(streams, f, i);
    }
  }

  lemma SettledNone(luns: seq<Lun>, streams: StreamMap, i: nat)
    requires i < |luns| && forall g :: !Unflushed(streams, g, i)
    ensures SettledAt(luns, streams, i) == luns[i]
  {
  }

  /** LUNs whose file and unflushed streams are the same have settled alike. */
  lemma SettledSame(luns: seq<Lun>, streams: StreamMap, luns': seq<Lun>, streams': StreamMap, i: nat)
    requires Sole(streams) && i < |luns| == |luns'| && luns'[i] == luns[i]
    requires forall g :: Unflushed(streams, g, i) <==> Unflushed(streams', g, i)
    requires forall g: nat :: Unflushed(streams, g, i) ==> (g, i) in streams' && streams'[(g, i)] == streams[(g, i)]
    ensures SettledAt(luns', streams', i) == SettledAt(luns, streams, i)
  {
    if g: nat :| Unflushed(streams, g, i) {
      SettledBy(luns, streams, g, i);
      forall h | Unflushed(streams', h, i) ensures h == g {
        assert Unflushed(streams, h, i);
      }
      SettledBy(luns', streams', g, i);
    } else {
      SettledNone(luns, streams, i);
      SettledNone(luns', streams', i);
    }
  }

  /** A target that knows its stream to be alone and up to date sees the settled disk. */
  lemma SeenIsSettled(luns: seq<Lun>, streams: StreamMap, f: nat, i: nat)
    requires i < |luns| && Mine(streams, f, i) && UpToDate(luns, streams, f, i)
    ensures Seen(luns, streams, f, i) == SettledAt(luns, streams, i) == FlushedAt(luns, streams, f, i)
  {
    SettledBy(luns, streams, f, i);
  }

  lemma WithoutOwn(streams: StreamMap, f: nat)
    ensures forall g, i :: Unflushed(WithoutStreams(streams, f), g, i) <==> g != f && Unflushed(streams, g, i)
    ensures Sole(streams) ==> Sole(WithoutStreams(streams, f))
  {
    var streams' := WithoutStreams(streams, f);
    forall g: nat, i: nat ensures Unflushed(streams', g, i) <==> g != f && Unflushed(streams, g, i) {
      assert (g, i) in streams' <==> (g, i) in streams && g != f;
    }
  }

  /** A process that exits settles nothing anew: what its streams held is in the files. */
  lemma ExitSettles(luns: seq<Lun>, streams: StreamMap, f: nat)
    requires Sole(streams)
    ensures Sole(WithoutStreams(streams, f))
    ensures Settled(Flushed(luns, streams, f), WithoutStreams(streams, f)) == Settled(luns, streams)
  {
    var luns', streams' := Flushed(luns, streams, f), WithoutStreams(streams, f);
    WithoutOwn(streams, f);
    forall i | 0 <= i < |luns| ensures SettledAt(luns', streams', i) == SettledAt(luns, streams, i) {
      if Unflushed(streams, f, i) {
        assert Mine(streams, f, i);
        SettledBy(luns, streams, f, i);
        SettledNone(luns', streams', i);
      } else {
        SettledSame(luns, streams, luns', streams', i);
      }
    }
  }

  /** A process that is killed loses what its streams held and nothing else. */
  lemma KilledClean(luns: seq<Lun>, streams: StreamMap, f: nat)
    requires Sole(streams) && Clean(streams, f)
    ensures Sole(WithoutStreams(streams, f)) && Settled(luns, WithoutStreams(streams, f)) == Settled(luns, streams)
  {
    WithoutOwn(streams, f);
    forall i | 0 <= i < |luns|
      ensures SettledAt(luns, WithoutStreams(streams, f), i) == SettledAt(luns, streams, i)
    {
      SettledSame(luns, streams, luns, WithoutStreams(streams, f), i);
    }
  }

  /** One that is killed after it sought on LUN i, with unflushed bytes for no other LUN, leaves LUN i as its file is. */
  lemma KilledAfterSeek(luns: seq<Lun>, streams: StreamMap, f: nat, i: nat, l: Lun)
    requires Sole(streams) && i < |luns| && Mine(streams, f, i)
    requires l.id == luns[i].id && l.mb == luns[i].mb && |l.disk| == |luns[i].disk|
    requires forall j :: Unflushed(streams, f, j) ==> j == i
    ensures Sole(WithoutStreams(streams, f))
    ensures Settled(luns[i := l], WithoutStreams(streams, f)) == Settled(luns, streams)[i := l]
  {
    var streams' := WithoutStreams(streams, f);
    WithoutOwn(streams, f);
    SettledNone(luns[i := l], streams', i);
    forall j | 0 <= j < |luns| && j != i ensures SettledAt(luns[i := l], streams', j) == SettledAt(luns, streams, j) {
      SettledSame(luns, streams, luns[i := l], streams', j);
    }
  }

  /** Every unflushed byte of target f is in its file already. */
  ghost predicate Redundant(luns: seq<Lun>, streams: StreamMap, f: nat) {
    forall i :: 0 <= i < |luns| && Unflushed(streams, f, i) ==>
      var s := streams[(f, i)];
      s.pos + |s.bytes| <= |luns[i].disk| ==> luns[i].disk[s.pos..s.pos + |s.bytes|] == s.bytes
  }

  /** Killing a target leaves the settled disks as they were if and only if its unflushed bytes are in their files
      already. */
  lemma KillingLoses(luns: seq<Lun>, streams: StreamMap, f: nat)
    requires Sole(streams)
    ensures Settled(luns, WithoutStreams(streams, f)) == Settled(luns, streams) <==> Redundant(luns, streams, f)
  {
    var streams' := WithoutStreams(streams, f);
    WithoutOwn(streams, f);
    forall i | 0 <= i < |luns|
      ensures Unflushed(streams, f, i) ==>
                SettledAt(luns, streams', i) == luns[i] && SettledAt(luns, streams, i) == Apply(luns[i], streams[(f, i)])
      ensures !Unflushed(streams, f, i) ==> SettledAt(luns, streams', i) == SettledAt(luns, streams, i)
      ensures Unflushed(streams, f, i) ==>
                var s := streams[(f, i)];
                (Apply(luns[i], s) == luns[i] <==>
                 (s.pos + |s.bytes| <= |luns[i].disk| ==> luns[i].disk[s.pos..s.pos + |s.bytes|] == s.bytes))
    {
      if Unflushed(streams, f, i) {
        SettledBy(luns, streams, f, i);
        SettledNone(luns, streams', i);
        AppliedIsSame(luns[i], streams[(f, i)]);
      } else {
        SettledSame(luns, streams, luns, streams', i);
      }
    }
    if Settled(luns, streams') == Settled(luns, streams) {
      forall i | 0 <= i < |luns| && Unflushed(streams, f, i) ensures Apply(luns[i], streams[(f, i)]) == luns[i] {
        assert Settled(luns, streams')[i] == Settled(luns, streams)[i];
      }
    }
    if Redundant(luns, streams, f) {
      forall i | 0 <= i < |luns| ensures Settled(luns, streams')[i] == Settled(luns, streams)[i] {
      }
    }
  }

  lemma AppliedIsSame(l: Lun, s: Stream)
    ensures Apply(l, s) == l <==>
            (s.pos + |s.bytes| <= |l.disk| ==> l.disk[s.pos..s.pos + |s.bytes|] == s.bytes)
  {
    if s.pos + |s.bytes| <= |l.disk| {
      PatchSame(l.disk, s.pos, |s.bytes|);
      assert Patch(l.disk, s.pos, s.bytes)[s.pos..s.pos + |s.bytes|] == s.bytes;
    }
  }

  /** A range read through bytes laid over the file is the range of the file if and only if they agree on it. */
  lemma OverlaidExtent(l: Lun, s: Stream, lba: nat, blocks: nat)
    requires s.pos + |s.bytes| <= |l.disk| && (lba + blocks) * BLOCK <= |l.disk|
    ensures Extent(Apply(l, s).disk, lba, blocks) == Extent(l.disk, lba, blocks) <==> AgreesOn(l.disk, s, lba, blocks)
  {
    var laid := Apply(l, s).disk;
    assert forall k :: 0 <= k < |laid| ==>
        laid[k] == if s.pos <= k < s.pos + |s.bytes| then s.bytes[k - s.pos] else l.disk[k];
    if Extent(laid, lba, blocks) == Extent(l.disk, lba, blocks) {
      forall k: nat | lba * BLOCK <= k < (lba + blocks) * BLOCK && s.pos <= k < s.pos + |s.bytes|
        ensures l.disk[k] == s.bytes[k - s.pos]
      {
        assert Extent(laid, lba, blocks)[k - lba * BLOCK] == Extent(l.disk, lba, blocks)[k - lba * BLOCK];
      }
    }
  }

  /** Stream and file agree on the bytes of an extent that the stream holds. */
  ghost predicate AgreesOn(disk: seq<byte>, s: Stream, lba: nat, blocks: nat)
    requires s.pos + |s.bytes| <= |disk| && (lba + blocks) * BLOCK <= |disk|
  {
    forall k: nat {:trigger disk[k]} :: lba * BLOCK <= k < (lba + blocks) * BLOCK && s.pos <= k < s.pos + |s.bytes| ==>
      disk[k] == s.bytes[k - s.pos]
  }

  /** While target f has unflushed bytes for a LUN, another target reads what the settled disk holds if and only if the
      file agrees with those bytes on the extent; and a target that has bytes of an earlier read in its stream reads
      the file if and only if the file still agrees with them. */
  lemma ReadsSettled(luns: seq<Lun>, streams: StreamMap, f: nat, g: nat, i: nat, lba: nat, blocks: nat)
    requires i < |luns| && (lba + blocks) * BLOCK <= |luns[i].disk| && Sole(streams) && (f, i) in streams
    requires streams[(f, i)].pos + |streams[(f, i)].bytes| <= |luns[i].disk|
    ensures streams[(f, i)].dirty && (g, i) !in streams ==>
              (Extent(Seen(luns, streams, g, i).disk, lba, blocks) == Extent(SettledAt(luns, streams, i).disk, lba, blocks) <==>
               AgreesOn(luns[i].disk, streams[(f, i)], lba, blocks))
    ensures !streams[(f, i)].dirty && Mine(streams, f, i) ==>
              (Extent(Seen(luns, streams, f, i).disk, lba, blocks) == Extent(SettledAt(luns, streams, i).disk, lba, blocks) <==>
               AgreesOn(luns[i].disk, streams[(f, i)], lba, blocks))
  {
    hide AgreesOn, SettledAt, Apply;
    OverlaidExtent(luns[i], streams[(f, i)], lba, blocks);
    if streams[(f, i)].dirty {
      assert Unflushed(streams, f, i);
      assert Mine(streams, f, i);
    }
    if Mine(streams, f, i) {
      SettledBy(luns, streams, f, i);
    }
  }

  // ----- a command

  /** Serving a command that does not seek does not depend on what is on the disk. */
  lemma ServedBlind(a: Lun, b: Lun, op: Op, ids: seq<byte>, buffer: seq<byte>, at: nat, size: nat)
    requires a.Sized() && b.Sized() && a.id == b.id && a.mb == b.mb && |ids| <= 256 && !op.Other?
    requires at <= |buffer| && Fits(op, a.mb, |buffer| - at, size) && !Seeks(op, a.mb)
    ensures Serve(a, op, ids, buffer, at, size).status == Serve(b, op, ids, buffer, at, size).status
    ensures Serve(a, op, ids, buffer, at, size).buffer == Serve(b, op, ids, buffer, at, size).buffer
    ensures Serve(a, op, ids, buffer, at, size).disk == a.disk
  {
    if op.Read? && op.blocks == 0 && InRange(a.mb, op.lba, 0) {
      assert Extent(a.disk, op.lba, 0) == Extent(b.disk, op.lba, 0) == [];
    }
    if op.Write? && op.blocks == 0 && InRange(a.mb, op.lba, 0) {
      assert buffer[at..at] == [];
      PatchSame(a.disk, op.lba * BLOCK, 0);
      assert a.disk[op.lba * BLOCK..op.lba * BLOCK + 0] == [];
    }
  }

  /** What the guard of a command asks: alone on the LUN, and nothing outdated in the stream. */
  ghost predicate Undisturbed(luns: seq<Lun>, streams: StreamMap, f: nat, i: nat, op: Op)
    requires i < |luns|
  {
    Seeks(op, luns[i].mb) ==> Mine(streams, f, i) && UpToDate(luns, streams, f, i)
  }

  /** An undisturbed command is served as from the settled disk, and what it leaves in file and stream settles to the
      disk it promised. */
  lemma RunSettles(luns: seq<Lun>, streams: StreamMap, f: nat, i: nat, op: Op, ids: seq<byte>, buffer: seq<byte>,
                   at: nat, size: nat, keep: Keep)
    requires i < |luns| && luns[i].Sized() && |ids| <= 256 && !op.Other? && at <= |buffer|
    requires Fits(op, luns[i].mb, |buffer| - at, size) && Sole(streams) && Undisturbed(luns, streams, f, i, op)
    ensures op.Write? && InRange(luns[i].mb, op.lba, op.blocks) ==> |DataOf(buffer, at, op)| == op.blocks * BLOCK
    ensures var settled := SettledAt(luns, streams, i);
            var r := Serve(Seen(luns, streams, f, i), op, ids, buffer, at, size);
            var p := Serve(settled, op, ids, buffer, at, size);
            var after := AfterRun(luns, streams, f, i, op, DataOf(buffer, at, op), keep);
            && r.status == p.status && r.buffer == p.buffer
            && Sole(after.1)
            && Settled(luns[i := after.0], after.1) == Settled(luns, streams)[i := settled.(disk := p.disk)]
  {
    var settled := SettledAt(luns, streams, i);
    if !Seeks(op, luns[i].mb) {
      ServedBlind(settled, Seen(luns, streams, f, i), op, ids, buffer, at, size);
      assert luns[i := luns[i]] == luns && settled.(disk := settled.disk) == settled;
    } else {
      SeenIsSettled(luns, streams, f, i);
      SeekingSettles(luns, streams, f, i, op, ids, buffer, at, size, keep);
    }
  }

  lemma SeekingSettles(luns: seq<Lun>, streams: StreamMap, f: nat, i: nat, op: Op, ids: seq<byte>, buffer: seq<byte>,
                       at: nat, size: nat, keep: Keep)
    requires i < |luns| && luns[i].Sized() && |ids| <= 256 && !op.Other? && at <= |buffer|
    requires Fits(op, luns[i].mb, |buffer| - at, size) && Sole(streams) && Seeks(op, luns[i].mb)
    requires Mine(streams, f, i) && UpToDate(luns, streams, f, i)
    ensures op.Write? ==> |DataOf(buffer, at, op)| == op.blocks * BLOCK
    ensures var settled := SettledAt(luns, streams, i);
            var p := Serve(settled, op, ids, buffer, at, size);
            var after := AfterRun(luns, streams, f, i, op, DataOf(buffer, at, op), keep);
            && Sole(after.1)
            && Settled(luns[i := after.0], after.1) == Settled(luns, streams)[i := settled.(disk := p.disk)]
  {
    SeenIsSettled(luns, streams, f, i);
    var settled := SettledAt(luns, streams, i);
    var p := Serve(settled, op, ids, buffer, at, size);
    var after := AfterRun(luns, streams, f, i, op, DataOf(buffer, at, op), keep);
    OnlyOwnStream(luns, streams, f, i, op, DataOf(buffer, at, op), keep);
    FileAndStream(luns, streams, f, i, op, DataOf(buffer, at, op), keep);
    var luns' := luns[i := after.0];
    SettledBy(luns', after.1, f, i);
    forall j | 0 <= j < |luns| && j != i ensures SettledAt(luns', after.1, j) == SettledAt(luns, streams, j) {
      SettledSame(luns, streams, luns', after.1, j);
    }
  }

  /** A command changes no stream but its own. */
  lemma OnlyOwnStream(luns: seq<Lun>, streams: StreamMap, f: nat, i: nat, op: Op, data: seq<byte>, keep: Keep)
    requires i < |luns| && luns[i].Sized() && Seeks(op, luns[i].mb) && Sole(streams) && Mine(streams, f, i)
    requires op.Write? ==> |data| == op.blocks * BLOCK
    ensures var streams' := AfterRun(luns, streams, f, i, op, data, keep).1;
            && (f, i) in streams' && streams' == streams[(f, i) := streams'[(f, i)]]
            && Sole(streams') && Mine(streams', f, i)
  {
    hide Remembered, Seen, FlushedAt;
    var streams' := AfterRun(luns, streams, f, i, op, data, keep).1;
    forall g, h, j | Unflushed(streams', g, j) && Unflushed(streams', h, j) ensures g == h {
      if j != i {
        assert Unflushed(streams, g, j) && Unflushed(streams, h, j);
      } else {
        assert g != f ==> Unflushed(streams, g, i);
        assert h != f ==> Unflushed(streams, h, i);
      }
    }
    forall g | Unflushed(streams', g, i) ensures g == f {
      assert g != f ==> Unflushed(streams, g, i);
    }
  }

  /** The seek of a READ(10) in range or of READ CAPACITY brings the bytes that the target's own stream still held into
      the file, and nothing else; the stream then holds nothing that the file does not have. */
  lemma SeekFlushes(luns: seq<Lun>, streams: StreamMap, f: nat, i: nat, op: Op, data: seq<byte>, keep: Keep)
    requires i < |luns| && luns[i].Sized()
    requires (op.Read? && op.blocks > 0 && 512 * (op.lba + op.blocks) <= 1048576 * luns[i].mb) || op.ReadCapacity?
    ensures var after := AfterRun(luns, streams, f, i, op, data, keep);
            && !Unflushed(after.1, f, i) && |after.0.disk| == |luns[i].disk|
            && forall p :: 0 <= p < |luns[i].disk| ==>
                 after.0.disk[p] ==
                 if Unflushed(streams, f, i) && Within(luns[i], streams[(f, i)], p)
                 then streams[(f, i)].bytes[p - streams[(f, i)].pos] else luns[i].disk[p]
  {
    hide Remembered;
  }

  /** A command that moves no block, is out of range, or is about neither blocks nor the size leaves file and streams
      alone. */
  lemma NoSeekNoChange(luns: seq<Lun>, streams: StreamMap, f: nat, i: nat, op: Op, data: seq<byte>, keep: Keep)
    requires i < |luns| && luns[i].Sized()
    requires op.Write? && 512 * (op.lba + op.blocks) <= 1048576 * luns[i].mb ==> |data| == 512 * op.blocks
    requires op.Read? || op.Write? ==> op.blocks == 0 || 512 * (op.lba + op.blocks) > 1048576 * luns[i].mb
    ensures !op.ReadCapacity? ==> AfterRun(luns, streams, f, i, op, data, keep) == (luns[i], streams)
  {
  }

  /** After a READ(10) in range the stream can hold any range of the file, for later reads to be served from. */
  lemma ReadsAhead(luns: seq<Lun>, streams: StreamMap, f: nat, i: nat, op: Op, data: seq<byte>, pos: nat, n: nat)
    requires i < |luns| && luns[i].Sized() && op.Read? && op.blocks > 0
    requires 512 * (op.lba + op.blocks) <= 1048576 * luns[i].mb && pos + n <= |luns[i].disk|
    requires UpToDate(luns, streams, f, i)
    ensures var after := AfterRun(luns, streams, f, i, op, data, Keep(0, pos, n));
            (f, i) in after.1 && after.1[(f, i)] == Stream(pos, after.0.disk[pos..pos + n], false)
  {
  }

  /** Byte p of the file is one that this stream holds. */
  predicate Within(l: Lun, s: Stream, p: nat) {
    s.pos + |s.bytes| <= |l.disk| && s.pos <= p < s.pos + |s.bytes|
  }

  /** A write in range first flushes the stream too; then any number n of its first bytes may be in the file and the rest
      in the stream, which is all that is unflushed. */
  lemma WriteSplits(luns: seq<Lun>, streams: StreamMap, f: nat, i: nat, op: Op, data: seq<byte>, n: nat)
    requires i < |luns| && luns[i].Sized() && op.Write? && |data| == 512 * op.blocks && n <= |data| && op.blocks > 0
    requires 512 * (op.lba + op.blocks) <= 1048576 * luns[i].mb
    ensures var after := AfterRun(luns, streams, f, i, op, data, Keep(|data| - n, 0, 0));
            && |after.0.disk| == |luns[i].disk|
            && (Unflushed(after.1, f, i) <==> n < |data|)
            && (n < |data| ==> after.1[(f, i)].pos == 512 * op.lba + n && after.1[(f, i)].bytes == data[n..])
            && forall p :: 0 <= p < |luns[i].disk| ==>
                 after.0.disk[p] ==
                 if 512 * op.lba <= p < 512 * op.lba + n then data[p - 512 * op.lba]
                 else if Unflushed(streams, f, i) && Within(luns[i], streams[(f, i)], p)
                 then streams[(f, i)].bytes[p - streams[(f, i)].pos] else luns[i].disk[p]
  {
    hide Remembered;
  }

  /** File and stream together hold the disk that the command promised. */
  lemma FileAndStream(luns: seq<Lun>, streams: StreamMap, f: nat, i: nat, op: Op, data: seq<byte>, keep: Keep)
    requires i < |luns| && luns[i].Sized() && Seeks(op, luns[i].mb)
    requires Seen(luns, streams, f, i) == FlushedAt(luns, streams, f, i)
    requires op.Write? ==> |data| == op.blocks * BLOCK
    ensures var own := FlushedAt(luns, streams, f, i);
            var after := AfterRun(luns, streams, f, i, op, data, keep);
            var luns' := luns[i := after.0];
            && FlushedAt(luns', after.1, f, i) ==
               (if op.Write? then own.(disk := WriteExtent(own.disk, op.lba, data)) else own)
            && UpToDate(luns', after.1, f, i)
  {
    hide FlushedAt, Seen, Apply, WriteExtent, Remembered;
    var own := FlushedAt(luns, streams, f, i);
    var after := AfterRun(luns, streams, f, i, op, data, keep);
    FlushedAgain(luns[i := after.0], after.1, f, i);
    if op.Write? {
      SplitWrite(own, op.lba, data, |data| - Min(keep.unflushed, |data|), keep);
    } else {
      AppliedIsSame(own, Remembered(own.disk, keep));
    }
  }

  /** A write of which the rest is in the stream. */
  lemma SplitWrite(l: Lun, lba: nat, data: seq<byte>, n: nat, keep: Keep)
    requires lba * BLOCK + |data| <= |l.disk| && n <= |data|
    ensures var l' := l.(disk := WriteExtent(l.disk, lba, data[..n]));
            && (n < |data| ==>
                  Apply(l', Stream(lba * BLOCK + n, data[n..], true)) == l.(disk := WriteExtent(l.disk, lba, data)))
            && (n == |data| ==> l' == l.(disk := WriteExtent(l.disk, lba, data))
                                && Apply(l', Remembered(l'.disk, keep)) == l')
  {
    hide Patch, Remembered;
    var l' := l.(disk := WriteExtent(l.disk, lba, data[..n]));
    assert data == data[..n] + data[n..] && (n == |data| ==> data[..n] == data);
    PatchPatch(l.disk, lba * BLOCK, data[..n], data[n..]);
    AppliedIsSame(l', Remembered(l'.disk, keep));
  }

  lemma FlushedAgain(luns: seq<Lun>, streams: StreamMap, f: nat, i: nat)
    requires i < |luns| && (f, i) in streams
    ensures FlushedAt(luns, streams, f, i) == if streams[(f, i)].dirty then Apply(luns[i], streams[(f, i)]) else luns[i]
  {
  }
}
