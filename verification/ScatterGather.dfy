/**
 * The scatter/gather copy loops of kernel/device.c.
 *
 * Kernel memory is one array, addressed as the kernel's direct map is; a segment whose page has no
 * kernel address carries kaddr 0.  User memory is an array too, and the bytes past its end are the
 * bytes that fault.
 */
module ScatterGather {
  import opened Bytes

  /** struct scatterlist, with page_address(page) already taken. */
  datatype Sg = Sg(kaddr: nat, offset: nat, length: nat) {
    function Start(): nat { kaddr + offset }
    function End(): nat { kaddr + offset + length }
  }

  predicate InMemory(size: nat, segs: seq<Sg>) {
    forall i :: 0 <= i < |segs| ==> segs[i].End() <= size
  }

  ghost predicate Disjoint(segs: seq<Sg>) {
    forall i, j :: 0 <= i < j < |segs| ==> segs[i].End() <= segs[j].Start() || segs[j].End() <= segs[i].Start()
  }

  /** Address a belongs to one of the segments. */
  ghost predicate Covers(segs: seq<Sg>, a: nat) {
    exists i :: 0 <= i < |segs| && segs[i].Start() <= a < segs[i].End()
  }

  function Total(segs: seq<Sg>): nat {
    if segs == [] then 0 else segs[0].length + Total(segs[1..])
  }

  /** The flat contents of the segments. */
  function Gather(mem: seq<byte>, segs: seq<Sg>): (flat: seq<byte>)
    requires InMemory(|mem|, segs)
    ensures |flat| == Total(segs)
  {
    if segs == [] then [] else mem[segs[0].Start()..segs[0].End()] + Gather(mem, segs[1..])
  }

  /** Memory after the flat buffer has been dealt out over the segments. */
  function Scatter(mem: seq<byte>, segs: seq<Sg>, flat: seq<byte>): (mem': seq<byte>)
    requires InMemory(|mem|, segs)
    requires |flat| == Total(segs)
    ensures |mem'| == |mem|
    decreases |segs|
  {
    if segs == [] then mem
    else Scatter(Patch(mem, segs[0].Start(), flat[..segs[0].length]), segs[1..], flat[segs[0].length..])
  }

  /** The part of the segment list that is copied when the flat buffer holds room bytes: it ends at the first
      segment without an address and in the middle of a segment that the buffer cannot hold. */
  function Served(segs: seq<Sg>, room: nat): (r: seq<Sg>)
    ensures Total(r) <= room
  {
    if segs == [] || segs[0].kaddr == 0 then []
    else if segs[0].length > room then [segs[0].(length := room)]
    else [segs[0]] + Served(segs[1..], room - segs[0].length)
  }

  lemma {:induction false} ServedInMemory(size: nat, segs: seq<Sg>, room: nat)
    requires InMemory(size, segs)
    ensures InMemory(size, Served(segs, room))
  {
    if segs == [] || segs[0].kaddr == 0 || segs[0].length > room {
    } else {
      ServedInMemory(size, segs[1..], room - segs[0].length);
    }
  }

  /** A buffer that holds all the segments serves all of them, if they all have an address; and only then. */
  lemma {:induction false} ServedWhole(segs: seq<Sg>, room: nat)
    ensures Served(segs, room) == segs <==>
            Total(segs) <= room && forall i :: 0 <= i < |segs| ==> segs[i].kaddr != 0
  {
    if segs == [] {
    } else {
      if segs[0].kaddr != 0 && segs[0].length <= room {
        var rest := segs[1..];
        ServedWhole(rest, room - segs[0].length);
        assert segs == [segs[0]] + rest;
        assert Served(segs, room)[1..] == Served(rest, room - segs[0].length);
        assert (forall i :: 0 <= i < |segs| ==> segs[i].kaddr != 0) <==>
               (forall i :: 0 <= i < |rest| ==> rest[i].kaddr != 0) by {
          assert forall i :: 0 <= i < |rest| ==> rest[i] == segs[i + 1];
          assert forall i :: 0 < i < |segs| ==> segs[i] == rest[i - 1];
        }
      }
    }
  }

  // ----- what the loops are for

  lemma CoversTail(segs: seq<Sg>, a: nat)
    requires segs != [] && !Covers(segs, a)
    ensures !(segs[0].Start() <= a < segs[0].End()) && !Covers(segs[1..], a)
  {
    forall i | 0 <= i < |segs| - 1 ensures !(segs[1..][i].Start() <= a < segs[1..][i].End()) {
      assert segs[1..][i] == segs[i + 1];
    }
  }

  lemma DisjointTail(segs: seq<Sg>, a: nat)
    requires segs != [] && Disjoint(segs)
    ensures Disjoint(segs[1..])
    ensures segs[0].Start() <= a < segs[0].End() ==> !Covers(segs[1..], a)
  {
    forall i | 0 <= i < |segs| - 1 ensures segs[1..][i] == segs[i + 1] {
    }
  }

  /** Dealing a buffer out changes no byte outside the segments, whether or not they overlap. */
  lemma {:induction false} ScatterFrame(mem: seq<byte>, segs: seq<Sg>, flat: seq<byte>, a: nat)
    requires InMemory(|mem|, segs) && |flat| == Total(segs)
    requires a < |mem| && !Covers(segs, a)
    ensures Scatter(mem, segs, flat)[a] == mem[a]
    decreases |segs|
  {
    if segs == [] {
    } else {
      CoversTail(segs, a);
      ScatterFrame(Patch(mem, segs[0].Start(), flat[..segs[0].length]), segs[1..], flat[segs[0].length..], a);
    }
  }

  /** Reading segments is not affected by a write that stays away from all of them. */
  lemma {:induction false} GatherFrame(mem: seq<byte>, mem': seq<byte>, segs: seq<Sg>)
    requires |mem| == |mem'| && InMemory(|mem|, segs)
    requires forall a :: 0 <= a < |mem| && Covers(segs, a) ==> mem'[a] == mem[a]
    ensures Gather(mem', segs) == Gather(mem, segs)
  {
    if segs == [] {
    } else {
      forall a | 0 <= a < |mem| && Covers(segs[1..], a) ensures mem'[a] == mem[a] {
        var i :| 0 <= i < |segs[1..]| && segs[1..][i].Start() <= a < segs[1..][i].End();
        assert segs[i + 1].Start() <= a < segs[i + 1].End();
        assert Covers(segs, a);
      }
      GatherFrame(mem, mem', segs[1..]);
      forall a | segs[0].Start() <= a < segs[0].End() ensures mem'[a] == mem[a] {
        assert Covers(segs, a);
      }
      assert mem'[segs[0].Start()..segs[0].End()] == mem[segs[0].Start()..segs[0].End()];
    }
  }

  /** Reading back what was dealt out gives the buffer: copy_to_user_sg undoes copy_from_user_sg. */
  lemma {:induction false} GatherScatter(mem: seq<byte>, segs: seq<Sg>, flat: seq<byte>)
    requires InMemory(|mem|, segs) && |flat| == Total(segs) && Disjoint(segs)
    ensures Gather(Scatter(mem, segs, flat), segs) == flat
    decreases |segs|
  {
    if segs == [] {
    } else {
      var n := segs[0].length;
      var mid := Patch(mem, segs[0].Start(), flat[..n]);
      var out := Scatter(mid, segs[1..], flat[n..]);
      DisjointTail(segs, 0);
      GatherScatter(mid, segs[1..], flat[n..]);
      forall a | segs[0].Start() <= a < segs[0].End() ensures out[a] == mid[a] {
        DisjointTail(segs, a);
        ScatterFrame(mid, segs[1..], flat[n..], a);
      }
      assert out[segs[0].Start()..segs[0].End()] == mid[segs[0].Start()..segs[0].End()] == flat[..n];
    }
  }

  /** Dealing out what was read changes nothing: copy_from_user_sg undoes copy_to_user_sg. */
  lemma {:induction false} ScatterGathered(mem: seq<byte>, segs: seq<Sg>)
    requires InMemory(|mem|, segs)
    ensures Scatter(mem, segs, Gather(mem, segs)) == mem
    decreases |segs|
  {
    if segs == [] {
    } else {
      var flat := Gather(mem, segs);
      var n := segs[0].length;
      assert flat[..n] == mem[segs[0].Start()..segs[0].Start() + n];
      assert flat[n..] == Gather(mem, segs[1..]);
      PatchSame(mem, segs[0].Start(), n);
      ScatterGathered(mem, segs[1..]);
    }
  }

  /** Byte j of segment i is the byte at the segment's address and offset, and comes behind the bytes of the segments
      before it. */
  lemma {:induction false} GatherAt(mem: seq<byte>, segs: seq<Sg>, i: nat, j: nat)
    requires InMemory(|mem|, segs) && i < |segs| && j < segs[i].length
    ensures Total(segs[..i]) + j < Total(segs) && segs[i].kaddr + segs[i].offset + j < |mem|
    ensures Gather(mem, segs)[Total(segs[..i]) + j] == mem[segs[i].kaddr + segs[i].offset + j]
  {
    if i == 0 {
      assert segs[..0] == [];
    } else {
      GatherAt(mem, segs[1..], i - 1, j);
      assert segs[..i][0] == segs[0] && segs[..i][1..] == segs[1..][..i - 1];
    }
  }

  /** And that is where dealing a buffer out puts it. */
  lemma ScatteredAt(mem: seq<byte>, segs: seq<Sg>, flat: seq<byte>, i: nat, j: nat)
    requires InMemory(|mem|, segs) && Disjoint(segs) && |flat| == Total(segs) && i < |segs| && j < segs[i].length
    ensures Total(segs[..i]) + j < |flat| && segs[i].kaddr + segs[i].offset + j < |mem|
    ensures Scatter(mem, segs, flat)[segs[i].kaddr + segs[i].offset + j] == flat[Total(segs[..i]) + j]
  {
    hide Gather, Scatter;
    GatherScatter(mem, segs, flat);
    GatherAt(Scatter(mem, segs, flat), segs, i, j);
  }

  lemma DisjointSplit(segs: seq<Sg>, others: seq<Sg>, a: nat)
    requires Disjoint(segs + others) && Covers(others, a)
    ensures !Covers(segs, a)
  {
    var j :| 0 <= j < |others| && others[j].Start() <= a < others[j].End();
    assert (segs + others)[|segs| + j] == others[j];
    forall i | 0 <= i < |segs| ensures !(segs[i].Start() <= a < segs[i].End()) {
      assert (segs + others)[i] == segs[i];
    }
  }

  /** One command's data transfer leaves every other command's buffer alone. */
  lemma ScatterKeepsOthers(mem: seq<byte>, segs: seq<Sg>, flat: seq<byte>, others: seq<Sg>)
    requires InMemory(|mem|, segs) && |flat| == Total(segs)
    requires InMemory(|mem|, others)
    requires Disjoint(segs + others)
    ensures Gather(Scatter(mem, segs, flat), others) == Gather(mem, others)
  {
    var mem' := Scatter(mem, segs, flat);
    forall a | 0 <= a < |mem| && Covers(others, a) ensures mem'[a] == mem[a] {
      DisjointSplit(segs, others, a);
      ScatterFrame(mem, segs, flat, a);
    }
    GatherFrame(mem, mem', others);
  }

  // ----- the loops

  /** __copy_to_user_inatomic: copies as much as the user memory holds and returns how much is left. */
  method CopyToUser(dst: array<byte>, at: nat, src: seq<byte>) returns (left: nat)
    requires at <= dst.Length
    modifies dst
    ensures left == |src| - Min(|src|, dst.Length - at)
    ensures left == 0 ==> dst[..] == Patch(old(dst[..]), at, src)
    ensures left != 0 ==> dst[..] == Patch(old(dst[..]), at, src[..dst.Length - at])
  {
    var n := Min(|src|, dst.Length - at);
    ghost var before := dst[..];
    forall k | 0 <= k < n {
      dst[at + k] := src[k];
    }
    left := |src| - n;
    assert dst[..] == Patch(before, at, src[..n]);
    assert left == 0 ==> src[..n] == src;
  }

  /** __copy_from_user_inatomic into kernel memory. */
  method CopyFromUser(mem: array<byte>, addr: nat, src: array<byte>, at: nat, n: nat) returns (left: nat)
    requires mem != src
    requires at <= src.Length && addr + n <= mem.Length
    modifies mem
    ensures left == n - Min(n, src.Length - at)
    ensures left == 0 ==> mem[..] == Patch(old(mem[..]), addr, src[at..at + n])
    ensures left != 0 ==> mem[..] == Patch(old(mem[..]), addr, src[at..])
  {
    var k := Min(n, src.Length - at);
    ghost var before := mem[..];
    forall i | 0 <= i < k {
      mem[addr + i] := src[at + i];
    }
    left := n - k;
    assert mem[..] == Patch(before, addr, src[at..at + k]);
  }

  /** The user buffer after the segments have been copied to position p on, as far as it can hold them. */
  ghost function CopiedOut(mem: seq<byte>, buffer: seq<byte>, p: nat, segs: seq<Sg>): seq<byte>
    requires p <= |buffer| && InMemory(|mem|, segs)
  {
    ServedInMemory(|mem|, segs, |buffer| - p);
    Patch(buffer, p, Gather(mem, Served(segs, |buffer| - p)))
  }

  /** Memory after the segments have been filled from position p of the buffer on, as far as it reaches. */
  ghost function CopiedIn(mem: seq<byte>, segs: seq<Sg>, buffer: seq<byte>, p: nat): seq<byte>
    requires p <= |buffer| && InMemory(|mem|, segs)
  {
    ServedInMemory(|mem|, segs, |buffer| - p);
    var served := Served(segs, |buffer| - p);
    Scatter(mem, served, buffer[p..p + Total(served)])
  }

  ghost predicate Complete(segs: seq<Sg>, room: nat) {
    Served(segs, room) == segs
  }

  /** One turn of the copy loops: what is served of a list starts with the first segment. */
  lemma ServedStep(mem: seq<byte>, segs: seq<Sg>, room: nat)
    requires InMemory(|mem|, segs)
    ensures segs == [] || segs[0].kaddr == 0 ==> Served(segs, room) == []
    ensures segs != [] && segs[0].kaddr != 0 && segs[0].length > room ==>
              Served(segs, room) == [Sg(segs[0].kaddr, segs[0].offset, room)]
    ensures segs != [] && segs[0].kaddr != 0 && segs[0].length <= room ==>
              var n, rest := segs[0].length, Served(segs[1..], room - segs[0].length);
              Served(segs, room) == [segs[0]] + rest && Total(Served(segs, room)) == n + Total(rest)
  {
    if segs != [] && segs[0].kaddr != 0 && segs[0].length <= room {
      var rest := Served(segs[1..], room - segs[0].length);
      assert ([segs[0]] + rest)[1..] == rest;
    }
  }

  lemma GatherOne(mem: seq<byte>, g: Sg, rest: seq<Sg>)
    requires InMemory(|mem|, [g] + rest) && InMemory(|mem|, rest) && g.End() <= |mem|
    ensures Gather(mem, [g] + rest) == mem[g.Start()..g.End()] + Gather(mem, rest)
  {
    assert ([g] + rest)[1..] == rest;
  }

  lemma ScatterOne(mem: seq<byte>, g: Sg, rest: seq<Sg>, flat: seq<byte>)
    requires InMemory(|mem|, [g] + rest) && InMemory(|mem|, rest) && g.End() <= |mem|
    requires |flat| == Total([g] + rest) == g.length + Total(rest)
    ensures Scatter(mem, [g] + rest, flat) == Scatter(Patch(mem, g.Start(), flat[..g.length]), rest, flat[g.length..])
  {
    assert ([g] + rest)[1..] == rest;
  }

  lemma CopyOutStep(mem: seq<byte>, buffer: seq<byte>, p: nat, segs: seq<Sg>)
    requires p <= |buffer| && InMemory(|mem|, segs)
    ensures segs == [] || segs[0].kaddr == 0 ==> CopiedOut(mem, buffer, p, segs) == buffer
    ensures segs != [] && segs[0].kaddr != 0 && segs[0].length > |buffer| - p ==>
              CopiedOut(mem, buffer, p, segs) ==
              Patch(buffer, p, mem[segs[0].Start()..segs[0].Start() + (|buffer| - p)])
    ensures segs != [] && segs[0].kaddr != 0 && segs[0].length <= |buffer| - p ==>
              CopiedOut(mem, buffer, p, segs) ==
              CopiedOut(mem, Patch(buffer, p, mem[segs[0].Start()..segs[0].End()]), p + segs[0].length, segs[1..])
  {
    hide Served, Total;
    var room := |buffer| - p;
    ServedInMemory(|mem|, segs, room);
    ServedStep(mem, segs, room);
    if segs == [] || segs[0].kaddr == 0 {
      PatchSame(buffer, p, 0);
    } else if segs[0].length > room {
      GatherOne(mem, Sg(segs[0].kaddr, segs[0].offset, room), []);
    } else {
      hide Gather, Patch;
      var rest := Served(segs[1..], room - segs[0].length);
      ServedInMemory(|mem|, segs[1..], room - segs[0].length);
      GatherOne(mem, segs[0], rest);
      PatchPatch(buffer, p, mem[segs[0].Start()..segs[0].End()], Gather(mem, rest));
    }
  }

  lemma CopyInStep(mem: seq<byte>, segs: seq<Sg>, buffer: seq<byte>, p: nat)
    requires p <= |buffer| && InMemory(|mem|, segs)
    ensures segs == [] || segs[0].kaddr == 0 ==> CopiedIn(mem, segs, buffer, p) == mem
    ensures segs != [] && segs[0].kaddr != 0 && segs[0].length > |buffer| - p ==>
              CopiedIn(mem, segs, buffer, p) == Patch(mem, segs[0].Start(), buffer[p..])
    ensures segs != [] && segs[0].kaddr != 0 && segs[0].length <= |buffer| - p ==>
              CopiedIn(mem, segs, buffer, p) ==
              CopiedIn(Patch(mem, segs[0].Start(), buffer[p..p + segs[0].length]), segs[1..], buffer, p + segs[0].length)
  {
    hide CopiedIn;
    if segs == [] || segs[0].kaddr == 0 {
      CopyInNothing(mem, segs, buffer, p);
    } else if segs[0].length > |buffer| - p {
      CopyInPart(mem, segs, buffer, p);
    } else {
      CopyInRest(mem, segs, buffer, p);
    }
  }

  lemma CopyInNothing(mem: seq<byte>, segs: seq<Sg>, buffer: seq<byte>, p: nat)
    requires p <= |buffer| && InMemory(|mem|, segs) && (segs == [] || segs[0].kaddr == 0)
    ensures CopiedIn(mem, segs, buffer, p) == mem
  {
    assert Served(segs, |buffer| - p) == [];
  }

  lemma CopyInPart(mem: seq<byte>, segs: seq<Sg>, buffer: seq<byte>, p: nat)
    requires p <= |buffer| && InMemory(|mem|, segs) && segs != [] && segs[0].kaddr != 0 && segs[0].length > |buffer| - p
    ensures CopiedIn(mem, segs, buffer, p) == Patch(mem, segs[0].Start(), buffer[p..])
  {
    hide Served, Patch;
    var room := |buffer| - p;
    ServedInMemory(|mem|, segs, room);
    ServedStep(mem, segs, room);
    hide Scatter, Total;
    var g := Sg(segs[0].kaddr, segs[0].offset, room);
    TotalOne(g, []);
    ScatterNothing(Patch(mem, g.Start(), buffer[p..]), []);
    ScatterOne(mem, g, [], buffer[p..]);
    assert [g] + [] == [g] && buffer[p..][..room] == buffer[p..] && buffer[p..][room..] == [];
    assert buffer[p..p + room] == buffer[p..];
  }

  lemma CopyInRest(mem: seq<byte>, segs: seq<Sg>, buffer: seq<byte>, p: nat)
    requires p <= |buffer| && InMemory(|mem|, segs) && segs != [] && segs[0].kaddr != 0 && segs[0].length <= |buffer| - p
    ensures CopiedIn(mem, segs, buffer, p) ==
            CopiedIn(Patch(mem, segs[0].Start(), buffer[p..p + segs[0].length]), segs[1..], buffer, p + segs[0].length)
  {
    hide Served, Patch, Scatter, Total;
    var room, n := |buffer| - p, segs[0].length;
    var rest := Served(segs[1..], room - n);
    ServedInMemory(|mem|, segs, room);
    ServedInMemory(|mem|, segs[1..], room - n);
    ServedStep(mem, segs, room);
    TotalOne(segs[0], rest);
    var flat := buffer[p..p + n + Total(rest)];
    ScatterOne(mem, segs[0], rest, flat);
    assert flat[..n] == buffer[p..p + n] && flat[n..] == buffer[p + n..p + n + Total(rest)];
  }

  lemma TotalOne(g: Sg, rest: seq<Sg>)
    ensures Total([g] + rest) == g.length + Total(rest)
  {
    assert ([g] + rest)[1..] == rest;
  }

  lemma ScatterNothing(mem: seq<byte>, flat: seq<byte>)
    requires flat == []
    ensures Scatter(mem, [], flat) == mem && Total([]) == 0
  {
  }

  /** A complete transfer puts the flat contents of the segments into the buffer. */
  lemma CopiedOutWhole(mem: seq<byte>, buffer: seq<byte>, p: nat, segs: seq<Sg>)
    requires p <= |buffer| && InMemory(|mem|, segs) && Complete(segs, |buffer| - p)
    ensures p + Total(segs) <= |buffer| && CopiedOut(mem, buffer, p, segs) == Patch(buffer, p, Gather(mem, segs))
  {
  }

  lemma CompleteStep(segs: seq<Sg>, room: nat)
    ensures Complete(segs, room) <==>
            segs == [] ||
            (segs[0].kaddr != 0 && segs[0].length <= room && Complete(segs[1..], room - segs[0].length))
  {
    if segs != [] && segs[0].kaddr != 0 && segs[0].length <= room {
      assert segs == [segs[0]] + segs[1..];
      assert Served(segs, room)[1..] == Served(segs[1..], room - segs[0].length);
    }
  }

  method CopyToUserSg(mem: array<byte>, buffer: array<byte>, at: nat, sg: seq<Sg>) returns (r: nat)
    requires mem != buffer
    requires at <= buffer.Length && InMemory(mem.Length, sg)
    modifies buffer
    ensures buffer[..] == CopiedOut(mem[..], old(buffer[..]), at, sg)
    ensures r == 0 <==> Complete(sg, buffer.Length - at)
  {
    hide CopiedOut, Complete, Patch;
    ghost var final := CopiedOut(mem[..], buffer[..], at, sg);
    var p: nat := at;
    assert sg[0..] == sg;
    for i := 0 to |sg|
      invariant p <= buffer.Length
      invariant final == CopiedOut(mem[..], buffer[..], p, sg[i..])
      invariant Complete(sg, buffer.Length - at) <==> Complete(sg[i..], buffer.Length - p)
    {
      assert sg[i..][0] == sg[i] && sg[i..][1..] == sg[i + 1..];
      CompleteStep(sg[i..], buffer.Length - p);
      CopyOutStep(mem[..], buffer[..], p, sg[i..]);
      if sg[i].kaddr == 0 {
        return 1;
      }
      var piece := mem[sg[i].Start()..sg[i].End()];
      assert piece == mem[..][sg[i].Start()..sg[i].End()];
      r := CopyToUser(buffer, p, piece);
      if r != 0 {
        assert piece[..buffer.Length - p] == mem[..][sg[i].Start()..sg[i].Start() + (buffer.Length - p)];
        return;
      }
      p := p + sg[i].length;
    }
    CompleteStep(sg[|sg|..], buffer.Length - p);
    CopyOutStep(mem[..], buffer[..], p, sg[|sg|..]);
    r := 0;
  }

  method CopyFromUserSg(mem: array<byte>, sg: seq<Sg>, buffer: array<byte>, at: nat) returns (r: nat)
    requires mem != buffer
    requires at <= buffer.Length && InMemory(mem.Length, sg)
    modifies mem
    ensures mem[..] == CopiedIn(old(mem[..]), sg, buffer[..], at)
    ensures r == 0 <==> Complete(sg, buffer.Length - at)
  {
    hide CopiedIn, Complete, Patch;
    ghost var final := CopiedIn(mem[..], sg, buffer[..], at);
    var p: nat := at;
    assert sg[0..] == sg;
    for i := 0 to |sg|
      invariant p <= buffer.Length
      invariant final == CopiedIn(mem[..], sg[i..], buffer[..], p)
      invariant Complete(sg, buffer.Length - at) <==> Complete(sg[i..], buffer.Length - p)
    {
      assert sg[i..][0] == sg[i] && sg[i..][1..] == sg[i + 1..];
      CompleteStep(sg[i..], buffer.Length - p);
      CopyInStep(mem[..], sg[i..], buffer[..], p);
      if sg[i].kaddr == 0 {
        return 1;
      }
      assert buffer[..][p..] == buffer[p..];
      r := CopyFromUser(mem, sg[i].Start(), buffer, p, sg[i].length);
      if r != 0 {
        return;
      }
      assert buffer[..][p..p + sg[i].length] == buffer[p..p + sg[i].length];
      p := p + sg[i].length;
    }
    CompleteStep(sg[|sg|..], buffer.Length - p);
    CopyInStep(mem[..], sg[|sg|..], buffer[..], p);
    r := 0;
  }
}
