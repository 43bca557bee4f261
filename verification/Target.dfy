/**
 * user/scsi_target.c and the configuration in user/main.c: which files become which LUNs, and which LUN serves a
 * command.
 */
module Target {
  import opened Bytes
  import opened Scsi
  import opened Engine
  import opened Protocol
  import D = BlockDevice

  // ----- the file list

  /** The fields of a comma-separated list. */
  function Split(s: string): (fields: seq<string>)
    ensures |fields| > 0
    decreases |s|
  {
    if s == [] then [[]]
    else if s[0] == ',' then [[]] + Split(s[1..])
    else var rest := Split(s[1..]); [[s[0]] + rest[0]] + rest[1..]
  }

  function NonEmpty(fields: seq<string>): (r: seq<string>)
    ensures forall i :: 0 <= i < |r| ==> r[i] != [] && r[i] in fields
  {
    if fields == [] then []
    else if fields[0] == [] then NonEmpty(fields[1..])
    else [fields[0]] + NonEmpty(fields[1..])
  }

  ghost predicate Distinct(names: seq<string>) {
    forall i, j :: 0 <= i < j < |names| ==> names[i] != names[j]
  }

  const NAME_SIZE: nat := 64

  datatype FileList =
    | Accepted(files: seq<string>, lastSize: nat)
    | NameTooLong
    | CannotStat(name: string)
    | BadSize(name: string)
    | Duplicate(name: string)
    // the source stores a 257th name past the end of its table
    | Overrun

  const TABLE_SIZE: nat := 256

  /** What makes a file list acceptable; sizes stands for stat. */
  ghost predicate Acceptable(s: string, sizes: map<string, nat>) {
    && (forall f :: f in Split(s) ==> |f| < NAME_SIZE)
    && (forall f :: f in NonEmpty(Split(s)) ==> f in sizes && sizes[f] % MIB == 0)
    && Distinct(NonEmpty(Split(s))) && |NonEmpty(Split(s))| <= TABLE_SIZE
  }

  /** The size stat reported last. */
  function LastSize(files: seq<string>, sizes: map<string, nat>): nat {
    if files == [] || files[|files| - 1] !in sizes then 0 else sizes[files[|files| - 1]]
  }

  // the fields before the last comma of a prefix, and the characters after it

  /** The fields with one more character in the last one, and in the first one. */
  function Grow(f: seq<string>, c: char): seq<string>
    requires |f| > 0
  {
    f[..|f| - 1] + [f[|f| - 1] + [c]]
  }

  function GrowFirst(f: seq<string>, c: char): seq<string>
    requires |f| > 0
  {
    [[c] + f[0]] + f[1..]
  }

  lemma GrowBoth(f: seq<string>, x: char, c: char)
    requires |f| > 0
    ensures Grow(GrowFirst(f, x), c) == GrowFirst(Grow(f, c), x)
    ensures GrowFirst(f, x) + [[]] == GrowFirst(f + [[]], x)
    ensures Grow([[]] + f, c) == [[]] + Grow(f, c)
  {
    if |f| == 1 {
      assert ([x] + f[0]) + [c] == [x] + (f[0] + [c]);
    }
  }

  lemma SplitCons(x: char, t: string)
    ensures Split([x] + t) == if x == ',' then [[]] + Split(t) else GrowFirst(Split(t), x)
  {
    assert ([x] + t)[1..] == t;
  }

  lemma {:induction false} SplitAppend(s: string, c: char)
    ensures Split(s + [c]) == if c == ',' then Split(s) + [[]] else Grow(Split(s), c)
    decreases |s|
  {
    hide Split, Grow, GrowFirst;
    if s == [] {
      SplitOne(c);
      assert s + [c] == [c];
    } else {
      var t := s[1..];
      SplitAppend(t, c);
      SplitCons(s[0], t);
      SplitCons(s[0], t + [c]);
      assert s == [s[0]] + t && s + [c] == [s[0]] + (t + [c]);
      GrowBoth(Split(t), s[0], c);
    }
  }

  lemma SplitOne(c: char)
    ensures Split([]) == [[]]
    ensures Split([c]) == if c == ',' then Split([]) + [[]] else Grow(Split([]), c)
  {
    var none: string := [];
    SplitCons(c, none);
    var f := Split(none);
    assert f == [none] && f[..0] == [] && f[1..] == [];
    assert [c] + none == [c] && none + [c] == [c];
  }

  lemma NonEmptyCons(f: string, fields: seq<string>)
    ensures NonEmpty([f] + fields) == (if f == [] then [] else [f]) + NonEmpty(fields)
  {
    assert ([f] + fields)[1..] == fields;
  }

  lemma {:induction false} NonEmptyAppend(a: seq<string>, b: seq<string>)
    ensures NonEmpty(a + b) == NonEmpty(a) + NonEmpty(b)
  {
    hide NonEmpty;
    assert NonEmpty([]) == [] by { NonEmptyNone(); }
    if a == [] {
      assert a + b == b;
    } else {
      NonEmptyAppend(a[1..], b);
      NonEmptyCons(a[0], a[1..]);
      NonEmptyCons(a[0], a[1..] + b);
      assert a == [a[0]] + a[1..] && a + b == [a[0]] + (a[1..] + b);
    }
  }

  lemma {:induction false} NonEmptyKeeps(fields: seq<string>, f: string)
    requires f in fields && f != []
    ensures f in NonEmpty(fields)
  {
    if fields[0] == f {
    } else {
      NonEmptyKeeps(fields[1..], f);
    }
  }

  /** Reading a list that was joined with commas gives the names back. */
  function Join(names: seq<string>): string {
    if names == [] then [] else if |names| == 1 then names[0] else names[0] + "," + Join(names[1..])
  }

  predicate Plain(name: string) {
    name != [] && ',' !in name
  }

  lemma {:induction false} SplitName(name: string, rest: string)
    requires ',' !in name
    ensures Split(name + "," + rest) == [name] + Split(rest)
    ensures Split(name) == [name]
  {
    if name == [] {
      assert (name + "," + rest)[1..] == rest;
    } else {
      SplitName(name[1..], rest);
      assert (name + "," + rest)[1..] == name[1..] + "," + rest;
      assert name == [name[0]] + name[1..];
    }
  }

  lemma {:induction false} SplitJoin(names: seq<string>)
    requires forall i :: 0 <= i < |names| ==> Plain(names[i])
    ensures NonEmpty(Split(Join(names))) == names
  {
    if |names| == 0 {
    } else if |names| == 1 {
      SplitName(names[0], []);
      assert NonEmpty([names[0]]) == [names[0]];
    } else {
      SplitJoin(names[1..]);
      SplitName(names[0], Join(names[1..]));
      assert ([names[0]] + Split(Join(names[1..])))[1..] == Split(Join(names[1..]));
    }
  }

  method FindName(names: seq<string>, name: string) returns (k: nat)
    ensures k <= |names| && (k < |names| ==> names[k] == name) && (k == |names| ==> name !in names)
  {
    k := 0;
    while k < |names|
      invariant k <= |names| && forall j :: 0 <= j < k ==> names[j] != name
    {
      if names[k] == name {
        return;
      }
      k := k + 1;
    }
  }

  /** Fields that are complete stay, and the field in hand only grows. */
  lemma {:induction false} SplitExtends(s: string, i: nat)
    requires i <= |s|
    ensures var a, b := Split(s[..i]), Split(s);
            && |a| <= |b| && a[..|a| - 1] == b[..|a| - 1] && a[|a| - 1] <= b[|a| - 1]
    decreases |s| - i
  {
    if i == |s| {
      assert s[..i] == s;
    } else {
      SplitAppend(s[..i], s[i]);
      assert s[..i] + [s[i]] == s[..i + 1];
      SplitExtends(s, i + 1);
      var a, m, b := Split(s[..i]), Split(s[..i + 1]), Split(s);
      if s[i] == ',' {
        assert m[|a| - 1] == a[|a| - 1] && m[..|a| - 1] == a[..|a| - 1];
        assert b[..|m| - 1] == m[..|m| - 1];
        assert b[|a| - 1] == b[..|m| - 1][|a| - 1] == m[|a| - 1];
        assert b[..|a| - 1] == b[..|m| - 1][..|a| - 1];
      }
    }
  }

  lemma Overlong(s: string, i: nat, done: seq<string>, field: string)
    requires i < |s| && Split(s[..i + 1]) == done + [field] && |field| >= NAME_SIZE
    ensures exists f :: f in Split(s) && |f| >= NAME_SIZE
  {
    SplitExtends(s, i + 1);
    assert Split(s)[|done|] in Split(s);
    assert (done + [field])[|done|] == field;
  }

  /** A field that a comma or the end has closed is a field of the whole list. */
  lemma FieldIsFinal(s: string, i: nat, done: seq<string>, field: string)
    requires i <= |s| && Split(s[..i]) == done + [field] && (i < |s| ==> s[i] == ',')
    ensures |done| < |Split(s)| && Split(s)[..|done| + 1] == done + [field]
    ensures field != [] ==> field in NonEmpty(Split(s))
  {
    var b := Split(s);
    if i == |s| {
      assert s[..i] == s;
    } else {
      SplitAppend(s[..i], s[i]);
      assert s[..i] + [s[i]] == s[..i + 1];
      SplitExtends(s, i + 1);
      assert Split(s[..i + 1])[..|done| + 1] == done + [field];
    }
    assert b[..|done| + 1][|done|] == field;
    assert field in b;
    if field != [] {
      NonEmptyKeeps(b, field);
    }
  }

  lemma DuplicateIsFinal(s: string, i: nat, done: seq<string>, field: string)
    requires i <= |s| && Split(s[..i]) == done + [field] && (i < |s| ==> s[i] == ',')
    requires field != [] && field in NonEmpty(done)
    ensures !Distinct(NonEmpty(Split(s)))
  {
    FieldIsFinal(s, i, done, field);
    var b := Split(s);
    assert b == (done + [field]) + b[|done| + 1..];
    NonEmptyAppend(done + [field], b[|done| + 1..]);
    NonEmptyAppend(done, [field]);
    assert NonEmpty([field]) == [field];
    var k :| 0 <= k < |NonEmpty(done)| && NonEmpty(done)[k] == field;
    assert NonEmpty(b)[k] == field && NonEmpty(b)[|NonEmpty(done)|] == field;
  }

  /** What the loop knows after i characters: the closed fields, the field in hand and the files found. */
  ghost predicate Scanned(s: string, sizes: map<string, nat>, i: nat, done: seq<string>, fname: string,
                          files: seq<string>, last: nat)
  {
    && i <= |s| + 1
    && (i <= |s| ==> Split(s[..i]) == done + [fname]) && (i == |s| + 1 ==> Split(s) == done)
    && files == NonEmpty(done) && |fname| < NAME_SIZE
    && (forall f :: f in done ==> |f| < NAME_SIZE)
    && (forall f :: f in files ==> f in sizes && sizes[f] % MIB == 0)
    && Distinct(files) && |files| <= TABLE_SIZE && last == LastSize(files, sizes)
  }

  lemma ScanStart(s: string, sizes: map<string, nat>)
    ensures Scanned(s, sizes, 0, [], [], [], 0)
  {
    assert s[..0] == [] && Split([]) == [[]];
  }

  lemma ScanChar(s: string, sizes: map<string, nat>, i: nat, done: seq<string>, fname: string,
                 files: seq<string>, last: nat)
    requires Scanned(s, sizes, i, done, fname, files, last) && i < |s| && s[i] != ','
    ensures |fname| >= 63 ==> !Acceptable(s, sizes) && exists f :: f in Split(s) && |f| >= NAME_SIZE
    ensures |fname| < 63 ==> Scanned(s, sizes, i + 1, done, fname + [s[i]], files, last)
  {
    hide Split, NonEmpty;
    SplitAppend(s[..i], s[i]);
    assert s[..i] + [s[i]] == s[..i + 1];
    assert (done + [fname])[..|done|] == done;
    if |fname| >= 63 {
      Overlong(s, i, done, fname + [s[i]]);
    }
  }

  lemma ScanField(s: string, sizes: map<string, nat>, i: nat, done: seq<string>, fname: string,
                 files: seq<string>, last: nat)
    requires Scanned(s, sizes, i, done, fname, files, last) && i <= |s| && (i < |s| ==> s[i] == ',')
    ensures fname != [] && (fname !in sizes || sizes[fname] % MIB != 0 || fname in files || |files| == TABLE_SIZE) ==>
              !Acceptable(s, sizes)
    ensures |files| <= TABLE_SIZE
    ensures fname != [] ==> fname in NonEmpty(Split(s))
    ensures fname != [] && fname in files ==> !Distinct(NonEmpty(Split(s)))
    ensures fname != [] && fname !in files && |files| == TABLE_SIZE ==> |NonEmpty(Split(s))| > TABLE_SIZE
    ensures fname == [] ==> Scanned(s, sizes, i + 1, done + [fname], [], files, last)
    ensures fname != [] && fname in sizes && sizes[fname] % MIB == 0 && fname !in files && |files| < TABLE_SIZE ==>
              Scanned(s, sizes, i + 1, done + [fname], [], files + [fname], sizes[fname])
  {
    hide Split, NonEmpty, Distinct;
    FieldIsFinal(s, i, done, fname);
    NonEmptyAppend(done, [fname]);
    NonEmptyOne(fname);
    FieldCloses(s, i);
    MoreFields(s, i, done, fname);
    if fname != [] && fname in files {
      DuplicateIsFinal(s, i, done, fname);
    }
    if fname != [] && fname !in files {
      DistinctMore(files, fname);
      assert (files + [fname])[|files|] == fname;
    }
  }

  /** The whole list has at least the files that its closed fields have. */
  lemma MoreFields(s: string, i: nat, done: seq<string>, field: string)
    requires i <= |s| && Split(s[..i]) == done + [field] && (i < |s| ==> s[i] == ',')
    ensures |NonEmpty(Split(s))| >= |NonEmpty(done + [field])|
  {
    hide Split, NonEmpty;
    FieldIsFinal(s, i, done, field);
    var b := Split(s);
    assert b == b[..|done| + 1] + b[|done| + 1..];
    NonEmptyAppend(b[..|done| + 1], b[|done| + 1..]);
  }

  lemma FieldCloses(s: string, i: nat)
    requires i <= |s| && (i < |s| ==> s[i] == ',')
    ensures i < |s| ==> Split(s[..i + 1]) == Split(s[..i]) + [[]]
    ensures i == |s| ==> Split(s[..i]) == Split(s)
  {
    hide Split;
    if i < |s| {
      SplitAppend(s[..i], s[i]);
      assert s[..i] + [s[i]] == s[..i + 1];
    } else {
      assert s[..i] == s;
    }
  }

  lemma DistinctMore(files: seq<string>, f: string)
    requires Distinct(files) && f !in files
    ensures Distinct(files + [f])
  {
  }

  lemma NonEmptyNone()
    ensures NonEmpty([]) == []
  {
  }

  lemma NonEmptyOne(f: string)
    ensures NonEmpty([f]) == if f == [] then [] else [f]
  {
    assert [f][1..] == [];
  }

  /** The loop of configure_scsi_target over the characters of the -files argument. */
  method SplitFiles(filenames: string, sizes: map<string, nat>) returns (r: FileList)
    ensures r.Accepted? <==> Acceptable(filenames, sizes)
    ensures r.Accepted? ==>
              && r.files == NonEmpty(Split(filenames))
              && (forall f :: f in Split(filenames) ==> |f| < 64) && |r.files| <= 256
              && r.lastSize == if r.files == [] then 0 else sizes[r.files[|r.files| - 1]]
    ensures r.NameTooLong? ==> exists f :: f in Split(filenames) && |f| >= 64
    ensures r.CannotStat? ==> r.name in NonEmpty(Split(filenames)) && r.name !in sizes
    ensures r.BadSize? ==> r.name in NonEmpty(Split(filenames)) && r.name in sizes && sizes[r.name] % 1048576 != 0
    ensures r.Duplicate? ==> r.name in NonEmpty(Split(filenames)) && !Distinct(NonEmpty(Split(filenames)))
    ensures r.Overrun? ==> |NonEmpty(Split(filenames))| > 256
  {
    hide Scanned, Acceptable, Split, NonEmpty;
    var fname: string := [];
    var lunfiles: seq<string> := [];
    var last := 0;
    ghost var done: seq<string> := [];
    ScanStart(filenames, sizes);
    for i := 0 to |filenames| + 1
      invariant Scanned(filenames, sizes, i, done, fname, lunfiles, last)
    {
      if i < |filenames| && filenames[i] != ',' {
        ScanChar(filenames, sizes, i, done, fname, lunfiles, last);
        if |fname| >= 63 {
          return NameTooLong;
        }
        fname := fname + [filenames[i]];
      } else {
        ScanField(filenames, sizes, i, done, fname, lunfiles, last);
        done := done + [fname];
        if fname != [] {
          if fname !in sizes {
            return CannotStat(fname);
          }
          if sizes[fname] % MIB != 0 {
            return BadSize(fname);
          }
          var k := FindName(lunfiles, fname);
          if k < |lunfiles| {
            return Duplicate(fname);
          }
          if |lunfiles| == TABLE_SIZE {
            return Overrun;
          }
          lunfiles := lunfiles + [fname];
          last := sizes[fname];
          fname := [];
        }
      }
    }
    ScanEnd(filenames, sizes, done, fname, lunfiles, last);
    return Accepted(lunfiles, last);
  }

  lemma ScanEnd(s: string, sizes: map<string, nat>, done: seq<string>, fname: string, files: seq<string>, last: nat)
    requires Scanned(s, sizes, |s| + 1, done, fname, files, last)
    ensures Acceptable(s, sizes) && files == NonEmpty(Split(s)) && last == LastSize(files, sizes)
  {
  }

  // ----- the LUN list

  /** truncate(2): cuts a file, or extends it with zeros. */
  function Resize(content: seq<byte>, n: nat): (r: seq<byte>)
    ensures |r| == n
    ensures r == content <==> |content| == n
  {
    if n <= |content| then content[..n] else content + Zeros(n - |content|)
  }

  ghost function Views(luns: seq<LunData>): (v: seq<Lun>)
    requires forall i :: 0 <= i < |luns| ==> luns[i].Valid()
    reads set l | l in luns :: l.file
    ensures |v| == |luns| && forall i :: 0 <= i < |luns| ==> v[i] == luns[i].View()
  {
    if luns == [] then [] else [luns[0].View()] + Views(luns[1..])
  }

  lemma {:induction false} FindLunIs(luns: seq<Lun>, id: byte, k: nat)
    requires k <= |luns| && (k < |luns| ==> luns[k].id == id) && forall j :: 0 <= j < k ==> luns[j].id != id
    ensures FindLun(luns, id) == k
  {
    if k == 0 {
    } else {
      FindLunIs(luns[1..], id, k - 1);
    }
  }

  /** What opening a LUN file gives: its contents, a new empty file, or nothing. */
  datatype Opened = Existing(content: seq<byte>) | Created | Failed

  function ContentOf(lunfile: Opened): seq<byte> {
    if lunfile.Existing? then lunfile.content else []
  }

  /** The LUN that add_lun makes of a file. */
  function LunOf(i: nat, lunfile: Opened, mb: nat): Lun {
    Lun(i % 256, mb, Resize(ContentOf(lunfile), mb * MIB))
  }

  /** Of the first n files those that could be opened are LUNs, the last one first. */
  function ListOf(lunfiles: seq<Opened>, mb: nat, n: nat): (v: seq<Lun>)
    requires n <= |lunfiles|
    ensures |v| <= n
  {
    if n == 0 then []
    else if lunfiles[n - 1].Failed? then ListOf(lunfiles, mb, n - 1)
    else [LunOf(n - 1, lunfiles[n - 1], mb)] + ListOf(lunfiles, mb, n - 1)
  }

  lemma {:induction false} NumbersBelow(lunfiles: seq<Opened>, mb: nat, n: nat, k: nat)
    requires n <= |lunfiles| <= 256 && k < |ListOf(lunfiles, mb, n)|
    ensures ListOf(lunfiles, mb, n)[k].id as nat < n
  {
    hide LunOf, Resize;
    ListNext(lunfiles, mb, n - 1);
    if lunfiles[n - 1].Failed? {
      NumbersBelow(lunfiles, mb, n - 1, k);
    } else if k > 0 {
      NumbersBelow(lunfiles, mb, n - 1, k - 1);
    } else {
      LunNumber(n - 1, lunfiles[n - 1], mb);
    }
  }

  lemma ListNext(lunfiles: seq<Opened>, mb: nat, n: nat)
    requires n < |lunfiles|
    ensures ListOf(lunfiles, mb, n + 1) ==
            (if lunfiles[n].Failed? then [] else [LunOf(n, lunfiles[n], mb)]) + ListOf(lunfiles, mb, n)
  {
    hide LunOf;
    assert [] + ListOf(lunfiles, mb, n) == ListOf(lunfiles, mb, n);
  }

  /** Looking LUN i up finds file i at the given size although the list is in reverse order, or nothing if the file could
      not be opened. */
  lemma {:induction false} ListedLun(lunfiles: seq<Opened>, mb: nat, n: nat, i: nat)
    requires i < n <= |lunfiles| <= 256
    ensures var v := ListOf(lunfiles, mb, n);
            if lunfiles[i].Failed? then FindLun(v, i) == |v|
            else FindLun(v, i) < |v| && v[FindLun(v, i)] == LunOf(i, lunfiles[i], mb)
  {
    hide LunOf;
    var v := ListOf(lunfiles, mb, n);
    if i == n - 1 {
      var rest := ListOf(lunfiles, mb, n - 1);
      if lunfiles[i].Failed? {
        forall k | 0 <= k < |rest| ensures rest[k].id != i {
          NumbersBelow(lunfiles, mb, n - 1, k);
        }
        FindLunIs(rest, i, |rest|);
      } else {
        LunNumber(i, lunfiles[i], mb);
        FindLunIs(v, i, 0);
      }
    } else {
      ListedLun(lunfiles, mb, n - 1, i);
      if !lunfiles[n - 1].Failed? {
        LunNumber(n - 1, lunfiles[n - 1], mb);
        assert v[1..] == ListOf(lunfiles, mb, n - 1);
      }
    }
  }

  /** LUN i has number i and the given size, and holds the bytes of its file as far as they fit and zeros behind them; a
      file that had to be created holds zeros. */
  lemma ListedContents(lunfiles: seq<Opened>, mb: nat, n: nat, i: nat)
    requires i < n <= |lunfiles| <= 256 && !lunfiles[i].Failed?
    ensures var v := ListOf(lunfiles, mb, n);
            && FindLun(v, i) < |v|
            && var l := v[FindLun(v, i)];
            && l.id == i && l.mb == mb && |l.disk| == 1048576 * mb
            && (lunfiles[i].Existing? ==>
                  forall k :: 0 <= k < |l.disk| ==>
                    l.disk[k] == if k < |lunfiles[i].content| then lunfiles[i].content[k] else 0)
            && (lunfiles[i].Created? ==> forall k :: 0 <= k < |l.disk| ==> l.disk[k] == 0)
  {
    hide ListOf, FindLun;
    ListedLun(lunfiles, mb, n, i);
  }

  /** No other number finds a LUN. */
  lemma OnlyListed(lunfiles: seq<Opened>, mb: nat, n: nat, id: byte)
    requires n <= |lunfiles| <= 256 && n <= id as nat
    ensures FindLun(ListOf(lunfiles, mb, n), id) == |ListOf(lunfiles, mb, n)|
  {
    hide FindLun, ListOf;
    var v := ListOf(lunfiles, mb, n);
    if FindLun(v, id) < |v| {
      NumbersBelow(lunfiles, mb, n, FindLun(v, id));
    }
  }

  /** REPORT LUNS with room for all of them reports the numbers of the files that could be opened, and no others. */
  lemma ReportedFiles(lunfiles: seq<Opened>, mb: nat, reply: seq<byte>, alloc: nat)
    requires |lunfiles| <= 256
    requires var v := ListOf(lunfiles, mb, |lunfiles|);
             D.ListsLuns(reply, Ids(v), alloc) && 16 <= alloc <= |reply| && 8 + 8 * |v| <= alloc && alloc % 8 == 0
    ensures forall id: byte :: id in DecodeLuns(reply, alloc) <==> id < |lunfiles| && !lunfiles[id].Failed?
  {
    hide ListOf, FindLun, DecodeLuns, D.ListsLuns;
    var n := |lunfiles|;
    D.ReportedLuns(reply, ListOf(lunfiles, mb, n), alloc);
    forall id: byte ensures id in DecodeLuns(reply, alloc) <==> id < n && !lunfiles[id].Failed? {
      if id < n {
        ListedLun(lunfiles, mb, n, id);
      } else {
        OnlyListed(lunfiles, mb, n, id);
      }
    }
  }

  lemma LunNumber(i: nat, lunfile: Opened, mb: nat)
    requires i < 256
    ensures LunOf(i, lunfile, mb).id == i
  {
  }

  class TargetData {
    // luns, newest first
    var luns: seq<LunData>

    constructor ()
      ensures luns == []
    {
      luns := [];
    }

    ghost predicate Valid()
      reads this
    {
      && (forall i :: 0 <= i < |luns| ==> luns[i].Valid())
      && (forall i, j :: 0 <= i < j < |luns| ==> luns[i].file != luns[j].file)
    }

    /** add_lun for a hard disk; the LUN number is stored in one byte. */
    method AddLun(lun: nat, lunfile: Opened, lunsizeinmb: int32) returns (added: bool)
      requires Valid() && 0 <= lunsizeinmb as int <= MAX_MB
      requires forall i :: 0 <= i < |luns| ==> allocated(luns[i].file)
      modifies this
      ensures Valid() && (forall i :: 0 <= i < |luns| ==> allocated(luns[i].file)) && added == !lunfile.Failed?
      ensures Views(luns) == (if added then [LunOf(lun, lunfile, lunsizeinmb as nat)] else []) + old(Views(luns))
      ensures |luns| == |old(luns)| + (if added then 1 else 0)
    {
      hide Resize, Views;
      if lunfile.Failed? {
        return false;
      }
      var resized := Resize(ContentOf(lunfile), lunsizeinmb as nat * MIB);
      var file := new byte[|resized|](k requires 0 <= k < |resized| => resized[k]);
      var l := new LunData(lun % 256, lunsizeinmb, file);
      ghost var before := luns;
      luns := [l] + luns;
      assert file[..] == resized;
      assert forall k :: 0 < k < |luns| ==> luns[k] == before[k - 1];
      return true;
    }

    /** The second loop of configure_scsi_target: every file that can be opened becomes a LUN of the size that stat
        reported last. */
    method AddLuns(lunfiles: seq<Opened>, lastSize: nat)
      requires luns == [] && |lunfiles| <= 256
      requires lastSize % MIB == 0 && lastSize / MIB <= MAX_MB
      modifies this
      ensures Valid() && |luns| <= |lunfiles|
      ensures Views(luns) == ListOf(lunfiles, lastSize / MIB, |lunfiles|)
    {
      hide LunOf, ListOf, Views;
      var mb := (lastSize / MIB) as int32;
      assert Views(luns) == [] && ListOf(lunfiles, mb as nat, 0) == [];
      for i := 0 to |lunfiles|
        invariant Valid() && Views(luns) == ListOf(lunfiles, mb as nat, i)
        invariant forall j :: 0 <= j < |luns| ==> allocated(luns[j].file)
      {
        ListNext(lunfiles, mb as nat, i);
        var added := AddLun(i, lunfiles[i], mb);
      }
    }

    /** The loop of run_scsi_command over the LUN list. */
    method LookUp(lun: byte) returns (i: nat)
      requires Valid()
      ensures i == FindLun(Views(luns), lun)
    {
      i := 0;
      while i < |luns|
        invariant i <= |luns| && forall j :: 0 <= j < i ==> luns[j].lun != lun
      {
        if luns[i].lun == lun {
          break;
        }
        i := i + 1;
      }
      FindLunIs(Views(luns), lun, i);
    }

    /** run_scsi_command; without the addressed LUN the source follows a null pointer, here crashed. */
    method RunScsiCommand(lun: byte, cdb: seq<byte>, data: array<byte>, at: nat, size: nat, canned: Canned)
      returns (crashed: bool, status: byte)
      requires Valid() && |luns| <= 256 && |cdb| == 16 && at + |canned.data| <= data.Length
      requires forall l :: l in luns ==> l.file != data
      requires var i := FindLun(Views(luns), lun);
               i < |luns| ==> Fits(Decode(cdb), luns[i].lunsizeinmb as nat, data.Length - at, size)
      modifies data, set l | l in luns :: l.file
      ensures Valid() && luns == old(luns)
      ensures var i, v := FindLun(old(Views(luns)), lun), old(Views(luns));
              && (crashed <==> i == |luns|)
              && (forall j :: 0 <= j < |luns| && j != i ==> luns[j].file[..] == old(luns[j].file[..]))
              && (crashed ==> data[..] == old(data[..]))
              && (!crashed ==> Reply(status, luns[i].file[..], data[..]) ==
                               Handled(v[i], Decode(cdb), Ids(v), old(data[..]), at, size, canned))
    {
      hide Handled, FindLun, Views, Fits, Ids;
      var i := LookUp(lun);
      if i == |luns| {
        return true, 0;
      }
      IdsListed();
      status := Dispatch(luns[i], ListIds(), cdb, data, at, size, canned);
      crashed := false;
    }

    function ListIds(): (ids: seq<byte>)
      reads this
      ensures |ids| == |luns|
    {
      seq(|luns|, i requires 0 <= i < |luns| reads this => luns[i].lun)
    }

    lemma IdsListed()
      requires Valid()
      ensures Ids(Views(luns)) == ListIds()
    {
    }
  }

  /** The dispatch table. */
  method Dispatch(ld: LunData, ids: seq<byte>, cdb: seq<byte>, data: array<byte>, at: nat, size: nat, canned: Canned)
    returns (status: byte)
    requires ld.Valid() && ld.file != data && |ids| <= 256 && |cdb| == 16 && at + |canned.data| <= data.Length
    requires Fits(Decode(cdb), ld.lunsizeinmb as nat, data.Length - at, size)
    modifies data, ld.file
    ensures Reply(status, ld.file[..], data[..]) ==
            Handled(old(ld.View()), Decode(cdb), ids, old(data[..]), at, size, canned)
  {
    var size';
    match cdb[0] {
      case 0x0a => status, size' := SbcWrite6(ld, cdb, data, at, size);
      case 0x2a => status, size' := SbcWrite10(ld, cdb, data, at, size);
      case 0xaa => status, size' := SbcWrite12(ld, cdb, data, at, size);
      case 0x28 => status, size' := SbcRead10(ld, cdb, data, at, size);
      case 0x25 => status, size' := SbcReadCapacity10(ld, data, at);
      case 0xa0 =>
        ghost var before := data[..];
        assert before[..at] == data[..at] && before[at..] == data[at..];
        status, size' := SpcReportLuns(ids, cdb, data, at, size);
      case _ =>
        status := canned.status;
        forall k | 0 <= k < |canned.data| {
          data[at + k] := canned.data[k];
        }
        assert data[..] == Patch(old(data[..]), at, canned.data);
    }
  }
}
