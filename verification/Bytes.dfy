/** Bytes, byte order and slices: the vocabulary shared by the wire formats and the data path. */
module Bytes {

  type byte = b: int | 0 <= b < 256

  const TWO32 := 0x1_0000_0000

  type uint32 = n: int | 0 <= n < TWO32

  /** The four bytes of n, least significant first: what memcpy of an unsigned int moves on a little-endian host. */
  function Le32(n: uint32): (s: seq<byte>)
    ensures |s| == 4
    ensures FromLe32(s) == n
  {
    var h1 := n / 256;
    var h2 := h1 / 256;
    var h3 := h2 / 256;
    [n % 256, h1 % 256, h2 % 256, h3]
  }

  function FromLe32(s: seq<byte>): uint32
    requires |s| == 4
  {
    0x100_0000 * (s[3] as int) + 0x1_0000 * (s[2] as int) + 0x100 * (s[1] as int) + s[0]
  }

  /** The four bytes of n, most significant first: htonl. */
  function Be32(n: uint32): (s: seq<byte>)
    ensures |s| == 4
    ensures FromBe32(s) == n
  {
    var h1 := n / 256;
    var h2 := h1 / 256;
    var h3 := h2 / 256;
    [h3, h2 % 256, h1 % 256, n % 256]
  }

  function FromBe32(s: seq<byte>): uint32
    requires |s| == 4
  {
    0x100_0000 * (s[0] as int) + 0x1_0000 * (s[1] as int) + 0x100 * (s[2] as int) + s[3]
  }

  /** The two bytes of n, most significant first: htons. */
  function Be16(n: nat): (s: seq<byte>)
    requires n < 0x1_0000
    ensures |s| == 2
    ensures FromBe16(s) == n
  {
    [n / 0x100, n % 256]
  }

  function FromBe16(s: seq<byte>): (n: nat)
    requires |s| == 2
    ensures n < 0x1_0000
  {
    0x100 * (s[0] as int) + s[1]
  }

  /** A number of big-endian bytes, the most significant one first. */
  function BigEndian(s: seq<byte>): nat {
    if s == [] then 0 else 256 * BigEndian(s[..|s| - 1]) + s[|s| - 1]
  }

  lemma BigEndianIs(s: seq<byte>)
    ensures |s| == 4 ==> BigEndian(s) == FromBe32(s)
    ensures |s| == 2 ==> BigEndian(s) == FromBe16(s)
    ensures |s| == 1 ==> BigEndian(s) == s[0]
  {
    if |s| == 4 {
      assert s[..3][..2] == s[..2] && s[..2][..1] == [s[0]] && [s[0]][..0] == [];
    } else if |s| == 2 {
      assert s[..1] == [s[0]] && [s[0]][..0] == [];
    } else if |s| == 1 {
      assert s[..0] == [];
    }
  }

  /** A number of little-endian bytes, the least significant one first. */
  function LittleEndian(s: seq<byte>): nat {
    if s == [] then 0 else s[0] + 256 * LittleEndian(s[1..])
  }

  lemma LittleEndianIs(s: seq<byte>)
    requires |s| == 4
    ensures LittleEndian(s) == FromLe32(s)
  {
    var last := [s[3]];
    var two := [s[2], s[3]];
    var three := [s[1], s[2], s[3]];
    assert s[1..] == three && three[1..] == two && two[1..] == last && last[1..] == [];
    assert LittleEndian(last) == s[3];
    assert LittleEndian(two) == s[2] + 256 * LittleEndian(last);
    assert LittleEndian(three) == s[1] + 256 * LittleEndian(two);
  }

  /** s with the bytes from position at on replaced by t. */
  function Patch(s: seq<byte>, at: nat, t: seq<byte>): (r: seq<byte>)
    requires at + |t| <= |s|
    ensures |r| == |s|
  {
    s[..at] + t + s[at + |t|..]
  }

  function Zeros(n: nat): (s: seq<byte>)
    ensures |s| == n && forall k :: 0 <= k < n ==> s[k] == 0
  {
    seq(n, _ => 0)
  }

  function Min(a: int, b: int): int {
    if a <= b then a else b
  }

  /** Writing two adjacent pieces one after the other is writing their concatenation. */
  lemma PatchPatch(s: seq<byte>, at: nat, t: seq<byte>, u: seq<byte>)
    requires at + |t| + |u| <= |s|
    ensures Patch(Patch(s, at, t), at + |t|, u) == Patch(s, at, t + u)
  {
  }

  lemma PatchSame(s: seq<byte>, at: nat, n: nat)
    requires at + n <= |s|
    ensures Patch(s, at, s[at..at + n]) == s
  {
  }
}
