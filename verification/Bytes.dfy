/** Bytes, big-endian integers and concatenation: the vocabulary every codec shares. */
module Bytes {
  datatype Option<T> = None | Some(value: T)

  type byte = x: int | 0 <= x < 0x100
  type u16 = x: int | 0 <= x < 0x1_0000
  type u32 = x: int | 0 <= x < 0x1_0000_0000
  type u64 = x: int | 0 <= x < 0x1_0000_0000_0000_0000

  function PutU16(v: u16): (s: seq<byte>)
    ensures |s| == 2
  {
    [v / 0x100, v % 0x100]
  }

  function PutU32(v: u32): (s: seq<byte>)
    ensures |s| == 4
  {
    PutU16(v / 0x1_0000) + PutU16(v % 0x1_0000)
  }

  function PutU64(v: u64): (s: seq<byte>)
    ensures |s| == 8
  {
    PutU32(v / 0x1_0000_0000) + PutU32(v % 0x1_0000_0000)
  }

  /** The integer stored at offset `at`. */
  function GetU16(s: seq<byte>, at: nat): u16
    requires at + 2 <= |s|
  {
    (s[at] as int) * 0x100 + s[at + 1]
  }

  function GetU32(s: seq<byte>, at: nat): u32
    requires at + 4 <= |s|
  {
    (GetU16(s, at) as int) * 0x1_0000 + GetU16(s, at + 2)
  }

  function GetU64(s: seq<byte>, at: nat): u64
    requires at + 8 <= |s|
  {
    (GetU32(s, at) as int) * 0x1_0000_0000 + GetU32(s, at + 4)
  }

  /** Reading an integer back from anywhere inside a larger buffer. */
  lemma GetPutU16(s: seq<byte>, at: nat, v: u16)
    requires at + 2 <= |s| && s[at..at + 2] == PutU16(v)
    ensures GetU16(s, at) == v
  {
    assert s[at] == s[at..at + 2][0] && s[at + 1] == s[at..at + 2][1];
  }

  lemma GetPutU32(s: seq<byte>, at: nat, v: u32)
    requires at + 4 <= |s| && s[at..at + 4] == PutU32(v)
    ensures GetU32(s, at) == v
  {
    assert s[at..at + 2] == s[at..at + 4][..2] && s[at + 2..at + 4] == s[at..at + 4][2..];
    GetPutU16(s, at, v / 0x1_0000);
    GetPutU16(s, at + 2, v % 0x1_0000);
  }

  lemma GetPutU64(s: seq<byte>, at: nat, v: u64)
    requires at + 8 <= |s| && s[at..at + 8] == PutU64(v)
    ensures GetU64(s, at) == v
  {
    assert s[at..at + 4] == s[at..at + 8][..4] && s[at + 4..at + 8] == s[at..at + 8][4..];
    GetPutU32(s, at, v / 0x1_0000_0000);
    GetPutU32(s, at + 4, v % 0x1_0000_0000);
  }

  /** Writing back what was read. */
  lemma PutGetU16(s: seq<byte>, at: nat)
    requires at + 2 <= |s|
    ensures PutU16(GetU16(s, at)) == s[at..at + 2]
  {
  }

  lemma PutGetU32(s: seq<byte>, at: nat)
    requires at + 4 <= |s|
    ensures PutU32(GetU32(s, at)) == s[at..at + 4]
  {
    PutGetU16(s, at);
    PutGetU16(s, at + 2);
    hide PutU16, GetU16;
    var hi: int, lo: int := GetU16(s, at), GetU16(s, at + 2);
    assert (hi * 0x1_0000 + lo) / 0x1_0000 == hi && (hi * 0x1_0000 + lo) % 0x1_0000 == lo;
    assert s[at..at + 4] == s[at..at + 2] + s[at + 2..at + 4];
  }

  lemma PutGetU64(s: seq<byte>, at: nat)
    requires at + 8 <= |s|
    ensures PutU64(GetU64(s, at)) == s[at..at + 8]
  {
    PutGetU32(s, at);
    PutGetU32(s, at + 4);
    hide PutU32, GetU32;
    var hi: int, lo: int := GetU32(s, at), GetU32(s, at + 4);
    assert (hi * 0x1_0000_0000 + lo) / 0x1_0000_0000 == hi && (hi * 0x1_0000_0000 + lo) % 0x1_0000_0000 == lo;
    assert s[at..at + 8] == s[at..at + 4] + s[at + 4..at + 8];
  }

  /** Reading a number tells the bytes it was read from. */
  lemma ReadU16(s: seq<byte>, at: nat, v: u16)
    requires at + 2 <= |s|
    ensures GetU16(s, at) == v <==> s[at..at + 2] == PutU16(v)
  {
    PutGetU16(s, at);
    hide GetU16, PutU16;
    if s[at..at + 2] == PutU16(v) {
      GetPutU16(s, at, v);
    }
  }

  lemma ReadU32(s: seq<byte>, at: nat, v: u32)
    requires at + 4 <= |s|
    ensures GetU32(s, at) == v <==> s[at..at + 4] == PutU32(v)
  {
    PutGetU32(s, at);
    hide GetU32, PutU32;
    if s[at..at + 4] == PutU32(v) {
      GetPutU32(s, at, v);
    }
  }

  lemma ReadU64(s: seq<byte>, at: nat, v: u64)
    requires at + 8 <= |s|
    ensures GetU64(s, at) == v <==> s[at..at + 8] == PutU64(v)
  {
    PutGetU64(s, at);
    hide GetU64, PutU64;
    if s[at..at + 8] == PutU64(v) {
      GetPutU64(s, at, v);
    }
  }

  function Zeros(n: nat): (s: seq<byte>)
    ensures |s| == n
  {
    seq(n, _ => 0)
  }

  /** The concatenation of a list of chunks. */
  function Flat<T>(chunks: seq<seq<T>>): seq<T> {
    if chunks == [] then [] else Flat(chunks[..|chunks| - 1]) + chunks[|chunks| - 1]
  }

  lemma {:induction false} FlatAppend<T>(a: seq<seq<T>>, b: seq<seq<T>>)
    ensures Flat(a + b) == Flat(a) + Flat(b)
  {
    if b == [] {
      assert a + b == a;
    } else {
      var k := |b| - 1;
      FlatAppend(a, b[..k]);
      assert (a + b)[..|a + b| - 1] == a + b[..k];
      assert (a + b)[|a + b| - 1] == b[k];
    }
  }

  lemma FlatSnoc<T>(a: seq<seq<T>>, c: seq<T>)
    ensures Flat(a + [c]) == Flat(a) + c
  {
    assert (a + [c])[..|a|] == a;
  }

  lemma FlatCons<T>(c: seq<T>, a: seq<seq<T>>)
    ensures Flat([c] + a) == c + Flat(a)
  {
    FlatAppend([c], a);
    FlatSnoc([], c);
    assert [] + [c] == [c];
  }

  /** Taking one chunk more. */
  lemma FlatStep<T>(a: seq<seq<T>>, i: nat)
    requires i < |a|
    ensures Flat(a[..i + 1]) == Flat(a[..i]) + a[i]
  {
    assert a[..i + 1] == a[..i] + [a[i]];
    FlatSnoc(a[..i], a[i]);
  }

  /** A prefix of the chunks concatenates to a prefix of the whole. */
  lemma FlatSplit<T>(a: seq<seq<T>>, i: nat)
    requires i <= |a|
    ensures Flat(a) == Flat(a[..i]) + Flat(a[i..])
  {
    FlatAppend(a[..i], a[i..]);
    assert a == a[..i] + a[i..];
  }
}
