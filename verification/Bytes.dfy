/**
 Byte strings, the slices Python takes of them, the fixed-width integers that
 `struct` and `int.to_bytes` write, and the Latin-1 text encoding.
 */
module Bytes {
  import opened Wrappers

  type byte = x: int | 0 <= x < 256
  type bytes = seq<byte>

  const U32_LIMIT: int := 0x1_0000_0000

  // ----- Slices: Python clamps both ends of s[i:j] to the length of s -----

  /** s[:n] */
  function Take<T>(s: seq<T>, n: nat): seq<T> {
    if n <= |s| then s[..n] else s
  }

  /** s[n:] */
  function Drop<T>(s: seq<T>, n: nat): seq<T> {
    if n <= |s| then s[n..] else []
  }

  /** s[at : at + n] */
  function Slice<T>(s: seq<T>, at: nat, n: nat): seq<T> {
    Take(Drop(s, at), n)
  }

  // ----- Big-endian 32-bit words: struct.pack(">I", n) and unpack_from -----

  function PackU32(n: int): (r: bytes)
    requires 0 <= n < U32_LIMIT
    ensures |r| == 4
  {
    [n / 0x100_0000, n / 0x1_0000 % 256, n / 256 % 256, n % 256]
  }

  /** The word at the front of s. */
  function U32(s: bytes): (n: nat)
    requires |s| >= 4
    ensures n < U32_LIMIT
  {
    s[0] as int * 0x100_0000 + s[1] as int * 0x1_0000 + s[2] as int * 256 + s[3] as int
  }

  lemma UnpackPack(n: int, tail: bytes)
    requires 0 <= n < U32_LIMIT
    ensures U32(PackU32(n) + tail) == n
  {
    var p := PackU32(n);
    assert (p + tail)[..4] == p;
    assert n == n / 0x100_0000 * 0x100_0000 + n / 0x1_0000 % 256 * 0x1_0000 + n / 256 % 256 * 256 + n % 256;
  }

  lemma PackUnpack(s: bytes)
    requires |s| >= 4
    ensures PackU32(U32(s)) == s[..4]
  {
    var n: int, a: int, b: int, c: int, d: int := U32(s), s[0], s[1], s[2], s[3];
    assert n / 256 == a * 0x1_0000 + b * 256 + c && n % 256 == d;
    assert n / 0x1_0000 == a * 256 + b;
    assert n / 0x100_0000 == a;
  }

  // ----- A length-prefixed chunk: the unit of every nested record -----

  function Chunk(x: bytes): (r: bytes)
    requires |x| < U32_LIMIT
    ensures |r| == 4 + |x|
  {
    PackU32(|x|) + x
  }

  /**
   Reads one chunk off the front: `unpack_from` raises when fewer than four
   bytes are left, but a length that runs past the end is only clamped.
   */
  function ReadChunk(rest: bytes): (r: Result<(bytes, bytes)>)
    ensures r.Ok? <==> |rest| >= 4
    ensures r.Ok? ==> |r.value.1| + 4 <= |rest| && rest == rest[..4] + r.value.0 + r.value.1
  {
    if |rest| < 4 then Err(StructError)
    else
      var n := U32(rest);
      Ok((Take(rest[4..], n), Drop(rest[4..], n)))
  }

  lemma ReadChunkOf(x: bytes, tail: bytes)
    requires |x| < U32_LIMIT
    ensures ReadChunk(Chunk(x) + tail) == Ok((x, tail))
  {
    UnpackPack(|x|, x + tail);
    var whole := Chunk(x) + tail;
    assert whole == PackU32(|x|) + (x + tail);
    assert whole[4..] == x + tail;
  }

  // ----- Concatenation: b"".join -----

  function Join(parts: seq<bytes>): bytes {
    if parts == [] then [] else parts[0] + Join(parts[1..])
  }

  lemma JoinCons(first: bytes, parts: seq<bytes>)
    ensures Join([first] + parts) == first + Join(parts)
  {
    assert ([first] + parts)[1..] == parts;
  }

  lemma {:induction false} JoinSnoc(parts: seq<bytes>, last: bytes)
    ensures Join(parts + [last]) == Join(parts) + last
  {
    if parts == [] {
    } else {
      JoinSnoc(parts[1..], last);
      assert (parts + [last])[1..] == parts[1..] + [last];
    }
  }

  // ----- Parts under a table of lengths -----

  predicate Fit(parts: seq<bytes>) {
    forall i :: 0 <= i < |parts| ==> |parts[i]| < U32_LIMIT
  }

  /** The 32-bit lengths of the parts, one after the other. */
  function Lengths(parts: seq<bytes>): (r: bytes)
    requires Fit(parts)
    ensures |r| == 4 * |parts|
  {
    if parts == [] then [] else Lengths(parts[..|parts| - 1]) + PackU32(|parts[|parts| - 1]|)
  }

  /** The first n words of a table. */
  function Words(table: bytes, n: nat): (r: seq<nat>)
    requires 4 * n <= |table|
    ensures |r| == n
  {
    seq(n, i requires 0 <= i < n => U32(table[4 * i..]))
  }

  /** Successive slices of these lengths; one that runs past the end is clamped. */
  function Cut(data: bytes, lengths: seq<nat>): (parts: seq<bytes>)
    ensures |parts| == |lengths|
    decreases |lengths|
  {
    if lengths == [] then [] else [Take(data, lengths[0])] + Cut(Drop(data, lengths[0]), lengths[1..])
  }

  function Sizes(parts: seq<bytes>): seq<nat> {
    seq(|parts|, i requires 0 <= i < |parts| => |parts[i]|)
  }

  lemma {:induction false} WordsOfLengths(parts: seq<bytes>, tail: bytes)
    requires Fit(parts)
    ensures Words(Lengths(parts) + tail, |parts|) == Sizes(parts)
  {
    if parts == [] {
    } else {
      var init, last := parts[..|parts| - 1], parts[|parts| - 1];
      var after := PackU32(|last|) + tail;
      WordsOfLengths(init, after);
      var all := Lengths(parts) + tail;
      assert all == Lengths(init) + after;
      UnpackPack(|last|, tail);
      assert all[4 * |init|..] == after;
      var words, before := Words(all, |parts|), Words(Lengths(init) + after, |init|);
      assert forall i :: 0 <= i < |init| ==> words[i] == before[i];
    }
  }

  lemma {:induction false} CutJoin(parts: seq<bytes>, tail: bytes)
    ensures Cut(Join(parts) + tail, Sizes(parts)) == parts
  {
    if parts == [] {
    } else {
      CutJoin(parts[1..], tail);
      assert Join(parts) + tail == parts[0] + (Join(parts[1..]) + tail);
      assert Sizes(parts)[1..] == Sizes(parts[1..]);
    }
  }

  // ----- Nonces: n.to_bytes(12, "little") -----

  const NONCE_LIMIT: int := 0x1_0000_0000_0000_0000_0000_0000

  function Pow256(n: nat): (r: nat)
    ensures r > 0
  {
    if n == 0 then 1 else 256 * Pow256(n - 1)
  }

  function LittleEndian(n: nat, width: nat): (r: bytes)
    ensures |r| == width
  {
    if width == 0 then [] else [n % 256] + LittleEndian(n / 256, width - 1)
  }

  function NonceBytes(n: nat): (r: Result<bytes>)
    ensures r.Ok? <==> n < NONCE_LIMIT
    ensures r.Ok? ==> |r.value| == 12
  {
    if n < NONCE_LIMIT then Ok(LittleEndian(n, 12)) else Err(OverflowFault)
  }

  lemma {:induction false} LittleEndianInjective(a: nat, b: nat, width: nat)
    requires a < Pow256(width) && b < Pow256(width)
    requires LittleEndian(a, width) == LittleEndian(b, width)
    ensures a == b
  {
    if width == 0 {
    } else {
      assert LittleEndian(a, width)[0] == LittleEndian(b, width)[0];
      assert LittleEndian(a, width)[1..] == LittleEndian(b, width)[1..];
      LittleEndianInjective(a / 256, b / 256, width - 1);
    }
  }

  lemma NonceLimit()
    ensures Pow256(12) == NONCE_LIMIT
  {
    assert Pow256(3) == 0x100_0000;
    assert Pow256(6) == 0x1_0000_0000_0000;
    assert Pow256(9) == 0x100_0000_0000_0000_0000;
  }

  /** Different counters never share a 12-byte nonce. */
  lemma NonceBytesInjective(a: nat, b: nat)
    requires a < NONCE_LIMIT && b < NONCE_LIMIT && a != b
    ensures NonceBytes(a) != NonceBytes(b)
  {
    NonceLimit();
    if LittleEndian(a, 12) == LittleEndian(b, 12) {
      LittleEndianInjective(a, b, 12);
    }
  }

  // ----- Latin-1 -----

  predicate Latin1(s: string) {
    forall i :: 0 <= i < |s| ==> s[i] as int < 256
  }

  /** s.encode("latin1") */
  function Encode(s: string): (r: bytes)
    requires Latin1(s)
    ensures |r| == |s|
  {
    seq(|s|, i requires 0 <= i < |s| => s[i] as int)
  }

  /** b.decode("latin1"), which accepts every byte */
  function Decode(b: bytes): (r: string)
    ensures |r| == |b| && Latin1(r)
  {
    seq(|b|, i requires 0 <= i < |b| => b[i] as char)
  }

  lemma DecodeEncode(s: string)
    requires Latin1(s)
    ensures Decode(Encode(s)) == s
  {
  }
}
