/**
 The read loops of the server and the client. A socket is the list of chunks
 its successive `sock_recv` calls return; an empty chunk is the end of stream.
 */
module Deframing {
  import opened Wrappers
  import opened Bytes
  import opened Packets

  /** All bytes received before the end of stream. */
  function Received(chunks: seq<bytes>): bytes {
    if chunks == [] || chunks[0] == [] then [] else chunks[0] + Received(chunks[1..])
  }

  /** What a read loop has cut out of a stream so far. */
  datatype Framed = Framed(frames: seq<bytes>, rest: bytes, broken: bool)

  function Then(frames: seq<bytes>, after: Framed): Framed {
    Framed(frames + after.frames, after.rest, after.broken)
  }

  /** The reference: frame a whole stream at once. A bad header discards the rest. */
  function Deframe(stream: bytes): Framed
    decreases |stream|
  {
    match ExtractPacketFrame(stream)
    case Incomplete => Framed([], stream, false)
    case BadHeader => Framed([], [], true)
    case Frame(frame, rest) => Then([frame], Deframe(rest))
  }

  /** Framing one more chunk, starting from what an earlier prefix left over. */
  function Continue(sofar: Framed, chunk: bytes): Framed {
    if sofar.broken then sofar else Then(sofar.frames, Deframe(sofar.rest + chunk))
  }

  function DeframeChunks(chunks: seq<bytes>): Framed {
    if chunks == [] then Framed([], [], false)
    else Continue(DeframeChunks(chunks[..|chunks| - 1]), chunks[|chunks| - 1])
  }

  lemma ThenThen(x: seq<bytes>, y: seq<bytes>, z: Framed)
    ensures Then(x, Then(y, z)) == Then(x + y, z)
  {
    assert x + (y + z.frames) == x + y + z.frames;
  }

  /** Cutting a stream in two and framing the parts in turn changes nothing. */
  lemma {:induction false} DeframeAppend(a: bytes, b: bytes)
    ensures Deframe(a + b) == Continue(Deframe(a), b)
    decreases |a|
  {
    hide ExtractPacketFrame;
    ExtractionPrefixStable(a, b);
    match ExtractPacketFrame(a)
    case Incomplete =>
    case BadHeader =>
    case Frame(frame, rest) =>
      DeframeAppend(rest, b);
      var mid := Deframe(rest);
      assert Deframe(a) == Then([frame], mid);
      ThenThen([frame], mid.frames, Deframe(mid.rest + b));
  }

  /** For every split into chunks, the frames, leftover and verdict are those of the whole stream. */
  lemma {:induction false} ChunkIndependent(chunks: seq<bytes>)
    ensures DeframeChunks(chunks) == Deframe(Join(chunks))
  {
    if chunks == [] {
    } else {
      var init, last := chunks[..|chunks| - 1], chunks[|chunks| - 1];
      assert chunks == init + [last];
      ChunkIndependent(init);
      JoinSnoc(init, last);
      DeframeAppend(Join(init), last);
    }
  }

  /** No byte is lost or invented: frames and leftover re-concatenate to the stream. */
  lemma {:induction false} DeframeReassembles(stream: bytes)
    ensures !Deframe(stream).broken ==> Join(Deframe(stream).frames) + Deframe(stream).rest == stream
    decreases |stream|
  {
    match ExtractPacketFrame(stream)
    case Incomplete =>
    case BadHeader =>
    case Frame(frame, rest) =>
      DeframeReassembles(rest);
      var tail := Deframe(rest);
      JoinCons(frame, tail.frames);
      assert frame + Join(tail.frames) + tail.rest == frame + (Join(tail.frames) + tail.rest);
  }

  lemma {:induction false} ReceivedTail(chunks: seq<bytes>, i: nat)
    requires i < |chunks| && chunks[i] != []
    ensures Received(chunks[i..]) == chunks[i] + Received(chunks[i + 1..])
  {
    assert chunks[i..][1..] == chunks[i + 1..];
  }

  /**
   The frame loop shared by `handle_client` and `recv_loop`, run until the peer
   stops sending or a header is refused, with every frame it would hand on.
   */
  method ReadFrames(chunks: seq<bytes>) returns (frames: seq<bytes>, rest: bytes, broken: bool)
    ensures Framed(frames, rest, broken) == Deframe(Received(chunks))
    ensures !broken ==> ExtractPacketFrame(rest).Incomplete?
  {
    hide ExtractPacketFrame;
    frames, rest, broken := [], [], false;
    var i := 0;
    assert chunks[0..] == chunks && [] + Received(chunks) == Received(chunks);
    while true
      invariant 0 <= i <= |chunks|
      invariant Deframe(Received(chunks)) == Then(frames, Deframe(rest + Received(chunks[i..])))
      decreases |rest| + |Received(chunks[i..])|
    {
      ghost var before := rest + Received(chunks[i..]);
      var frame := None;
      while frame.None?
        invariant 0 <= i <= |chunks|
        invariant Deframe(Received(chunks)) == Then(frames, Deframe(before))
        invariant frame.None? ==> before == rest + Received(chunks[i..])
        invariant frame.Some? ==> ExtractPacketFrame(before) == Frame(frame.value, rest + Received(chunks[i..]))
        decreases frame.None?, |chunks| - i
      {
        ghost var more := Received(chunks[i..]);
        ExtractionPrefixStable(rest, more);
        match ExtractPacketFrame(rest)
        case BadHeader =>
          rest, broken := [], true;
          return;
        case Frame(f, r) =>
          frame, rest := Some(f), r;
        case Incomplete =>
          if i == |chunks| || chunks[i] == [] {
            assert more == [] && rest + more == rest;
            return;
          }
          ReceivedTail(chunks, i);
          assert rest + (chunks[i] + Received(chunks[i + 1..])) == rest + chunks[i] + Received(chunks[i + 1..]);
          rest, i := rest + chunks[i], i + 1;
      }
      frames := frames + [frame.value];
    }
  }

  /**
   `read_packet_frame`: the first frame, after which the bytes of the last chunk
   that lie beyond it (`dropped`) are lost. It raises when the stream ends first
   or starts with a bad header.
   */
  method ReadPacketFrame(chunks: seq<bytes>) returns (r: Result<bytes>, used: nat, dropped: bytes)
    ensures used <= |chunks|
    ensures r.Ok? <==> ExtractPacketFrame(Received(chunks)).Frame?
    ensures r.Ok? ==> r.value == ExtractPacketFrame(Received(chunks)).frame
    ensures r.Ok? ==> Received(chunks) == r.value + dropped + Received(chunks[used..])
    ensures r.Err? ==> r.fault == RuntimeFault
  {
    hide ExtractPacketFrame;
    var buffer: bytes := [];
    used, dropped := 0, [];
    assert chunks[0..] == chunks;
    while true
      invariant used <= |chunks|
      invariant Received(chunks) == buffer + Received(chunks[used..])
      decreases |chunks| - used
    {
      ghost var more := Received(chunks[used..]);
      ExtractionPrefixStable(buffer, more);
      match ExtractPacketFrame(buffer)
      case BadHeader =>
        return Err(RuntimeFault), used, [];
      case Frame(frame, rest) =>
        return Ok(frame), used, rest;
      case Incomplete =>
        if used == |chunks| || chunks[used] == [] {
          assert more == [] && buffer + more == buffer;
          return Err(RuntimeFault), used, [];
        }
        ReceivedTail(chunks, used);
        assert buffer + (chunks[used] + Received(chunks[used + 1..])) == buffer + chunks[used] + Received(chunks[used + 1..]);
        buffer, used := buffer + chunks[used], used + 1;
    }
  }

  /**
   `read_exact` on a stream whose i-th read grants at most `grant(i) + 1` bytes:
   it never takes more than it was asked for, however the stream is chunked.
   */
  method ReadExact(stream: bytes, size: nat, grant: nat -> nat) returns (buffer: bytes)
    ensures buffer == Take(stream, size)
  {
    buffer := [];
    var i := 0;
    while |buffer| < size
      invariant |buffer| <= size && |buffer| <= |stream| && buffer == stream[..|buffer|]
      decreases size - |buffer|
    {
      var want := if grant(i) + 1 < size - |buffer| then grant(i) + 1 else size - |buffer|;
      var chunk := Slice(stream, |buffer|, want);
      if chunk == [] {
        break;
      }
      assert stream[..|buffer| + |chunk|] == stream[..|buffer|] + chunk;
      buffer, i := buffer + chunk, i + 1;
    }
  }
}
