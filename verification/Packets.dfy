/** Packet layer of utils.py: framing header, compression, checksum, footer and AEAD. */
module Packets {
  import opened Wrappers
  import opened Bytes

  const HEADER: bytes := [0x91, 0x93]
  const FOOTER: bytes := [0x80, 0x38]
  const FRAME_HEADER_SIZE := 6
  const AEAD_TAG := 16
  const MAX_PAYLOAD: nat := 0xFFFF_FFFF

  const ACK: bytes := [0, 69, 82, 82, 0]

  /** Server.ERR_DISPATCH[code] */
  function ErrorReply(code: byte): bytes {
    [0, 69, 82, 82, code]
  }

  // ----- The libraries, known only through their laws -----

  type u32 = x: int | 0 <= x < U32_LIMIT

  /** ChaCha20-Poly1305 under one session key (nonce, text), zstd and crc32. */
  datatype Libs = Libs(
    encrypt: (bytes, bytes) -> bytes,
    decrypt: (bytes, bytes) -> Option<bytes>,
    compress: bytes -> bytes,
    decompress: (bytes, nat) -> Option<bytes>,
    crc: bytes -> u32)

  ghost predicate Lawful(l: Libs) {
    && (forall n, p :: l.decrypt(n, l.encrypt(n, p)) == Some(p))
    && (forall n, p :: |l.encrypt(n, p)| == |p| + AEAD_TAG)
    && (forall d: bytes, max: nat :: |d| <= max ==> l.decompress(l.compress(d), max) == Some(d))
    && (forall d :: l.compress(d) != [])
  }

  /** The laws can be met, so nothing below is vacuous. */
  lemma LawfulLibsExist()
    ensures exists l :: Lawful(l)
  {
    var tag: bytes := seq(AEAD_TAG, i => 0);
    var l := Libs(
      (n: bytes, p: bytes) => p + tag,
      (n: bytes, c: bytes) => if |c| < AEAD_TAG then None else Some(c[..|c| - AEAD_TAG]),
      (d: bytes) => [0] + d,
      (d: bytes, max: nat) => if |d| == 0 then None else Some(d[1..]),
      (d: bytes) => 0);
    forall n: bytes, p: bytes
      ensures l.decrypt(n, l.encrypt(n, p)) == Some(p)
    {
      assert (p + tag)[..|p|] == p;
    }
    forall d: bytes, max: nat
      ensures l.decompress(l.compress(d), max) == Some(d)
    {
      assert ([0] + d)[1..] == d;
    }
    assert Lawful(l);
  }

  // ----- extract_packet_frame -----

  datatype Extraction =
    | Incomplete                           // (None, buffer, None)
    | Frame(frame: bytes, rest: bytes)     // (frame, rest, None)
    | BadHeader                            // (None, b"", 2)

  function ExtractPacketFrame(buffer: bytes): (r: Extraction)
    ensures r.Frame? ==> r.frame + r.rest == buffer && |r.frame| >= FRAME_HEADER_SIZE
  {
    if |buffer| < FRAME_HEADER_SIZE then Incomplete
    else if buffer[..2] != HEADER then BadHeader
    else
      var frameSize := FRAME_HEADER_SIZE + U32(buffer[2..]);
      if |buffer| < frameSize then Incomplete
      else Frame(buffer[..frameSize], buffer[frameSize..])
  }

  /** More input never changes a verdict already reached: it only extends the remainder. */
  lemma ExtractionPrefixStable(buffer: bytes, more: bytes)
    ensures ExtractPacketFrame(buffer).Frame? ==>
              ExtractPacketFrame(buffer + more) ==
              Frame(ExtractPacketFrame(buffer).frame, ExtractPacketFrame(buffer).rest + more)
    ensures ExtractPacketFrame(buffer).BadHeader? ==> ExtractPacketFrame(buffer + more).BadHeader?
  {
    if |buffer| >= FRAME_HEADER_SIZE {
      var all := buffer + more;
      assert all[..2] == buffer[..2];
      assert U32(all[2..]) == U32(buffer[2..]);
      var size := FRAME_HEADER_SIZE + U32(buffer[2..]);
      if size <= |buffer| {
        assert all[..size] == buffer[..size];
        assert all[size..] == buffer[size..] + more;
      }
    }
  }

  // ----- construct_packet -----

  /** HEADER, the ciphertext length, the ciphertext */
  function Packet(ciphertext: bytes): (p: bytes)
    requires |ciphertext| < U32_LIMIT
    ensures |p| == FRAME_HEADER_SIZE + |ciphertext|
  {
    HEADER + PackU32(|ciphertext|) + ciphertext
  }

  predicate UsesCompression(l: Libs, data: bytes) {
    |l.compress(data)| < |data|
  }

  function Plaintext(flags: byte, body: bytes, checksum: u32): (p: bytes)
    ensures |p| == |body| + 7
  {
    [flags] + body + PackU32(checksum) + FOOTER
  }

  function PlaintextOf(l: Libs, data: bytes): bytes {
    if UsesCompression(l, data) then Plaintext(1, l.compress(data), l.crc(data))
    else Plaintext(0, data, l.crc(data))
  }

  function ConstructPacket(l: Libs, data: bytes, nonce: nat): Result<bytes> {
    if data == [] then Err(RuntimeFault)
    else
      var n :- NonceBytes(nonce);
      var ciphertext := l.encrypt(n, PlaintextOf(l, data));
      if |ciphertext| >= U32_LIMIT then Err(StructError)
      else Ok(Packet(ciphertext))
  }

  /** Exactly when a payload can be sent under a nonce. */
  lemma ConstructSucceedsIff(l: Libs, data: bytes, nonce: nat)
    requires Lawful(l)
    ensures ConstructPacket(l, data, nonce).Ok? <==>
              data != [] && nonce < NONCE_LIMIT &&
              (if UsesCompression(l, data) then |l.compress(data)| else |data|) + 7 + AEAD_TAG < U32_LIMIT
  {
  }

  // ----- verify_packet -----

  datatype Verdict =
    | Payload(data: bytes, remainder: Option<bytes>)
    | Rejected(code: byte)
    | Raised(fault: Fault)

  /** x or None, for a byte string */
  function OrNone(x: bytes): Option<bytes> {
    if x == [] then None else Some(x)
  }

  function VerifyPacket(l: Libs, packet: bytes, nonce: nat): Verdict {
    if nonce >= NONCE_LIMIT then Raised(OverflowFault)
    else if |packet| < 6 then Rejected(2)
    else if packet[..2] != HEADER then Rejected(2)
    else
      var size := U32(packet[2..6]);
      if |packet| < 6 + size then Rejected(2)
      else
        var remainder := OrNone(packet[6 + size..]);
        match l.decrypt(LittleEndian(nonce, 12), packet[6..6 + size])
        case None => Rejected(3)
        case Some(plaintext) => VerifyPlaintext(l, plaintext, remainder)
  }

  function VerifyPlaintext(l: Libs, plaintext: bytes, remainder: Option<bytes>): Verdict {
    var n := |plaintext|;
    if n < 8 then Rejected(2)
    else if plaintext[n - 2..] != FOOTER then Rejected(2)
    else
      var checksum := plaintext[n - 6..n - 2];
      var body := plaintext[1..n - 6];
      if body == [] then Rejected(2)
      else
        var unpacked := if plaintext[0] % 2 == 1 then l.decompress(body, MAX_PAYLOAD) else Some(body);
        match unpacked
        case None => Rejected(2)
        case Some(payload) =>
          if PackU32(l.crc(payload)) != checksum then Rejected(3) else Payload(payload, remainder)
  }

  // ----- What an accepted packet looks like, said by printing instead of slicing -----

  /** The body a flag byte announces carries this payload. */
  ghost predicate Carries(l: Libs, flags: byte, body: bytes, data: bytes) {
    body != [] && (if flags % 2 == 1 then l.decompress(body, MAX_PAYLOAD) else Some(body)) == Some(data)
  }

  ghost predicate PlaintextCarries(l: Libs, plaintext: bytes, data: bytes) {
    exists flags: byte, body: bytes ::
      plaintext == Plaintext(flags, body, l.crc(data)) && Carries(l, flags, body, data)
  }

  ghost predicate PacketCarries(l: Libs, packet: bytes, nonce: nat, data: bytes, remainder: Option<bytes>) {
    exists ciphertext: bytes, tail: bytes, plaintext: bytes | |ciphertext| < U32_LIMIT ::
      && packet == Packet(ciphertext) + tail
      && remainder == OrNone(tail)
      && l.decrypt(LittleEndian(nonce, 12), ciphertext) == Some(plaintext)
      && PlaintextCarries(l, plaintext, data)
  }

  lemma VerifyPlaintextIff(l: Libs, plaintext: bytes, data: bytes, remainder: Option<bytes>)
    ensures VerifyPlaintext(l, plaintext, remainder) == Payload(data, remainder) <==> PlaintextCarries(l, plaintext, data)
  {
    var n := |plaintext|;
    if VerifyPlaintext(l, plaintext, remainder) == Payload(data, remainder) {
      var flags, body := plaintext[0], plaintext[1..n - 6];
      assert plaintext == [flags] + body + plaintext[n - 6..n - 2] + plaintext[n - 2..];
      assert plaintext == Plaintext(flags, body, l.crc(data)) && Carries(l, flags, body, data);
    }
    if PlaintextCarries(l, plaintext, data) {
      var flags: byte, body: bytes :|
        plaintext == Plaintext(flags, body, l.crc(data)) && Carries(l, flags, body, data);
      assert plaintext[1..n - 6] == body;
      assert plaintext[n - 6..n - 2] == PackU32(l.crc(data));
      assert plaintext[n - 2..] == FOOTER;
    }
  }

  lemma PacketParts(ciphertext: bytes, tail: bytes)
    requires |ciphertext| < U32_LIMIT
    ensures var packet := Packet(ciphertext) + tail; var size := |ciphertext|;
            && packet[..2] == HEADER
            && U32(packet[2..6]) == size
            && U32(packet[2..]) == size
            && packet[6..6 + size] == ciphertext
            && packet[6 + size..] == tail
            && packet[..6 + size] == Packet(ciphertext)
  {
    var packet := Packet(ciphertext) + tail;
    assert packet[..2] == HEADER;
    assert packet[2..6] == PackU32(|ciphertext|) + [];
    UnpackPack(|ciphertext|, []);
    assert packet[6..6 + |ciphertext|] == ciphertext;
    assert packet[6 + |ciphertext|..] == tail;
  }

  /**
   verify_packet accepts a packet exactly when it is a well-formed packet whose
   decrypted text carries the payload under its own checksum and the footer.
   */
  lemma VerifyAcceptsIff(l: Libs, packet: bytes, nonce: nat, data: bytes, remainder: Option<bytes>)
    requires nonce < NONCE_LIMIT
    ensures VerifyPacket(l, packet, nonce) == Payload(data, remainder) <==>
              PacketCarries(l, packet, nonce, data, remainder)
  {
    if VerifyPacket(l, packet, nonce) == Payload(data, remainder) {
      var size := U32(packet[2..6]);
      var ciphertext, tail := packet[6..6 + size], packet[6 + size..];
      var plaintext := l.decrypt(LittleEndian(nonce, 12), ciphertext).value;
      PackUnpack(packet[2..6]);
      assert packet == packet[..2] + packet[2..6] + ciphertext + tail;
      assert packet == Packet(ciphertext) + tail;
      VerifyPlaintextIff(l, plaintext, data, remainder);
    }
    if PacketCarries(l, packet, nonce, data, remainder) {
      var ciphertext: bytes, tail: bytes, plaintext: bytes :| |ciphertext| < U32_LIMIT
        && packet == Packet(ciphertext) + tail
        && remainder == OrNone(tail)
        && l.decrypt(LittleEndian(nonce, 12), ciphertext) == Some(plaintext)
        && PlaintextCarries(l, plaintext, data);
      PacketParts(ciphertext, tail);
      VerifyPlaintextIff(l, plaintext, data, remainder);
    }
  }

  /** The receiver's limit on decompressed payloads. */
  predicate Deliverable(l: Libs, data: bytes) {
    UsesCompression(l, data) ==> |data| <= MAX_PAYLOAD
  }

  /** Round trip: what is sent under a nonce is what is verified under it, with the bytes after it. */
  lemma PacketRoundTrip(l: Libs, data: bytes, nonce: nat, tail: bytes)
    requires Lawful(l) && Deliverable(l, data)
    requires ConstructPacket(l, data, nonce).Ok?
    ensures VerifyPacket(l, ConstructPacket(l, data, nonce).value + tail, nonce) == Payload(data, OrNone(tail))
  {
    var plaintext := PlaintextOf(l, data);
    var ciphertext := l.encrypt(LittleEndian(nonce, 12), plaintext);
    var compressed := UsesCompression(l, data);
    var flags: byte, body := if compressed then 1 else 0, if compressed then l.compress(data) else data;
    assert plaintext == Plaintext(flags, body, l.crc(data)) && Carries(l, flags, body, data);
    assert PlaintextCarries(l, plaintext, data);
    assert PacketCarries(l, Packet(ciphertext) + tail, nonce, data, OrNone(tail));
    VerifyAcceptsIff(l, Packet(ciphertext) + tail, nonce, data, OrNone(tail));
  }

  /** The deframer cuts a constructed packet out of any stream that starts with it. */
  lemma ExtractConstructed(l: Libs, data: bytes, nonce: nat, tail: bytes)
    requires ConstructPacket(l, data, nonce).Ok?
    ensures var p := ConstructPacket(l, data, nonce).value;
            ExtractPacketFrame(p + tail) == Frame(p, tail)
  {
    PacketParts(l.encrypt(LittleEndian(nonce, 12), PlaintextOf(l, data)), tail);
  }
}
