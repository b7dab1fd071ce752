/**
 One connected client and its handler, down to the bytes on the wire: packets
 under counted nonces, delivered in arbitrary chunks, served one at a time.
 */
module Sessions {
  import opened Wrappers
  import opened Bytes
  import opened Dicts
  import opened Packets
  import opened Tables
  import opened Wire
  import opened Commands

  /** One end of the connection: `sent` and `got` are payloads, `buffer` is what its read loop holds. */
  datatype Peer = Peer(tx: nat, rx: nat, sent: seq<bytes>, got: seq<bytes>, buffer: bytes, alive: bool)

  /** `served` pairs each command with the tables it met, the id drawn for it and its reply. */
  datatype Exchange = Exchange(tables: State, id: bytes, request: bytes, reply: bytes)

  datatype Session = Session(
    client: Peer,
    server: Peer,
    up: bytes,                    // sent by the client, not yet received
    down: bytes,                  // sent by the server, not yet received
    tables: State,
    busy: Option<bytes>,          // a command taken and not yet answered
    served: seq<Exchange>)

  /** Who is served, and how a LIST reply is rendered. */
  datatype Setting = Setting(l: Libs, uuid: string, keepDead: bool, json: OrderedDict<bytes, bytes> -> bytes)

  // ----- What one end does -----

  function Transmit(l: Libs, p: Peer, payload: bytes): (Peer, bytes)
    requires ConstructPacket(l, payload, p.tx).Ok?
  {
    (p.(tx := p.tx + 1, sent := p.sent + [payload]), ConstructPacket(l, payload, p.tx).value)
  }

  /** The client's read loop on the next frame in its buffer. */
  function ClientReads(l: Libs, p: Peer): Peer
    requires ExtractPacketFrame(p.buffer).Frame?
  {
    var Frame(frame, rest) := ExtractPacketFrame(p.buffer);
    match VerifyPacket(l, frame, p.rx)
    case Payload(data, _) =>
      if Fatal(data) then p.(rx := p.rx + 1, buffer := rest, alive := false)
      else p.(rx := p.rx + 1, buffer := rest, got := p.got + [data])
    case _ => p.(buffer := rest, alive := false)
  }

  /** The handler's read loop on the next frame in its buffer. */
  function ServerReads(l: Libs, p: Peer): Peer
    requires ExtractPacketFrame(p.buffer).Frame?
  {
    var Frame(frame, rest) := ExtractPacketFrame(p.buffer);
    match VerifyPacket(l, frame, p.rx)
    case Payload(data, _) => p.(rx := p.rx + 1, buffer := rest, got := p.got + [data])
    case Rejected(_) => p.(rx := p.rx + 1, buffer := rest, alive := false)
    case Raised(_) => p.(buffer := rest, alive := false)
  }

  // ----- What can happen -----

  datatype Happening =
    | Ask(payload: bytes)           // Client.<method>: send, then wait for the reply
    | CarryUp(n: nat)               // n more bytes reach the server's read loop
    | Fetch                         // the handler takes the next frame
    | Reply(id: bytes)              // and serves it
    | CarryDown(n: nat)
    | Read                          // the client takes the next frame
    | Meanwhile(tables: State)      // other handlers run
    | ServerDies
    | ClientDies

  function Rendered(w: Setting, out: Outcome): Option<bytes> {
    match out
    case Reply(payload) => Some(payload)
    case Listing(contents) => Some(w.json(contents))
    case _ => None
  }

  /** The reply a command gets from these tables, if it gets one. */
  function ReplyTo(w: Setting, tables: State, request: bytes, id: bytes): Option<bytes> {
    if request == [] then None
    else Rendered(w, Serve(tables, w.uuid, ParseCommand(request), id, w.keepDead).1)
  }

  ghost predicate Possible(w: Setting, s: Session, e: Happening) {
    match e
    case Ask(payload) =>
      && s.client.alive && |s.client.sent| == |s.client.got|
      && ConstructPacket(w.l, payload, s.client.tx).Ok? && Deliverable(w.l, payload)
    case CarryUp(n) => n <= |s.up|
    case Fetch => s.server.alive && s.busy.None? && ExtractPacketFrame(s.server.buffer).Frame?
    case Reply(id) =>
      && s.server.alive && s.busy.Some?
      && var reply := ReplyTo(w, s.tables, s.busy.value, id);
         reply.Some? && ConstructPacket(w.l, reply.value, s.server.tx).Ok? && Deliverable(w.l, reply.value)
    case CarryDown(n) => n <= |s.down|
    case Read => s.client.alive && ExtractPacketFrame(s.client.buffer).Frame?
    case _ => true
  }

  ghost function After(w: Setting, s: Session, e: Happening): Session
    requires Possible(w, s, e)
  {
    match e
    case Ask(payload) =>
      var (client, packet) := Transmit(w.l, s.client, payload);
      s.(client := client, up := s.up + packet)
    case CarryUp(n) => s.(server := s.server.(buffer := s.server.buffer + s.up[..n]), up := s.up[n..])
    case Fetch =>
      var server := ServerReads(w.l, s.server);
      s.(server := server, busy := if server.alive then Some(server.got[|server.got| - 1]) else None)
    case Reply(id) =>
      var reply := ReplyTo(w, s.tables, s.busy.value, id).value;
      var (server, packet) := Transmit(w.l, s.server, reply);
      s.(server := server, down := s.down + packet, busy := None,
         tables := Serve(s.tables, w.uuid, ParseCommand(s.busy.value), id, w.keepDead).0,
         served := s.served + [Exchange(s.tables, id, s.busy.value, reply)])
    case CarryDown(n) => s.(client := s.client.(buffer := s.client.buffer + s.down[..n]), down := s.down[n..])
    case Read => s.(client := ClientReads(w.l, s.client))
    case Meanwhile(tables) => s.(tables := tables)
    case ServerDies => s.(server := s.server.(alive := false))
    case ClientDies => s.(client := s.client.(alive := false))
  }

  // ----- What always holds -----

  /** The bytes of these payloads, packed one after the other under successive nonces. */
  ghost function Stream(l: Libs, payloads: seq<bytes>, nonce: nat): bytes {
    if payloads == [] then []
    else PacketOf(l, payloads[0], nonce) + Stream(l, payloads[1..], nonce + 1)
  }

  ghost function PacketOf(l: Libs, payload: bytes, nonce: nat): bytes {
    match ConstructPacket(l, payload, nonce)
    case Ok(packet) => packet
    case Err(_) => []
  }

  ghost predicate Packable(l: Libs, payload: bytes, nonce: nat) {
    ConstructPacket(l, payload, nonce).Ok? && Deliverable(l, payload)
  }

  const FIRST: nat := 2    // both counters after the handshake

  /** Everything between one sender and the receiver's read loop. */
  ghost predicate Carries(l: Libs, sent: seq<bytes>, got: seq<bytes>, buffer: bytes, wire: bytes) {
    && got <= sent
    && (forall i :: 0 <= i < |sent| ==> Packable(l, sent[i], FIRST + i))
    && buffer + wire == Stream(l, sent[|got|..], FIRST + |got|)
  }

  ghost predicate Inv(w: Setting, s: Session) {
    && s.client.tx == FIRST + |s.client.sent| && s.server.tx == FIRST + |s.server.sent|
    && (s.server.alive ==> s.server.rx == FIRST + |s.server.got|)
    && (s.client.alive ==> s.client.rx == FIRST + |s.client.got|)
    && (if s.server.alive then Carries(w.l, s.client.sent, s.server.got, s.server.buffer, s.up) else s.server.got <= s.client.sent)
    && (if s.client.alive then Carries(w.l, s.server.sent, s.client.got, s.client.buffer, s.down) else s.client.got <= s.server.sent)
    && (forall i :: 0 <= i < |s.client.sent| ==> Packable(w.l, s.client.sent[i], FIRST + i))
    && (forall i :: 0 <= i < |s.server.sent| ==> Packable(w.l, s.server.sent[i], FIRST + i))
    && |s.client.sent| <= |s.client.got| + 1
    && Paired(w, s)
  }

  /** The i-th reply was computed from the i-th request. */
  ghost predicate Paired(w: Setting, s: Session) {
    && |s.served| == |s.server.sent|
    && |s.server.got| == |s.server.sent| + (if s.busy.Some? then 1 else 0)
    && (s.busy.Some? ==> s.server.got[|s.server.sent|] == s.busy.value)
    && forall i :: 0 <= i < |s.served| ==>
         && s.served[i].request == s.server.got[i]
         && s.served[i].reply == s.server.sent[i]
         && ReplyTo(w, s.served[i].tables, s.served[i].request, s.served[i].id) == Some(s.served[i].reply)
  }

  // ----- The bytes in flight -----

  lemma {:induction false} StreamSnoc(l: Libs, payloads: seq<bytes>, last: bytes, nonce: nat)
    ensures Stream(l, payloads + [last], nonce) == Stream(l, payloads, nonce) + PacketOf(l, last, nonce + |payloads|)
  {
    hide PacketOf;
    if payloads == [] {
      assert [last][1..] == [];
      assert PacketOf(l, last, nonce) + [] == [] + PacketOf(l, last, nonce);
    } else {
      StreamSnoc(l, payloads[1..], last, nonce + 1);
      assert (payloads + [last])[1..] == payloads[1..] + [last];
      assert PacketOf(l, payloads[0], nonce) + (Stream(l, payloads[1..], nonce + 1) + PacketOf(l, last, nonce + |payloads|))
          == Stream(l, payloads, nonce) + PacketOf(l, last, nonce + |payloads|);
    }
  }

  lemma SendCarries(l: Libs, sent: seq<bytes>, got: seq<bytes>, buffer: bytes, wire: bytes, payload: bytes)
    requires Carries(l, sent, got, buffer, wire) && Packable(l, payload, FIRST + |sent|)
    ensures Carries(l, sent + [payload], got, buffer, wire + PacketOf(l, payload, FIRST + |sent|))
  {
    hide PacketOf, Packable, Stream;
    StreamSnoc(l, sent[|got|..], payload, FIRST + |got|);
    assert (sent + [payload])[|got|..] == sent[|got|..] + [payload];
    var packet := PacketOf(l, payload, FIRST + |sent|);
    assert buffer + (wire + packet) == (buffer + wire) + packet;
  }

  lemma ChunkCarries(l: Libs, sent: seq<bytes>, got: seq<bytes>, buffer: bytes, wire: bytes, n: nat)
    requires Carries(l, sent, got, buffer, wire) && n <= |wire|
    ensures Carries(l, sent, got, buffer + wire[..n], wire[n..])
  {
    hide Packable, Stream;
    assert (buffer + wire[..n]) + wire[n..] == buffer + wire;
  }

  /** The next frame is the next payload, verified under the nonce it was packed under, with nothing after it. */
  lemma ReadCarries(l: Libs, sent: seq<bytes>, got: seq<bytes>, buffer: bytes, wire: bytes)
    requires Lawful(l) && Carries(l, sent, got, buffer, wire) && ExtractPacketFrame(buffer).Frame?
    ensures |got| < |sent|
    ensures VerifyPacket(l, ExtractPacketFrame(buffer).frame, FIRST + |got|) == Payload(sent[|got|], None)
    ensures Carries(l, sent, got + [sent[|got|]], ExtractPacketFrame(buffer).rest, wire)
  {
    hide ConstructPacket, VerifyPacket, ExtractPacketFrame, Lawful;
    var Frame(frame, rest) := ExtractPacketFrame(buffer);
    assert |frame| <= |buffer|;
    var payload, nonce := sent[|got|], FIRST + |got|;
    assert Packable(l, payload, nonce);
    var packet, tail := ConstructPacket(l, payload, nonce).value, Stream(l, sent[|got|..][1..], nonce + 1);
    ExtractConstructed(l, payload, nonce, tail);
    ExtractionPrefixStable(buffer, wire);
    assert frame == packet && rest + wire == tail;
    PacketRoundTrip(l, payload, nonce, []);
    assert packet + [] == packet;
    assert sent[|got|..][1..] == sent[|got| + 1..];
  }

  /** The read loop stops with nothing left to read only when everything sent has been read. */
  lemma DrainedCarries(l: Libs, sent: seq<bytes>, got: seq<bytes>, buffer: bytes)
    requires Carries(l, sent, got, buffer, []) && !ExtractPacketFrame(buffer).Frame?
    ensures got == sent
  {
    hide ConstructPacket, ExtractPacketFrame;
    assert buffer + [] == buffer;
    if |got| < |sent| {
      assert Packable(l, sent[|got|], FIRST + |got|);
      ExtractConstructed(l, sent[|got|], FIRST + |got|, Stream(l, sent[|got|..][1..], FIRST + |got| + 1));
    }
  }

  // ----- Each happening keeps it -----

  lemma AskKeeps(w: Setting, s: Session, payload: bytes)
    requires Inv(w, s) && Possible(w, s, Ask(payload))
    ensures Inv(w, After(w, s, Ask(payload)))
  {
    hide Stream, ConstructPacket, Deliverable, ReplyTo;
    if s.server.alive {
      SendCarries(w.l, s.client.sent, s.server.got, s.server.buffer, s.up, payload);
    }
  }

  lemma FetchKeeps(w: Setting, s: Session)
    requires Lawful(w.l) && Inv(w, s) && Possible(w, s, Fetch)
    ensures Inv(w, After(w, s, Fetch)) && After(w, s, Fetch).server.alive
  {
    hide Stream, Packable, ReplyTo, VerifyPacket, ExtractPacketFrame, Lawful;
    ReadCarries(w.l, s.client.sent, s.server.got, s.server.buffer, s.up);
  }

  lemma ReplyKeeps(w: Setting, s: Session, id: bytes)
    requires Inv(w, s) && Possible(w, s, Happening.Reply(id))
    ensures Inv(w, After(w, s, Happening.Reply(id)))
  {
    hide Stream, ConstructPacket, Deliverable, Serve, ParseCommand, Rendered;
    var reply := ReplyTo(w, s.tables, s.busy.value, id).value;
    if s.client.alive {
      SendCarries(w.l, s.server.sent, s.client.got, s.client.buffer, s.down, reply);
    }
  }

  lemma ReadKeeps(w: Setting, s: Session)
    requires Lawful(w.l) && Inv(w, s) && Possible(w, s, Read)
    ensures Inv(w, After(w, s, Read))
  {
    hide Stream, Packable, ReplyTo, VerifyPacket, ExtractPacketFrame, Lawful, Fatal;
    ReadCarries(w.l, s.server.sent, s.client.got, s.client.buffer, s.down);
  }

  lemma ChunkKeeps(w: Setting, s: Session, e: Happening)
    requires Inv(w, s) && Possible(w, s, e) && (e.CarryUp? || e.CarryDown?)
    ensures Inv(w, After(w, s, e))
  {
    hide Stream, Packable, ReplyTo;
    if e.CarryUp? && s.server.alive {
      ChunkCarries(w.l, s.client.sent, s.server.got, s.server.buffer, s.up, e.n);
    }
    if e.CarryDown? && s.client.alive {
      ChunkCarries(w.l, s.server.sent, s.client.got, s.client.buffer, s.down, e.n);
    }
  }

  lemma HappeningKeeps(w: Setting, s: Session, e: Happening)
    requires Lawful(w.l) && Inv(w, s) && Possible(w, s, e)
    ensures Inv(w, After(w, s, e))
  {
    hide Stream, Packable, ReplyTo, Lawful, ExtractPacketFrame, VerifyPacket, ClientReads, ServerReads, Transmit;
    match e
    case Ask(payload) => AskKeeps(w, s, payload);
    case CarryUp(_) => ChunkKeeps(w, s, e);
    case Fetch => FetchKeeps(w, s);
    case Reply(id) => ReplyKeeps(w, s, id);
    case CarryDown(_) => ChunkKeeps(w, s, e);
    case Read => ReadKeeps(w, s);
    case _ =>
  }

  // ----- Whole sessions -----

  const FRESH_PEER: Peer := Peer(FIRST, FIRST, [], [], [], true)

  /** Both ends as the handshake leaves them. */
  function Begin(tables: State): Session {
    Session(FRESH_PEER, FRESH_PEER, [], [], tables, None, [])
  }

  ghost predicate Reaches(w: Setting, tables: State, happenings: seq<Happening>, s: Session) {
    if happenings == [] then s == Begin(tables)
    else
      var init, last := happenings[..|happenings| - 1], happenings[|happenings| - 1];
      exists before :: Reaches(w, tables, init, before) && Possible(w, before, last) && s == After(w, before, last)
  }

  lemma {:induction false} ReachesInv(w: Setting, tables: State, happenings: seq<Happening>, s: Session)
    requires Lawful(w.l) && Reaches(w, tables, happenings, s)
    ensures Inv(w, s)
  {
    hide Inv, Possible, After, Lawful;
    if happenings == [] {
      BeginInv(w, tables);
    } else {
      var init, last := happenings[..|happenings| - 1], happenings[|happenings| - 1];
      var before :| Reaches(w, tables, init, before) && Possible(w, before, last) && s == After(w, before, last);
      ReachesInv(w, tables, init, before);
      HappeningKeeps(w, before, last);
    }
  }

  lemma BeginInv(w: Setting, tables: State)
    ensures Inv(w, Begin(tables))
  {
  }

  /**
   End to end: whatever the chunks and the interleaving, each side has verified a
   prefix of what the other sent, both counters count packets, and the i-th reply the
   client got is the one the command automaton gave its i-th request.
   */
  lemma SessionDelivers(w: Setting, tables: State, happenings: seq<Happening>, s: Session)
    requires Lawful(w.l) && Reaches(w, tables, happenings, s)
    ensures s.server.got <= s.client.sent && s.client.got <= s.server.sent
    ensures s.client.tx == FIRST + |s.client.sent| && s.server.tx == FIRST + |s.server.sent|
    ensures s.server.alive ==> s.server.rx == FIRST + |s.server.got|
    ensures s.client.alive ==> s.client.rx == FIRST + |s.client.got|
    ensures |s.client.got| <= |s.served| <= |s.client.sent|
    ensures forall i :: 0 <= i < |s.client.got| ==>
              && s.served[i].request == s.client.sent[i]
              && s.served[i].reply == s.client.got[i]
              && ReplyTo(w, s.served[i].tables, s.client.sent[i], s.served[i].id) == Some(s.client.got[i])
  {
    hide Stream, Packable, ReplyTo, Carries, Lawful;
    ReachesInv(w, tables, happenings, s);
    assert s.server.got <= s.client.sent && s.client.got <= s.server.sent by {
      GotOfCarries(w, s);
    }
    forall i | 0 <= i < |s.client.got|
      ensures s.client.got[i] == s.server.sent[i] && s.server.got[i] == s.client.sent[i]
    {
    }
  }

  lemma GotOfCarries(w: Setting, s: Session)
    requires Inv(w, s)
    ensures s.server.got <= s.client.sent && s.client.got <= s.server.sent
  {
    hide Stream, Packable, Paired;
  }

  /** Nothing gets stuck: once the bytes have arrived and been framed, everything sent has been verified. */
  lemma AllDelivered(w: Setting, tables: State, happenings: seq<Happening>, s: Session)
    requires Lawful(w.l) && Reaches(w, tables, happenings, s)
    ensures s.server.alive && s.up == [] && !ExtractPacketFrame(s.server.buffer).Frame? ==> s.server.got == s.client.sent
    ensures s.client.alive && s.down == [] && !ExtractPacketFrame(s.client.buffer).Frame? ==> s.client.got == s.server.sent
  {
    hide Stream, Packable, Paired, ExtractPacketFrame, Lawful;
    ReachesInv(w, tables, happenings, s);
    if s.server.alive && s.up == [] && !ExtractPacketFrame(s.server.buffer).Frame? {
      DrainedCarries(w.l, s.client.sent, s.server.got, s.server.buffer);
    }
    if s.client.alive && s.down == [] && !ExtractPacketFrame(s.client.buffer).Frame? {
      DrainedCarries(w.l, s.server.sent, s.client.got, s.client.buffer);
    }
  }

  /** A handler whose client keeps to the protocol never refuses a packet, and a client dies on a reply exactly if it starts with ERR. */
  lemma NobodyRefuses(w: Setting, tables: State, happenings: seq<Happening>, s: Session)
    requires Lawful(w.l) && Reaches(w, tables, happenings, s)
    ensures Possible(w, s, Fetch) ==> After(w, s, Fetch).server.alive
    ensures Possible(w, s, Read) ==> |s.client.got| < |s.server.sent|
    ensures Possible(w, s, Read) ==> (After(w, s, Read).client.alive <==> !Fatal(s.server.sent[|s.client.got|]))
  {
    hide Stream, Packable, ReplyTo, VerifyPacket, ExtractPacketFrame, Lawful, Fatal, Reaches;
    ReachesInv(w, tables, happenings, s);
    if Possible(w, s, Fetch) {
      FetchKeeps(w, s);
    }
    if Possible(w, s, Read) {
      ReadCarries(w.l, s.server.sent, s.client.got, s.client.buffer, s.down);
    }
  }

  /** No nonce is used twice in a direction. */
  lemma NoncesDistinct(w: Setting, tables: State, happenings: seq<Happening>, s: Session, i: nat, j: nat)
    requires Lawful(w.l) && Reaches(w, tables, happenings, s)
    requires i < j < |s.client.sent| || i < j < |s.server.sent|
    ensures NonceBytes(FIRST + i) != NonceBytes(FIRST + j)
  {
    hide Stream, Reaches, Lawful, Paired, Carries, LittleEndian;
    ReachesInv(w, tables, happenings, s);
    var sent := if j < |s.client.sent| then s.client.sent else s.server.sent;
    assert Packable(w.l, sent[j], FIRST + j);
    NonceBytesInjective(FIRST + i, FIRST + j);
  }
}
