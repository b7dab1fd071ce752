/**
 `connect` against `accept_clients`: key exchange, password, login. Each
 await-free stretch is one step; bytes arrive in arbitrary chunks, and
 `read_packet_frame` throws away what its last chunk held beyond the frame.
 */
module Handshake {
  import opened Wrappers
  import opened Bytes
  import opened Packets

  const KEY_SIZE := 32
  const RELOGIN: byte := 0xC4
  const FIRST_LOGIN: byte := 0xC5

  /** Both ends derive the same session key, so they share the libraries' cipher. */
  datatype Setting = Setting(
    l: Libs,
    clientKey: bytes,
    serverKey: bytes,
    clientPassword: bytes,
    serverPassword: bytes,
    relogUuid: Option<bytes>)

  ghost predicate Sized(w: Setting) {
    && Lawful(w.l)
    && |w.clientKey| == KEY_SIZE && |w.serverKey| == KEY_SIZE
    && 1 + |w.clientPassword| <= MAX_PAYLOAD
    && (w.relogUuid.Some? ==> 1 + |w.relogUuid.value| <= MAX_PAYLOAD)
  }

  datatype ClientAt = Unconnected | AwaitingKey | AwaitingAck | AwaitingLogin | Connected(welcome: bool) | ClientFailed

  datatype Kind = NewClient | KnownClient | UnknownUuid

  datatype ServerAt = ReadingKey | ReadingPassword | ReadingLogin | Accepted(kind: Kind) | ServerFailed

  /** Per side: where it is, its counters and its read buffer; then the bytes in flight, and those thrown away. */
  datatype Shake = Shake(
    client: ClientAt, clientTx: nat, clientRx: nat, clientBuffer: bytes,
    server: ServerAt, serverTx: nat, serverRx: nat, serverBuffer: bytes,
    up: bytes, down: bytes, lost: bytes)

  const START: Shake := Shake(Unconnected, 0, 0, [], ReadingKey, 0, 0, [], [], [], [])

  datatype Step =
    | ClientOpens
    | ServerReceives(n: nat)      // one sock_recv of n bytes
    | ClientReceives(n: nat)
    | ServerTakesKey
    | ClientTakesKey
    | ServerTakesPassword
    | ClientTakesAck
    | ServerTakesLogin(known: set<string>)    // the UUIDs in client_db at that moment
    | ClientTakesWelcome
    | ServerBreaks                // exceptions and closed connections
    | ClientBreaks

  function LoginPayload(w: Setting): bytes {
    match w.relogUuid
    case Some(uuid) => [RELOGIN] + uuid
    case None => [FIRST_LOGIN]
  }

  function PasswordPayload(password: bytes): bytes {
    [0] + password
  }

  function Welcome(kind: Kind): bytes {
    if kind == UnknownUuid then ErrorReply(7) else ACK
  }

  function KindOf(payload: bytes, known: set<string>): Option<Kind>
    requires payload != []
  {
    if payload[0] == RELOGIN then Some(if Decode(payload[1..]) in known then KnownClient else UnknownUuid)
    else if payload[0] == FIRST_LOGIN then Some(NewClient)
    else None
  }

  /** How many bytes one read may return: `read_exact` never asks for more than it still needs. */
  function Wanted(readingKey: bool, buffer: bytes, wire: bytes): nat {
    if readingKey then
      if |buffer| >= KEY_SIZE then 0 else if |wire| <= KEY_SIZE - |buffer| then |wire| else KEY_SIZE - |buffer|
    else if ExtractPacketFrame(buffer).Incomplete? then |wire|
    else 0
  }

  predicate Possible(s: Shake, e: Step) {
    match e
    case ClientOpens => s.client.Unconnected?
    case ServerReceives(n) =>
      !s.server.Accepted? && !s.server.ServerFailed? && 0 < n <= Wanted(s.server.ReadingKey?, s.serverBuffer, s.up)
    case ClientReceives(n) =>
      (s.client.AwaitingKey? || s.client.AwaitingAck? || s.client.AwaitingLogin?) &&
      0 < n <= Wanted(s.client.AwaitingKey?, s.clientBuffer, s.down)
    case ServerTakesKey => s.server.ReadingKey? && |s.serverBuffer| == KEY_SIZE
    case ClientTakesKey => s.client.AwaitingKey? && |s.clientBuffer| == KEY_SIZE
    case ServerTakesPassword => s.server.ReadingPassword? && ExtractPacketFrame(s.serverBuffer).Frame?
    case ClientTakesAck => s.client.AwaitingAck? && ExtractPacketFrame(s.clientBuffer).Frame?
    case ServerTakesLogin(_) => s.server.ReadingLogin? && ExtractPacketFrame(s.serverBuffer).Frame?
    case ClientTakesWelcome => s.client.AwaitingLogin? && ExtractPacketFrame(s.clientBuffer).Frame?
    case _ => true
  }

  function ClientSends(w: Setting, s: Shake, payload: bytes, next: ClientAt): Shake {
    match ConstructPacket(w.l, payload, s.clientTx)
    case Ok(packet) => s.(client := next, clientTx := s.clientTx + 1, up := s.up + packet)
    case Err(_) => s.(client := ClientFailed)
  }

  function ServerSends(w: Setting, s: Shake, payload: bytes, next: ServerAt): Shake {
    match ConstructPacket(w.l, payload, s.serverTx)
    case Ok(packet) => s.(server := next, serverTx := s.serverTx + 1, down := s.down + packet)
    case Err(_) => s.(server := ServerFailed)
  }

  /** `read_packet_frame` returns: the rest of the buffer is gone. */
  function ServerFrame(s: Shake): (bytes, Shake)
    requires ExtractPacketFrame(s.serverBuffer).Frame?
  {
    var Frame(frame, rest) := ExtractPacketFrame(s.serverBuffer);
    (frame, s.(serverBuffer := [], lost := s.lost + rest))
  }

  function ClientFrame(s: Shake): (bytes, Shake)
    requires ExtractPacketFrame(s.clientBuffer).Frame?
  {
    var Frame(frame, rest) := ExtractPacketFrame(s.clientBuffer);
    (frame, s.(clientBuffer := [], lost := s.lost + rest))
  }

  function ServerTakesPasswordThen(w: Setting, s: Shake): Shake
    requires ExtractPacketFrame(s.serverBuffer).Frame?
  {
    var (frame, t) := ServerFrame(s);
    match VerifyPacket(w.l, frame, s.serverRx)
    case Payload(data, _) =>
      if data != PasswordPayload(w.serverPassword) then t.(server := ServerFailed)
      else ServerSends(w, t.(serverRx := t.serverRx + 1), ACK, ReadingLogin)
    case _ => t.(server := ServerFailed)
  }

  function ServerTakesLoginThen(w: Setting, s: Shake, known: set<string>): Shake
    requires ExtractPacketFrame(s.serverBuffer).Frame?
  {
    var (frame, t) := ServerFrame(s);
    match VerifyPacket(w.l, frame, s.serverRx)
    case Payload(data, _) =>
      var u := t.(serverRx := t.serverRx + 1);
      if data == [] || KindOf(data, known).None? then u.(server := ServerFailed)
      else ServerSends(w, u, Welcome(KindOf(data, known).value), Accepted(KindOf(data, known).value))
    case _ => t.(server := ServerFailed)
  }

  function ClientTakesAckThen(w: Setting, s: Shake): Shake
    requires ExtractPacketFrame(s.clientBuffer).Frame?
  {
    var (frame, t) := ClientFrame(s);
    var u := t.(clientRx := t.clientRx + 1);
    match VerifyPacket(w.l, frame, s.clientRx)
    case Payload(data, _) =>
      if data != ACK then u.(client := ClientFailed) else ClientSends(w, u, LoginPayload(w), AwaitingLogin)
    case _ => u.(client := ClientFailed)
  }

  /** Anything but an ACK only draws a warning. */
  function ClientTakesWelcomeThen(w: Setting, s: Shake): Shake
    requires ExtractPacketFrame(s.clientBuffer).Frame?
  {
    var (frame, t) := ClientFrame(s);
    match VerifyPacket(w.l, frame, s.clientRx)
    case Raised(_) => t.(client := ClientFailed)
    case Payload(data, _) => t.(clientRx := t.clientRx + 1, client := Connected(data == ACK))
    case Rejected(_) => t.(clientRx := t.clientRx + 1, client := Connected(false))
  }

  function Next(w: Setting, s: Shake, e: Step): Shake
    requires Possible(s, e)
  {
    match e
    case ClientOpens => s.(client := AwaitingKey, up := s.up + w.clientKey)
    case ServerReceives(n) => s.(serverBuffer := s.serverBuffer + s.up[..n], up := s.up[n..])
    case ClientReceives(n) => s.(clientBuffer := s.clientBuffer + s.down[..n], down := s.down[n..])
    case ServerTakesKey => s.(server := ReadingPassword, serverBuffer := [], down := s.down + w.serverKey)
    case ClientTakesKey => ClientSends(w, s.(clientBuffer := []), PasswordPayload(w.clientPassword), AwaitingAck)
    case ServerTakesPassword => ServerTakesPasswordThen(w, s)
    case ClientTakesAck => ClientTakesAckThen(w, s)
    case ServerTakesLogin(known) => ServerTakesLoginThen(w, s, known)
    case ClientTakesWelcome => ClientTakesWelcomeThen(w, s)
    case ServerBreaks => s.(server := ServerFailed)
    case ClientBreaks => s.(client := ClientFailed)
  }

  // ----- What always holds -----

  /** Unread bytes towards the server: never more than one frame, and only while the server reads. */
  ghost predicate UpIs(s: Shake, expected: bytes) {
    s.serverBuffer + s.up == expected
  }

  ghost predicate DownIs(s: Shake, expected: bytes) {
    s.clientBuffer + s.down == expected
  }

  ghost predicate OnePacketUp(w: Setting, s: Shake, payload: bytes, nonce: nat) {
    ConstructPacket(w.l, payload, nonce).Ok? && UpIs(s, ConstructPacket(w.l, payload, nonce).value)
  }

  ghost predicate OnePacketDown(w: Setting, s: Shake, payload: bytes, nonce: nat) {
    ConstructPacket(w.l, payload, nonce).Ok? && DownIs(s, ConstructPacket(w.l, payload, nonce).value)
  }

  ghost predicate Counters(s: Shake, clientTx: nat, clientRx: nat, serverTx: nat, serverRx: nat) {
    s.clientTx == clientTx && s.clientRx == clientRx && s.serverTx == serverTx && s.serverRx == serverRx
  }

  /** The positions two working ends can be in together, with the counters and the unread bytes of each. */
  ghost predicate InStep(w: Setting, s: Shake) {
    match (s.client, s.server)
    case (Unconnected, ReadingKey) => Counters(s, 0, 0, 0, 0) && UpIs(s, []) && DownIs(s, [])
    case (AwaitingKey, ReadingKey) => Counters(s, 0, 0, 0, 0) && UpIs(s, w.clientKey) && DownIs(s, [])
    case (AwaitingKey, ReadingPassword) => Counters(s, 0, 0, 0, 0) && UpIs(s, []) && DownIs(s, w.serverKey)
    case (AwaitingAck, ReadingPassword) =>
      Counters(s, 1, 0, 0, 0) && OnePacketUp(w, s, PasswordPayload(w.clientPassword), 0) && DownIs(s, [])
    case (AwaitingAck, ReadingLogin) =>
      Counters(s, 1, 0, 1, 1) && UpIs(s, []) && OnePacketDown(w, s, ACK, 0) && w.clientPassword == w.serverPassword
    case (AwaitingLogin, ReadingLogin) =>
      Counters(s, 2, 1, 1, 1) && OnePacketUp(w, s, LoginPayload(w), 1) && DownIs(s, []) && w.clientPassword == w.serverPassword
    case (AwaitingLogin, Accepted(kind)) =>
      Counters(s, 2, 1, 2, 2) && UpIs(s, []) && OnePacketDown(w, s, Welcome(kind), 1) && w.clientPassword == w.serverPassword &&
      (kind == NewClient <==> w.relogUuid.None?)
    case (Connected(welcome), Accepted(kind)) =>
      Counters(s, 2, 2, 2, 2) && UpIs(s, []) && DownIs(s, []) && w.clientPassword == w.serverPassword &&
      (kind == NewClient <==> w.relogUuid.None?) && (welcome <==> kind != UnknownUuid)
    case _ => false
  }

  /** A side that still works and its own bytes, when the other has failed. */
  ghost predicate Alone(w: Setting, s: Shake) {
    && (s.server.ReadingKey? ==> s.serverRx == 0 && (UpIs(s, []) || UpIs(s, w.clientKey)))
    && (s.server.ReadingPassword? ==> s.serverRx == 0 && (UpIs(s, []) || OnePacketUp(w, s, PasswordPayload(w.clientPassword), 0)))
    && (s.server.ReadingLogin? ==> s.serverRx == 1 && (UpIs(s, []) || OnePacketUp(w, s, LoginPayload(w), 1)))
    && (s.client.Unconnected? ==> s.clientRx == 0 && DownIs(s, []) && UpIs(s, []))
    && (s.client.AwaitingKey? ==> s.clientRx == 0 && (DownIs(s, []) || DownIs(s, w.serverKey)))
    && (s.client.AwaitingAck? ==> s.clientRx == 0 && (DownIs(s, []) || OnePacketDown(w, s, ACK, 0)))
    && (s.client.AwaitingLogin? ==>
          s.clientRx == 1 && (DownIs(s, []) || OnePacketDown(w, s, ACK, 1) || OnePacketDown(w, s, ErrorReply(7), 1)))
  }

  ghost predicate Inv(w: Setting, s: Shake) {
    && s.lost == []
    && (if s.client.ClientFailed? || s.server.ServerFailed? then Alone(w, s) else InStep(w, s))
  }

  // ----- One frame, whole, with nothing behind it -----

  lemma OnlyFrame(l: Libs, payload: bytes, nonce: nat, buffer: bytes, wire: bytes)
    requires Lawful(l) && Deliverable(l, payload) && ConstructPacket(l, payload, nonce).Ok?
    requires buffer + wire == ConstructPacket(l, payload, nonce).value && ExtractPacketFrame(buffer).Frame?
    ensures wire == [] && ExtractPacketFrame(buffer).rest == []
    ensures VerifyPacket(l, ExtractPacketFrame(buffer).frame, nonce) == Payload(payload, None)
  {
    hide ConstructPacket, VerifyPacket, ExtractPacketFrame, Lawful;
    var packet := ConstructPacket(l, payload, nonce).value;
    ExtractionPrefixStable(buffer, wire);
    ExtractConstructed(l, payload, nonce, []);
    assert packet + [] == packet;
    PacketRoundTrip(l, payload, nonce, []);
  }

  lemma NoFrame(buffer: bytes, wire: bytes)
    requires buffer + wire == []
    ensures buffer == [] && !ExtractPacketFrame(buffer).Frame?
  {
  }

  lemma ShortPackets(l: Libs, payload: bytes, nonce: nat)
    requires Lawful(l) && 0 < |payload| <= 5 && nonce < 2
    ensures ConstructPacket(l, payload, nonce).Ok? && Deliverable(l, payload)
  {
    ConstructSucceedsIff(l, payload, nonce);
  }

  // ----- Each step keeps it -----

  lemma ReceivesKeep(w: Setting, s: Shake, e: Step)
    requires Inv(w, s) && Possible(s, e) && (e.ServerReceives? || e.ClientReceives?)
    ensures Inv(w, Next(w, s, e))
  {
    hide ExtractPacketFrame, ConstructPacket, PasswordPayload, LoginPayload, Welcome;
    var t := Next(w, s, e);
    if e.ServerReceives? {
      assert t.serverBuffer + t.up == s.serverBuffer + s.up;
    } else {
      assert t.clientBuffer + t.down == s.clientBuffer + s.down;
    }
  }

  lemma KeysKeep(w: Setting, s: Shake, e: Step)
    requires Sized(w) && Inv(w, s) && Possible(s, e) && (e.ClientOpens? || e.ServerTakesKey? || e.ClientTakesKey?)
    ensures Inv(w, Next(w, s, e))
  {
    hide ExtractPacketFrame, ConstructPacket, Lawful;
    match e
    case ClientOpens =>
    case ServerTakesKey =>
      assert s.serverBuffer + s.up == w.clientKey ==> s.up == [];
    case ClientTakesKey =>
      assert s.clientBuffer + s.down == w.serverKey ==> s.down == [];
  }

  lemma PasswordKeeps(w: Setting, s: Shake)
    requires Sized(w) && Inv(w, s) && Possible(s, ServerTakesPassword)
    ensures Inv(w, Next(w, s, ServerTakesPassword))
  {
    hide ExtractPacketFrame, ConstructPacket, VerifyPacket, Lawful;
    if s.serverBuffer + s.up == [] {
      NoFrame(s.serverBuffer, s.up);
    } else {
      OnlyFrame(w.l, PasswordPayload(w.clientPassword), 0, s.serverBuffer, s.up);
      assert s.lost + [] == s.lost;
      ShortPackets(w.l, ACK, 0);
      SamePassword(w.clientPassword, w.serverPassword);
    }
  }

  lemma SamePassword(a: bytes, b: bytes)
    ensures PasswordPayload(a) == PasswordPayload(b) <==> a == b
  {
    assert PasswordPayload(a)[1..] == a && PasswordPayload(b)[1..] == b;
  }

  lemma AckKeeps(w: Setting, s: Shake)
    requires Sized(w) && Inv(w, s) && Possible(s, ClientTakesAck)
    ensures Inv(w, Next(w, s, ClientTakesAck))
  {
    hide ExtractPacketFrame, ConstructPacket, VerifyPacket, Lawful;
    if s.clientBuffer + s.down == [] {
      NoFrame(s.clientBuffer, s.down);
    } else {
      ShortPackets(w.l, ACK, 0);
      OnlyFrame(w.l, ACK, 0, s.clientBuffer, s.down);
      assert s.lost + [] == s.lost;
    }
  }

  /** The server takes the login for what the client meant. */
  lemma LoginMeaning(w: Setting, known: set<string>)
    ensures LoginPayload(w) != []
    ensures KindOf(LoginPayload(w), known) ==
              Some(match w.relogUuid {
                     case None => NewClient
                     case Some(uuid) => if Decode(uuid) in known then KnownClient else UnknownUuid
                   })
  {
    if w.relogUuid.Some? {
      assert LoginPayload(w)[1..] == w.relogUuid.value;
    }
  }

  lemma LoginKeeps(w: Setting, s: Shake, known: set<string>)
    requires Sized(w) && Inv(w, s) && Possible(s, ServerTakesLogin(known))
    ensures Inv(w, Next(w, s, ServerTakesLogin(known)))
  {
    hide ExtractPacketFrame, ConstructPacket, VerifyPacket, Lawful, KindOf, LoginPayload;
    if s.serverBuffer + s.up == [] {
      NoFrame(s.serverBuffer, s.up);
    } else {
      LoginMeaning(w, known);
      LoginSized(w);
      OnlyFrame(w.l, LoginPayload(w), 1, s.serverBuffer, s.up);
      assert s.lost + [] == s.lost;
      ShortPackets(w.l, ACK, 1);
      ShortPackets(w.l, ErrorReply(7), 1);
    }
  }

  lemma LoginSized(w: Setting)
    requires Sized(w)
    ensures Deliverable(w.l, LoginPayload(w))
  {
    hide Lawful;
  }

  lemma WelcomeKeeps(w: Setting, s: Shake)
    requires Sized(w) && Inv(w, s) && Possible(s, ClientTakesWelcome)
    ensures Inv(w, Next(w, s, ClientTakesWelcome))
  {
    hide ExtractPacketFrame, ConstructPacket, VerifyPacket, Lawful;
    if s.clientBuffer + s.down == [] {
      NoFrame(s.clientBuffer, s.down);
    } else {
      ShortPackets(w.l, ACK, 1);
      ShortPackets(w.l, ErrorReply(7), 1);
      var payload := if OnePacketDown(w, s, ACK, 1) then ACK else ErrorReply(7);
      OnlyFrame(w.l, payload, 1, s.clientBuffer, s.down);
      assert s.lost + [] == s.lost;
      if s.server.Accepted? {
        OnlyFrame(w.l, Welcome(s.server.kind), 1, s.clientBuffer, s.down);
      }
    }
  }

  lemma StepKeeps(w: Setting, s: Shake, e: Step)
    requires Sized(w) && Inv(w, s) && Possible(s, e)
    ensures Inv(w, Next(w, s, e))
  {
    hide ExtractPacketFrame, ConstructPacket, VerifyPacket, Lawful, Sized, ServerTakesPasswordThen, ServerTakesLoginThen,
         ClientTakesAckThen, ClientTakesWelcomeThen;
    match e
    case ServerReceives(_) => ReceivesKeep(w, s, e);
    case ClientReceives(_) => ReceivesKeep(w, s, e);
    case ServerTakesPassword => PasswordKeeps(w, s);
    case ClientTakesAck => AckKeeps(w, s);
    case ServerTakesLogin(known) => LoginKeeps(w, s, known);
    case ClientTakesWelcome => WelcomeKeeps(w, s);
    case ServerBreaks =>
    case ClientBreaks =>
    case _ => KeysKeep(w, s, e);
  }

  // ----- Every run of the handshake -----

  ghost predicate Reaches(w: Setting, steps: seq<Step>, s: Shake) {
    if steps == [] then s == START
    else
      var init, last := steps[..|steps| - 1], steps[|steps| - 1];
      exists before :: Reaches(w, init, before) && Possible(before, last) && s == Next(w, before, last)
  }

  lemma {:induction false} EveryHandshake(w: Setting, steps: seq<Step>, s: Shake)
    requires Sized(w) && Reaches(w, steps, s)
    ensures Inv(w, s)
  {
    hide Inv, Possible, Next, Sized;
    if steps == [] {
      StartInv(w);
    } else {
      var before :| Reaches(w, steps[..|steps| - 1], before) && Possible(before, steps[|steps| - 1]) &&
                    s == Next(w, before, steps[|steps| - 1]);
      EveryHandshake(w, steps[..|steps| - 1], before);
      StepKeeps(w, before, steps[|steps| - 1]);
    }
  }

  lemma StartInv(w: Setting)
    ensures Inv(w, START)
  {
  }

  /** Throwing away what follows a frame never loses a byte, whatever the chunks and the failures. */
  lemma NothingLost(w: Setting, steps: seq<Step>, s: Shake)
    requires Sized(w) && Reaches(w, steps, s)
    ensures s.lost == []
  {
    hide Reaches, Alone, InStep, Sized;
    EveryHandshake(w, steps, s);
  }

  /** When both ends are done, all four counters are two, no byte is left over, and both know which login it was. */
  lemma HandshakeLockstep(w: Setting, steps: seq<Step>, s: Shake)
    requires Sized(w) && Reaches(w, steps, s) && s.client.Connected? && s.server.Accepted?
    ensures s.clientTx == s.clientRx == s.serverTx == s.serverRx == 2
    ensures s.up == s.down == s.serverBuffer == s.clientBuffer == []
    ensures w.clientPassword == w.serverPassword
    ensures s.client.welcome <==> s.server.kind != UnknownUuid
    ensures s.server.kind == NewClient <==> w.relogUuid.None?
  {
    hide Reaches, Sized;
    EveryHandshake(w, steps, s);
  }

  /** At every read of a frame there is at most one packet on the way to the reader. */
  lemma OneUnreadFrame(w: Setting, steps: seq<Step>, s: Shake)
    requires Sized(w) && Reaches(w, steps, s)
    ensures s.server.ReadingPassword? || s.server.ReadingLogin? ==>
              s.serverBuffer + s.up == [] ||
              exists payload, nonce: nat :: ConstructPacket(w.l, payload, nonce) == Ok(s.serverBuffer + s.up)
    ensures s.client.AwaitingAck? || s.client.AwaitingLogin? ==>
              s.clientBuffer + s.down == [] ||
              exists payload, nonce: nat :: ConstructPacket(w.l, payload, nonce) == Ok(s.clientBuffer + s.down)
  {
    hide Reaches, Sized, ConstructPacket;
    EveryHandshake(w, steps, s);
  }
}
