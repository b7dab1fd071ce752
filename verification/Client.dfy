/** client.py: the commands as `Client` writes them, and `RawClient` with its counters, queues and buffer. */
module Clients {
  import opened Wrappers
  import opened Bytes
  import opened Packets
  import opened Tables
  import opened Wire
  import opened Sessions

  // ----- Client: the three commands with a length header -----

  method WriteSet(key: bytes, value: bytes) returns (r: Result<bytes>)
    ensures r == if Sendable(Set(key, value)) then Ok(EncodeCommand(Set(key, value))) else Err(StructError)
  {
    var header := ConvertToLengthFormat([key, value]);
    if header.Err? {
      return Err(StructError);
    }
    JoinTwo(key, value);
    return Ok([0x81] + (header.value + (key + value)));
  }

  method WriteRequest(target: bytes, request: bytes, key: bytes) returns (r: Result<bytes>)
    ensures var c := PutInbox(target, request, key);
            r == if Sendable(c) then Ok(EncodeCommand(c)) else Err(StructError)
  {
    var header := ConvertToLengthFormat([target, request, key]);
    if header.Err? {
      return Err(StructError);
    }
    JoinCons(target, [request, key]);
    JoinTwo(request, key);
    assert [target] + [request, key] == [target, request, key];
    return Ok([0x2] + (header.value + (target + (request + key))));
  }

  method WriteResponse(target: bytes, response: bytes, key: bytes, requestUuid: bytes) returns (r: Result<bytes>)
    ensures var c := PutOutbox(target, response, key, requestUuid);
            r == if Sendable(c) then Ok(EncodeCommand(c)) else Err(StructError)
  {
    var header := ConvertToLengthFormat([target, response, key, requestUuid]);
    if header.Err? {
      return Err(StructError);
    }
    JoinCons(target, [response, key, requestUuid]);
    JoinCons(response, [key, requestUuid]);
    JoinTwo(key, requestUuid);
    assert [target] + [response, key, requestUuid] == [target, response, key, requestUuid];
    assert [response] + [key, requestUuid] == [response, key, requestUuid];
    return Ok([0x4] + (header.value + (target + (response + (key + requestUuid)))));
  }

  lemma JoinTwo(a: bytes, b: bytes)
    ensures Join([a, b]) == a + b
  {
    JoinCons(a, [b]);
    JoinCons(b, []);
    assert [a] + [b] == [a, b] && [b] + [] == [b] && b + [] == b;
  }

  // ----- RawClient -----

  /** `recv_loop` over all frames its buffer holds. */
  function ReadAll(l: Libs, p: Peer): Peer
    decreases |p.buffer|
  {
    if !p.alive then p
    else
      match ExtractPacketFrame(p.buffer)
      case Incomplete => p
      case BadHeader => p.(buffer := [], alive := false)
      case Frame(_, _) => ReadAll(l, ClientReads(l, p))
  }

  class RawClient {
    const l: Libs
    var txNonce: nat
    var rxNonce: nat
    var tasks: seq<bytes>           // packets waiting for `send_loop`
    var inputPackets: seq<bytes>    // payloads waiting for `receive`
    var receiveBuffer: bytes
    var alive: bool
    ghost var sent: seq<bytes>      // payloads transmitted
    ghost var received: seq<bytes>  // payloads handed to the caller

    ghost function View(): Peer
      reads this
    {
      Peer(txNonce, rxNonce, sent, received + inputPackets, receiveBuffer, alive)
    }

    /** A client whose handshake is over. */
    constructor (l: Libs)
      ensures View() == FRESH_PEER && tasks == [] && this.l == l
    {
      this.l := l;
      txNonce, rxNonce, tasks, inputPackets, receiveBuffer, alive := FIRST, FIRST, [], [], [], true;
      sent, received := [], [];
    }

    /** `send`: the packet is built under the present counter, which moves only when it is transmitted. */
    method Send(data: bytes) returns (fault: Option<Fault>)
      modifies `tasks
      ensures fault.None? <==> ConstructPacket(l, data, txNonce).Ok?
      ensures fault.None? ==> tasks == old(tasks) + [ConstructPacket(l, data, txNonce).value]
      ensures fault.Some? ==> tasks == old(tasks)
    {
      match ConstructPacket(l, data, txNonce)
      case Ok(packet) =>
        tasks := tasks + [packet];
        return None;
      case Err(e) => return Some(e);
    }

    /** One turn of `send_loop`; `data` is the payload the packet was built from. */
    method SendLoopTurn(ghost data: bytes) returns (packet: bytes)
      requires tasks != []
      modifies `tasks, `txNonce, `sent
      ensures [packet] + tasks == old(tasks)
      ensures View() == old(View()).(tx := old(txNonce) + 1, sent := old(sent) + [data])
    {
      packet := tasks[0];
      tasks, txNonce := tasks[1..], txNonce + 1;
      sent := sent + [data];
    }

    /** With nothing queued, sending and transmitting is one packet under the next counter. */
    method Transmit(data: bytes) returns (packet: Result<bytes>)
      requires tasks == []
      modifies `tasks, `txNonce, `sent
      ensures tasks == []
      ensures packet.Ok? <==> ConstructPacket(l, data, old(txNonce)).Ok?
      ensures packet.Ok? ==> (View(), packet.value) == Sessions.Transmit(l, old(View()), data)
      ensures packet.Err? ==> View() == old(View())
    {
      var fault := Send(data);
      if fault.Some? {
        return Err(fault.value);
      }
      var wire := SendLoopTurn(data);
      assert ([wire] + tasks)[0] == wire && |[wire] + tasks| == 1;
      return Ok(wire);
    }

    /** What `recv_loop` does with a chunk before it reads the socket again. */
    method OnChunk(chunk: bytes)
      requires alive
      modifies `rxNonce, `receiveBuffer, `inputPackets, `alive
      ensures View() == ReadAll(l, old(View()).(buffer := old(receiveBuffer) + chunk))
    {
      hide ExtractPacketFrame, VerifyPacket, Fatal;
      receiveBuffer := receiveBuffer + chunk;
      ghost var start := View();
      var reading := true;
      while reading && alive
        invariant ReadAll(l, start) == ReadAll(l, View())
        invariant !reading ==> ReadAll(l, View()) == View()
        decreases alive, reading, |receiveBuffer|
      {
        match ExtractPacketFrame(receiveBuffer)
        case Incomplete =>
          reading := false;
        case BadHeader =>
          receiveBuffer, alive := [], false;
        case Frame(frame, rest) =>
          assert |rest| < |receiveBuffer|;
          receiveBuffer := rest;
          match VerifyPacket(l, frame, rxNonce)
          case Payload(data, _) =>
            rxNonce := rxNonce + 1;
            if Fatal(data) {
              alive := false;
            } else {
              assert received + (inputPackets + [data]) == (received + inputPackets) + [data];
              inputPackets := inputPackets + [data];
            }
          case _ =>
            alive := false;
      }
    }

    /** `receive`, when a payload has arrived within its time. */
    method Receive() returns (payload: bytes)
      requires inputPackets != []
      modifies `inputPackets, `received
      ensures View() == old(View()) && received == old(received) + [payload]
    {
      payload := inputPackets[0];
      inputPackets, received := inputPackets[1..], received + [payload];
      assert received + inputPackets == old(received + inputPackets);
    }
  }

  // ----- The read loop and the session -----

  lemma ReadAllReached(w: Setting, tables: State, happenings: seq<Happening>, s: Session)
    requires Lawful(w.l) && Reaches(w, tables, happenings, s) && s.client.alive
    ensures exists more :: Reaches(w, tables, happenings + more, s.(client := ReadAll(w.l, s.client)))
    decreases |s.client.buffer|
  {
    hide Reaches, Lawful, After, VerifyPacket, ExtractPacketFrame;
    NoBadHeader(w, tables, happenings, s);
    if ExtractPacketFrame(s.client.buffer).Frame? {
      ReadsOne(w, tables, happenings, s);
      var next := s.(client := ClientReads(w.l, s.client));
      if next.client.alive {
        ReadAllReached(w, tables, happenings + [Read], next);
        var more :| Reaches(w, tables, happenings + [Read] + more, next.(client := ReadAll(w.l, next.client)));
        assert happenings + [Read] + more == happenings + ([Read] + more);
      } else {
        assert ReadAll(w.l, next.client) == next.client;
      }
    } else {
      assert happenings + [] == happenings && s.(client := s.client) == s;
    }
  }

  lemma ReadsOne(w: Setting, tables: State, happenings: seq<Happening>, s: Session)
    requires Reaches(w, tables, happenings, s) && Possible(w, s, Read)
    ensures Reaches(w, tables, happenings + [Read], s.(client := ClientReads(w.l, s.client)))
  {
    hide ClientReads, ExtractPacketFrame;
    assert (happenings + [Read])[..|happenings|] == happenings;
    assert After(w, s, Read) == s.(client := ClientReads(w.l, s.client));
  }

  /** No chunk boundary makes the client see a bad header. */
  lemma NoBadHeader(w: Setting, tables: State, happenings: seq<Happening>, s: Session)
    requires Lawful(w.l) && Reaches(w, tables, happenings, s)
    ensures s.client.alive ==> !ExtractPacketFrame(s.client.buffer).BadHeader?
  {
    hide Reaches, ExtractPacketFrame, Paired, Lawful, ConstructPacket;
    ReachesInv(w, tables, happenings, s);
    if s.client.alive {
      var sent, got := s.server.sent, s.client.got;
      ExtractionPrefixStable(s.client.buffer, s.down);
      if |got| < |sent| {
        assert Packable(w.l, sent[|got|], FIRST + |got|);
        ExtractConstructed(w.l, sent[|got|], FIRST + |got|, Stream(w.l, sent[|got|..][1..], FIRST + |got| + 1));
      } else {
        assert s.client.buffer == [];
        EmptyIncomplete();
      }
    }
  }

  lemma EmptyIncomplete()
    ensures ExtractPacketFrame([]) == Incomplete
  {
  }
}
