/**
 What the caller of each `Client` method gets: the server's reply has to pass the
 ERR test of `recv_loop` before any decoder sees it.
 */
module Replies {
  import opened Wrappers
  import opened Bytes
  import opened Dicts
  import opened Packets
  import opened Tables
  import opened Wire
  import opened Commands
  import opened Runs
  import opened History

  datatype Heard =
    | Returns(payload: bytes)
    | ReturnsListing(contents: OrderedDict<bytes, bytes>)    // JSON text, which starts with a brace
    | LoopDies                                               // the receive loop raises; `receive` gets nothing
    | Silence                                                // no reply is sent, or not yet

  function Hear(out: Outcome): Heard {
    match out
    case Reply(payload) => if Fatal(payload) then LoopDies else Returns(payload)
    case Listing(contents) => ReturnsListing(contents)
    case _ => Silence
  }

  /** One call: the command's bytes are parsed and served, and the reply is read. */
  function Call(s: State, uuid: string, command: Command, id: bytes, keepDead: bool): Heard
    requires Sendable(command)
  {
    Hear(Serve(s, uuid, ParseCommand(EncodeCommand(command)), id, keepDead).1)
  }

  /**
   The client is on a live connection after these events, if it was before: since its last login
   every command of its own was answered with a packet that its receive loop survived.
   */
  predicate Connected(s: State, events: seq<Event>, keepDead: bool, uuid: string) {
    if events == [] then true
    else
      var init, last := events[..|events| - 1], events[|events| - 1];
      if last == LoggedIn(uuid) || last == LoggedBack(uuid) then true
      else if last == Refusal(uuid) then false
      else
        Connected(s, init, keepDead, uuid) &&
        (By(last, uuid) ==> var heard := Hear(Step(Run(s, init, keepDead), last, keepDead).1); heard != LoopDies && heard != Silence)
  }

  /** What the caller of a method gets after these events: nothing, on a dead connection. */
  function HeardAfter(s: State, events: seq<Event>, uuid: string, command: Command, id: bytes, keepDead: bool): Heard
    requires Sendable(command)
  {
    if Connected(s, events, keepDead, uuid) then Call(Run(s, events, keepDead), uuid, command, id, keepDead) else Silence
  }

  lemma ConnectedOne(s: State, e: Event, keepDead: bool, uuid: string)
    requires By(e, uuid)
    ensures Connected(s, [e], keepDead, uuid) <==>
              Hear(Step(s, e, keepDead).1) != LoopDies && Hear(Step(s, e, keepDead).1) != Silence
  {
    hide Step, Hear;
    assert [e][..0] == [];
    assert Connected(s, [], keepDead, uuid) && Run(s, [], keepDead) == s;
  }

  /** The server's own errors and its ACK begin with a zero byte, so the ERR test never meets them. */
  lemma ShortRepliesPass(code: byte)
    ensures !Fatal(ErrorReply(code)) && !Fatal(ACK)
  {
    assert ErrorReply(code)[0] != ERR[0] && ACK[0] != ERR[0];
  }

  // ----- get -----

  /** `get` returns the last SET value not since deleted exactly if it is not empty and passes the ERR test. */
  lemma GetReturnsIff(s: State, events: seq<Event>, keepDead: bool, uuid: string, key: bytes, value: bytes, id: bytes)
    requires uuid in Run(s, events, keepDead).clients.vals
    requires LastValue(Find(s.db.vals, key), events, key) == Some(value)
    ensures Call(Run(s, events, keepDead), uuid, Get(key), id, keepDead) == Returns(value) <==> value != [] && !Fatal(value)
    ensures value != [] && Fatal(value) ==> Call(Run(s, events, keepDead), uuid, Get(key), id, keepDead) == LoopDies
    ensures value == [] ==> Call(Run(s, events, keepDead), uuid, Get(key), id, keepDead) == Silence
  {
    hide Run, LastValue, Serve, Fatal;
    GetAnswers(s, events, keepDead, uuid, key, id);
  }

  lemma GetOfNothing(s: State, events: seq<Event>, keepDead: bool, uuid: string, key: bytes, id: bytes)
    requires uuid in Run(s, events, keepDead).clients.vals
    requires LastValue(Find(s.db.vals, key), events, key) == None
    ensures Call(Run(s, events, keepDead), uuid, Get(key), id, keepDead) == Returns(ERR_KEY)
  {
    hide Run, LastValue, Serve, Fatal;
    GetAnswers(s, events, keepDead, uuid, key, id);
    ShortRepliesPass(5);
  }

  lemma ErrxIsFatal()
    ensures Fatal(ERR + [120])
  {
    assert (ERR + [120])[3] != (ERR + [0])[3];
  }

  /** The failing input: SET k to ERRx is acknowledged, and the GET of k kills the caller's loop. */
  lemma SetErrThenGet(s: State, uuid: string, key: bytes, id: bytes, keepDead: bool)
    requires uuid in s.clients.vals && |key| < U32_LIMIT
    ensures var put := Set(key, ERR + [120]);
            && Call(s, uuid, put, id, keepDead) == Returns(ACK)
            && Call(Run(s, [Issued(uuid, put, id)], keepDead), uuid, Get(key), id, keepDead) == LoopDies
  {
    hide Fatal, EncodeCommand, ParseCommand;
    var put := Set(key, ERR + [120]);
    ErrxIsFatal();
    CommandRoundTrip(put);
    ShortRepliesPass(0);
    RunOne(s, Issued(uuid, put, id), keepDead);
    assert [Issued(uuid, put, id)][..0] == [];
    assert LastValue(Find(s.db.vals, key), [Issued(uuid, put, id)], key) == Some(ERR + [120]);
    GetReturnsIff(s, [Issued(uuid, put, id)], keepDead, uuid, key, ERR + [120], id);
  }

  // ----- Commands answered with an ACK or an error -----

  /** `set`, `delete`, `register`, `unregister` and `respond` are heard whenever they are answered. */
  lemma AcknowledgedIsHeard(s: State, uuid: string, command: Command, id: bytes, keepDead: bool)
    requires command.Set? || command.Delete? || command.Register? || command.Unregister? || command.PutOutbox?
    requires Sendable(command)
    ensures var out := Serve(s, uuid, command, id, keepDead).1;
            out != Crash ==> out.Reply? && Call(s, uuid, command, id, keepDead) == Returns(out.payload)
  {
    hide EncodeCommand, ParseCommand, Fatal;
    CommandRoundTrip(command);
    ShortRepliesPass(5);
  }

  // ----- find and whoami -----

  /** `find` returns an owner exactly if the owner's UUID passes the ERR test. */
  lemma FindReturnsIff(s: State, uuid: string, address: bytes, id: bytes, keepDead: bool)
    requires uuid in s.clients.vals && Decode(address) in s.addressBook.vals
    requires Latin1(s.addressBook.vals[Decode(address)]) && s.addressBook.vals[Decode(address)] != ""
    ensures var owner := Encode(s.addressBook.vals[Decode(address)]);
            Call(s, uuid, WhoHas(address), id, keepDead) == (if Fatal(owner) then LoopDies else Returns(owner))
  {
    hide Fatal, EncodeCommand, ParseCommand;
    CommandRoundTrip(WhoHas(address));
  }

  lemma WhoAmIReturnsIff(s: State, uuid: string, id: bytes, keepDead: bool)
    requires uuid in s.clients.vals && Latin1(uuid) && uuid != ""
    ensures Call(s, uuid, WhoAmI, id, keepDead) == if Fatal(Encode(uuid)) then LoopDies else Returns(Encode(uuid))
  {
    hide Fatal, EncodeCommand, ParseCommand;
    CommandRoundTrip(WhoAmI);
  }

  /** The text of a uuid4 is lower-case hexadecimal digits and dashes: never fatal. */
  lemma GeneratedUuidPasses(uuid: string)
    requires Latin1(uuid) && forall i :: 0 <= i < |uuid| ==> '0' <= uuid[i] <= '9' || 'a' <= uuid[i] <= 'f' || uuid[i] == '-'
    ensures !Fatal(Encode(uuid))
  {
    if uuid != "" {
      assert Encode(uuid)[0] == uuid[0] as int;
      assert Encode(uuid)[0] != ERR[0];
    }
  }

  // ----- request -----

  /** The failing input of `request`: sixteen bytes a UUID may well have. See `RequestAccepted` in Rpc. */
  lemma FatalIdExists()
    ensures exists id: bytes :: |id| == 16 && Fatal(id)
  {
    var rest: bytes := seq(13, i => 0);
    assert |ERR + rest| == 16 && Fatal(ERR + rest);
  }

  // ----- read_inbox -----

  /** `read_inbox` returns the request taken exactly if its asker's UUID has no ERR length; 36 is none. */
  lemma ReadInboxReturnsIff(s: State, uuid: string, id: bytes, keepDead: bool)
    requires uuid in s.clients.vals && Inbox(s, uuid) != [] && Fit(RequestParts(Inbox(s, uuid)[0]))
    ensures var r := Inbox(s, uuid)[0];
            var heard := Call(s, uuid, GetInbox, id, keepDead);
            && (heard.Returns? && ReadInboxReply(heard.payload) == Ok(r) <==> !ErrLength(|r.returnUuid|))
            && (ErrLength(|r.returnUuid|) ==> heard == LoopDies)
  {
    hide Fatal, WriteParts, ReadInboxReply, Lengths, EncodeCommand, ParseCommand, Fit;
    var r := Inbox(s, uuid)[0];
    GetInboxDelivers(s, uuid, id, keepDead);
    PartsFatalIff(RequestParts(r));
    CommandRoundTrip(GetInbox);
  }

  // ----- read_outbox -----

  /**
   `read_outbox` on a stored response: it returns it exactly if key and response are not
   both empty and the key has no ERR length. Either way the slot is empty afterwards.
   */
  lemma ReadOutboxReturnsIff(s: State, asker: string, requestUuid: bytes, response: Response, id: bytes, keepDead: bool)
    requires asker in s.clients.vals && Slot(s, asker, requestUuid) == Some(response) && response.responseUuid == requestUuid
    requires Fit(ResponseParts(response))
    ensures var heard := Call(s, asker, GetOutbox(requestUuid), id, keepDead);
            && (heard.Returns? && ReadOutboxReply(heard.payload, requestUuid) == Ok(response) <==>
                |response.key| + |response.response| > 0 && !ErrLength(|response.key|))
            && (ErrLength(|response.key|) ==> heard == LoopDies)
    ensures Slot(Serve(s, asker, GetOutbox(requestUuid), id, keepDead).0, asker, requestUuid) == None
  {
    hide Fatal, WriteParts, Lengths, Join, ReadOutboxReply, EncodeCommand, ParseCommand, Fit;
    CommandRoundTrip(GetOutbox(requestUuid));
    OutboxReplyRoundTripIff(response);
    PartsFatalIff(ResponseParts(response));
  }

  /** On an empty slot the error is returned, and the decoder refuses it as too short. */
  lemma ReadOutboxOfNothing(s: State, asker: string, requestUuid: bytes, id: bytes, keepDead: bool)
    requires asker in s.clients.vals && Slot(s, asker, requestUuid) == None
    ensures Call(s, asker, GetOutbox(requestUuid), id, keepDead) == Returns(ERR_UUID)
    ensures ReadOutboxReply(ERR_UUID, requestUuid) == Err(RuntimeFault)
  {
    hide Fatal, EncodeCommand, ParseCommand;
    CommandRoundTrip(GetOutbox(requestUuid));
    ShortRepliesPass(7);
  }
}
