/**
 A remote call across two clients and three decoders: B's `request`, A's
 `read_inbox` and `respond`, B's `read_outbox`, with anything in between.
 */
module Rpc {
  import opened Wrappers
  import opened Bytes
  import opened Packets
  import opened Tables
  import opened Wire
  import opened Commands
  import opened Runs
  import opened History
  import opened Replies

  // ----- The request -----

  /**
   `request` queues exactly one request, under the id the server chose, and hands
   that id to the caller exactly if it passes the ERR test of the receive loop.
   */
  lemma RequestAccepted(s: State, asker: string, owner: string, request: bytes, key: bytes, id: bytes, keepDead: bool)
    requires asker in s.clients.vals && owner in s.clients.vals && Latin1(asker) && Latin1(owner) && id != []
    requires Fit([Encode(owner), request, key])
    ensures var command := PutInbox(Encode(owner), request, key);
            && ParseCommand(EncodeCommand(command)) == command
            && Serve(s, asker, command, id, keepDead).1 == Reply(id)
            && Call(s, asker, command, id, keepDead) == (if Fatal(id) then LoopDies else Returns(id))
            && Accepted(s, Issued(asker, command, id), owner) == [Request(Encode(asker), key, request, id)]
  {
    hide Fatal, EncodeCommand, ParseCommand;
    CommandRoundTrip(PutInbox(Encode(owner), request, key));
    DecodeEncode(owner);
  }

  /** No request accepted by these events carries this id. */
  ghost predicate IdUnused(events: seq<Event>, id: bytes) {
    forall i :: 0 <= i < |events| ==> !(events[i].Issued? && events[i].command.PutInbox? && events[i].id == id)
  }

  lemma {:induction false} AcceptedIds(s: State, events: seq<Event>, keepDead: bool, owner: string, id: bytes)
    requires IdUnused(events, id)
    ensures forall r :: r in AllAccepted(s, events, keepDead, owner) ==> r.requestUuid != id
  {
    if events != [] {
      var init := events[..|events| - 1];
      AcceptedIds(s, init, keepDead, owner, id);
      hide Run;
      assert events[|events| - 1] in events;
    }
  }

  lemma {:induction false} AcceptedFirst(s: State, first: Event, events: seq<Event>, keepDead: bool, owner: string)
    ensures AllAccepted(s, [first] + events, keepDead, owner)
         == Accepted(s, first, owner) + AllAccepted(Step(s, first, keepDead).0, events, keepDead, owner)
  {
    hide Step, Accepted;
    var all := [first] + events;
    assert [first][..0] == [];
    if events == [] {
      assert all == [first] && all[..0] == [];
      assert [] + Accepted(s, first, owner) == Accepted(s, first, owner) + [];
    } else {
      var init, last := events[..|events| - 1], events[|events| - 1];
      AcceptedFirst(s, first, init, keepDead, owner);
      assert all[..|all| - 1] == [first] + init;
      RunAppend(s, [first], init, keepDead);
      var before := Step(s, first, keepDead).0;
      assert Run(s, [first], keepDead) == before;
      assert Accepted(s, first, owner) + (AllAccepted(before, init, keepDead, owner) + Accepted(Run(before, init, keepDead), last, owner))
          == Accepted(s, first, owner) + AllAccepted(before, init, keepDead, owner) + Accepted(Run(before, init, keepDead), last, owner);
    }
  }

  /**
   Whenever a request with the fresh id comes to the head of A's queue, however
   many events later, it is B's request, whole: asker, key, body and id.
   */
  lemma QueuedRequestIsTheOneAsked(s: State, asker: string, owner: string, request: bytes, key: bytes, id: bytes,
                                   events: seq<Event>, keepDead: bool)
    requires asker in s.clients.vals && owner in s.clients.vals && Latin1(asker) && Latin1(owner)
    requires forall r :: r in Inbox(s, owner) ==> r.requestUuid != id
    requires IdUnused(events, id)
    requires Stays(s, [Issued(asker, PutInbox(Encode(owner), request, key), id)] + events, keepDead, owner)
    ensures var t := Run(s, [Issued(asker, PutInbox(Encode(owner), request, key), id)] + events, keepDead);
            forall r :: r in Inbox(t, owner) && r.requestUuid == id ==> r == Request(Encode(asker), key, request, id)
  {
    var put := Issued(asker, PutInbox(Encode(owner), request, key), id);
    var all := [put] + events;
    DecodeEncode(owner);
    InboxConserved(s, all, keepDead, owner);
    AcceptedFirst(s, put, events, keepDead, owner);
    AcceptedIds(Step(s, put, keepDead).0, events, keepDead, owner, id);
    hide Run, Step, AllAccepted, AllTaken;
    var t := Run(s, all, keepDead);
    var rest := AllAccepted(Step(s, put, keepDead).0, events, keepDead, owner);
    forall r | r in Inbox(t, owner) && r.requestUuid == id
      ensures r == Request(Encode(asker), key, request, id)
    {
      assert r in AllTaken(s, all, keepDead, owner) + Inbox(t, owner);
      assert r in Inbox(s, owner) + (Accepted(s, put, owner) + rest);
    }
  }

  // ----- The response -----

  /** These events neither rewrite nor read the slot. */
  ghost predicate Untouched(events: seq<Event>, uuid: string, requestUuid: bytes) {
    forall i, r :: 0 <= i < |events| ==> Stored(events[i], uuid, requestUuid, r) == r
  }

  lemma {:induction false} UntouchedKeeps(first: Event, events: seq<Event>, start: Option<Response>, uuid: string, requestUuid: bytes)
    requires Untouched(events, uuid, requestUuid)
    ensures LastResponse(start, [first] + events, uuid, requestUuid) == Stored(first, uuid, requestUuid, start)
  {
    hide Stored;
    var all := [first] + events;
    if events == [] {
      assert all == [first] && all[..0] == [];
    } else {
      var init := events[..|events| - 1];
      assert forall i :: 0 <= i < |init| ==> init[i] == events[i];
      UntouchedKeeps(first, init, start, uuid, requestUuid);
      assert all[..|all| - 1] == [first] + init && all[|all| - 1] == events[|events| - 1];
    }
  }

  /**
   Two readings of a slot, through the receive loop and the decoder: the first gives the
   response exactly if it is not wholly empty and its key has no ERR length, the second an error.
   */
  lemma ReadSlotTwice(s: State, asker: string, requestUuid: bytes, response: Response, id: bytes, keepDead: bool)
    requires asker in s.clients.vals && Slot(s, asker, requestUuid) == Some(response) && response.responseUuid == requestUuid
    requires Fit(ResponseParts(response))
    ensures var read := GetOutbox(requestUuid);
            var heard := Call(s, asker, read, id, keepDead);
            var after := Serve(s, asker, read, id, keepDead).0;
            && (heard.Returns? && ReadOutboxReply(heard.payload, requestUuid) == Ok(response) <==>
                |response.key| + |response.response| > 0 && !ErrLength(|response.key|))
            && asker in after.clients.vals
            && Call(after, asker, read, id, keepDead) == Returns(ERR_UUID)
            && ReadOutboxReply(ERR_UUID, requestUuid) == Err(RuntimeFault)
  {
    hide Fatal, WriteParts, Lengths, Join, ReadOutboxReply, Fit, EncodeCommand, ParseCommand;
    ReadOutboxReturnsIff(s, asker, requestUuid, response, id, keepDead);
    ReadOutboxOfNothing(Serve(s, asker, GetOutbox(requestUuid), id, keepDead).0, asker, requestUuid, id, keepDead);
  }

  /**
   A answers the request it read with the UUIDs it carries; B then reads exactly A's key
   and response, once, whatever else happened that did not touch that slot, exactly if they
   are not both empty and the key has no ERR length.
   */
  lemma ResponseReachesAsker(s: State, owner: string, asker: string, request: Request, response: bytes, key: bytes,
                             id: bytes, events: seq<Event>, keepDead: bool)
    requires owner in s.clients.vals && asker in s.clients.vals && Latin1(asker)
    requires request.returnUuid == Encode(asker)
    requires Fit([request.returnUuid, response, key, request.requestUuid])
    requires Untouched(events, asker, request.requestUuid)
    requires Stays(s, [Issued(owner, PutOutbox(request.returnUuid, response, key, request.requestUuid), id)] + events, keepDead, asker)
    ensures var answer := PutOutbox(request.returnUuid, response, key, request.requestUuid);
            var t := Run(s, [Issued(owner, answer, id)] + events, keepDead);
            var read := GetOutbox(request.requestUuid);
            var heard := Call(t, asker, read, id, keepDead);
            && ParseCommand(EncodeCommand(answer)) == answer
            && Call(s, owner, answer, id, keepDead) == Returns(ACK)
            && (heard.Returns? && ReadOutboxReply(heard.payload, request.requestUuid) == Ok(Response(key, response, request.requestUuid))
                <==> |key| + |response| > 0 && !ErrLength(|key|))
            && Call(Serve(t, asker, read, id, keepDead).0, asker, read, id, keepDead) == Returns(ERR_UUID)
  {
    hide Run, LastResponse, Fatal, EncodeCommand, ParseCommand, ReadOutboxReply, Fit;
    var answer := PutOutbox(request.returnUuid, response, key, request.requestUuid);
    var all := [Issued(owner, answer, id)] + events;
    DecodeEncode(asker);
    CommandRoundTrip(answer);
    AcknowledgedIsHeard(s, owner, answer, id, keepDead);
    OutboxHoldsLastResponse(s, all, keepDead, asker, request.requestUuid);
    UntouchedKeeps(Issued(owner, answer, id), events, Slot(s, asker, request.requestUuid), asker, request.requestUuid);
    StaysNow(s, all, keepDead, asker);
    var whole := Response(key, response, request.requestUuid);
    FitTwo([request.returnUuid, response, key, request.requestUuid], whole);
    ReadSlotTwice(Run(s, all, keepDead), asker, request.requestUuid, whole, id, keepDead);
  }

  lemma FitTwo(parts: seq<bytes>, r: Response)
    requires Fit(parts) && |parts| == 4 && parts[1] == r.response && parts[2] == r.key
    ensures Fit(ResponseParts(r))
  {
  }

  // ----- The whole call -----

  /** The events up to A's reading, up to A's answer, and up to B's reading. */
  function UntilRead(put: Event, ev1: seq<Event>): seq<Event> {
    [put] + ev1
  }

  function UntilAnswer(put: Event, ev1: seq<Event>, read: Event, ev2: seq<Event>): seq<Event> {
    UntilRead(put, ev1) + ([read] + ev2)
  }

  function UntilEnd(put: Event, ev1: seq<Event>, read: Event, ev2: seq<Event>, answer: Event, ev3: seq<Event>): seq<Event> {
    UntilAnswer(put, ev1, read, ev2) + ([answer] + ev3)
  }

  /**
   B asks; after any events A reads the request with that id; after any events A answers
   with what it decoded; after any events that leave the slot alone B reads.
   B is told the id exactly if that passes the ERR test. A gets B's request, whole, exactly if
   its connection has lasted. B is told the id and gets A's key and response exactly if the id
   passes, its connection has lasted or been renewed, and the decoder's conditions hold.
   */
  lemma RemoteCall(s: State, asker: string, owner: string, request: bytes, key: bytes, id: bytes, ev1: seq<Event>,
                   readId: bytes, ev2: seq<Event>, response: bytes, answerKey: bytes, answerId: bytes, ev3: seq<Event>, keepDead: bool)
    requires asker in s.clients.vals && owner in s.clients.vals && Latin1(asker) && Latin1(owner) && |asker| == UUID_LENGTH
    requires id != [] && forall r :: r in Inbox(s, owner) ==> r.requestUuid != id
    requires IdUnused(ev1, id) && Untouched(ev3, asker, id) && Fit([Encode(owner), request, key])
    requires Fit([Encode(asker), request, key, id]) && Fit([Encode(asker), response, answerKey, id])
    requires var put := Issued(asker, PutInbox(Encode(owner), request, key), id);
             var read := Issued(owner, GetInbox, readId);
             var answer := Issued(owner, PutOutbox(Encode(asker), response, answerKey, id), answerId);
             && Stays(s, UntilRead(put, ev1), keepDead, owner)
             && Inbox(Run(s, UntilRead(put, ev1), keepDead), owner) != []
             && Inbox(Run(s, UntilRead(put, ev1), keepDead), owner)[0].requestUuid == id
             && owner in Run(s, UntilAnswer(put, ev1, read, ev2), keepDead).clients.vals
             && Stays(s, UntilEnd(put, ev1, read, ev2, answer, ev3), keepDead, asker)
    ensures var put := Issued(asker, PutInbox(Encode(owner), request, key), id);
            var read := Issued(owner, GetInbox, readId);
            var answer := Issued(owner, PutOutbox(Encode(asker), response, answerKey, id), answerId);
            var all := UntilEnd(put, ev1, read, ev2, answer, ev3);
            var told := HeardAfter(s, [], asker, put.command, id, keepDead);
            var asked := HeardAfter(s, UntilRead(put, ev1), owner, GetInbox, readId, keepDead);
            var answered := HeardAfter(s, all, asker, GetOutbox(id), answerId, keepDead);
            && (told == Returns(id) <==> !Fatal(id))
            && (asked.Returns? && ReadInboxReply(asked.payload) == Ok(Request(Encode(asker), key, request, id))
                <==> Connected(s, UntilRead(put, ev1), keepDead, owner))
            && (told == Returns(id) && answered.Returns? && ReadOutboxReply(answered.payload, id) == Ok(Response(answerKey, response, id))
                <==> !Fatal(id) && Connected(s, all, keepDead, asker) && |answerKey| + |response| > 0 && !ErrLength(|answerKey|))
  {
    hide Run, Stays, Fatal, EncodeCommand, ParseCommand, ReadOutboxReply, ReadInboxReply, Fit, Call, IdUnused, Untouched, Connected;
    var put := Issued(asker, PutInbox(Encode(owner), request, key), id);
    var read := Issued(owner, GetInbox, readId);
    var answer := Issued(owner, PutOutbox(Encode(asker), response, answerKey, id), answerId);
    AskerIsTold(s, asker, owner, request, key, id, keepDead);
    OwnerIsAsked(s, asker, owner, request, key, id, ev1, readId, keepDead);
    AnswerIsRead(s, put, ev1, read, ev2, owner, asker, Request(Encode(asker), key, request, id), response, answerKey, answerId, ev3,
                 keepDead);
  }

  lemma AskerIsTold(s: State, asker: string, owner: string, request: bytes, key: bytes, id: bytes, keepDead: bool)
    requires asker in s.clients.vals && owner in s.clients.vals && Latin1(asker) && Latin1(owner) && id != []
    requires Fit([Encode(owner), request, key])
    ensures HeardAfter(s, [], asker, PutInbox(Encode(owner), request, key), id, keepDead) == if Fatal(id) then LoopDies else Returns(id)
  {
    hide Fatal, Call;
    RequestAccepted(s, asker, owner, request, key, id, keepDead);
    assert Connected(s, [], keepDead, asker) && Run(s, [], keepDead) == s;
  }

  lemma OwnerIsAsked(s: State, asker: string, owner: string, request: bytes, key: bytes, id: bytes, ev1: seq<Event>,
                     readId: bytes, keepDead: bool)
    requires asker in s.clients.vals && owner in s.clients.vals && Latin1(asker) && Latin1(owner) && |asker| == UUID_LENGTH
    requires forall r :: r in Inbox(s, owner) ==> r.requestUuid != id
    requires IdUnused(ev1, id) && Fit([Encode(asker), request, key, id])
    requires var put := Issued(asker, PutInbox(Encode(owner), request, key), id);
             && Stays(s, UntilRead(put, ev1), keepDead, owner)
             && Inbox(Run(s, UntilRead(put, ev1), keepDead), owner) != []
             && Inbox(Run(s, UntilRead(put, ev1), keepDead), owner)[0].requestUuid == id
    ensures var put := Issued(asker, PutInbox(Encode(owner), request, key), id);
            var asked := HeardAfter(s, UntilRead(put, ev1), owner, GetInbox, readId, keepDead);
            asked.Returns? && ReadInboxReply(asked.payload) == Ok(Request(Encode(asker), key, request, id))
            <==> Connected(s, UntilRead(put, ev1), keepDead, owner)
  {
    hide Run, Stays, Fatal, ReadInboxReply, Fit, Call, IdUnused, Connected;
    var put := Issued(asker, PutInbox(Encode(owner), request, key), id);
    var t := Run(s, UntilRead(put, ev1), keepDead);
    QueuedRequestIsTheOneAsked(s, asker, owner, request, key, id, ev1, keepDead);
    StaysNow(s, UntilRead(put, ev1), keepDead, owner);
    assert Inbox(t, owner)[0] in Inbox(t, owner);
    FitRequest(Request(Encode(asker), key, request, id));
    ReadInboxReturnsIff(t, owner, readId, keepDead);
  }

  /** The answer, read in the tables it has made its way to. */
  lemma AnswerIsRead(s: State, put: Event, ev1: seq<Event>, read: Event, ev2: seq<Event>, owner: string, asker: string,
                     request: Request, response: bytes, answerKey: bytes, answerId: bytes, ev3: seq<Event>, keepDead: bool)
    requires Latin1(asker) && request.returnUuid == Encode(asker)
    requires Fit([request.returnUuid, response, answerKey, request.requestUuid]) && Untouched(ev3, asker, request.requestUuid)
    requires var answer := Issued(owner, PutOutbox(request.returnUuid, response, answerKey, request.requestUuid), answerId);
             && owner in Run(s, UntilAnswer(put, ev1, read, ev2), keepDead).clients.vals
             && Stays(s, UntilEnd(put, ev1, read, ev2, answer, ev3), keepDead, asker)
    ensures var answer := Issued(owner, PutOutbox(request.returnUuid, response, answerKey, request.requestUuid), answerId);
            var heard := Call(Run(s, UntilEnd(put, ev1, read, ev2, answer, ev3), keepDead), asker, GetOutbox(request.requestUuid), answerId,
                              keepDead);
            heard.Returns? && ReadOutboxReply(heard.payload, request.requestUuid) == Ok(Response(answerKey, response, request.requestUuid))
            <==> |answerKey| + |response| > 0 && !ErrLength(|answerKey|)
  {
    hide Run, Stays, Fatal, EncodeCommand, ParseCommand, ReadOutboxReply, Fit, Call, Untouched;
    var answer := Issued(owner, PutOutbox(request.returnUuid, response, answerKey, request.requestUuid), answerId);
    var t := Run(s, UntilAnswer(put, ev1, read, ev2), keepDead);
    StaysSplit(s, UntilAnswer(put, ev1, read, ev2), [answer] + ev3, keepDead, asker);
    StaysNow(s, UntilAnswer(put, ev1, read, ev2), keepDead, asker);
    RunAppend(s, UntilAnswer(put, ev1, read, ev2), [answer] + ev3, keepDead);
    ResponseReachesAsker(t, owner, asker, request, response, answerKey, answerId, ev3, keepDead);
  }

  lemma FitRequest(r: Request)
    requires Fit([r.returnUuid, r.request, r.key, r.requestUuid])
    ensures Fit(RequestParts(r))
  {
  }
}
