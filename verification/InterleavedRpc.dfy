/** A remote call among interleaved handlers: the packet the asker's handler sends last carries the owner's answer. */
module InterleavedRpc {
  import opened Wrappers
  import opened Bytes
  import opened Tables
  import opened Wire
  import opened Runs
  import opened History
  import opened Interleaving
  import opened Replies
  import opened Rpc

  /** The last packet a session has been sent is what the last event of the history answers, if that was its own. */
  lemma LastIsOwed(s0: State, n: Net, before: seq<Event>, e: Event, uuid: string, keepDead: bool)
    requires Inv(s0, n, keepDead) && n.history == before + [e] && By(e, uuid)
    requires uuid in n.handlers && !n.handlers[uuid].phase.Halted? && n.handlers[uuid].start <= |before|
    requires IsPacket(Step(Run(s0, before, keepDead), e, keepDead).1)
    ensures var sent := n.handlers[uuid].replies + InFlight(n.handlers[uuid]);
            sent != [] && sent[|sent| - 1] == Step(Run(s0, before, keepDead), e, keepDead).1
  {
    hide Step, Run, Owed;
    var h := n.handlers[uuid];
    assert Answered(s0, n.history, uuid, h, keepDead);
    OwedGrows(s0, before, e, h.start, uuid, keepDead);
  }

  /**
   The whole call, in any run of any handlers: B's PUT_INBOX, anything, A's GET_INBOX of that request,
   anything, A's PUT_OUTBOX, anything that leaves the slot alone, B's GET_OUTBOX. The packet B's handler
   sends for the last is read by B's client as A's answer, exactly under the conditions of `RemoteCall`.
   */
  lemma InterleavedCall(s0: State, moves: seq<Move>, n: Net, before: seq<Event>, asker: string, owner: string, request: bytes,
                        key: bytes, id: bytes, ev1: seq<Event>, readId: bytes, ev2: seq<Event>, response: bytes, answerKey: bytes,
                        answerId: bytes, ev3: seq<Event>, keepDead: bool)
    requires Moves(Started(s0), moves, n, keepDead)
    requires Latin1(asker) && Latin1(owner) && Untouched(ev3, asker, id)
    requires Fit([Encode(asker), response, answerKey, id])
    requires var put := Issued(asker, PutInbox(Encode(owner), request, key), id);
             var read := Issued(owner, GetInbox, readId);
             var answer := Issued(owner, PutOutbox(Encode(asker), response, answerKey, id), answerId);
             var s, all := Run(s0, before, keepDead), UntilEnd(put, ev1, read, ev2, answer, ev3);
             && n.history == before + all + [Issued(asker, GetOutbox(id), answerId)]
             && asker in n.handlers && !n.handlers[asker].phase.Halted? && n.handlers[asker].start <= |before + all|
             && owner in Run(s, UntilAnswer(put, ev1, read, ev2), keepDead).clients.vals
             && Stays(s, all, keepDead, asker)
    ensures var sent := n.handlers[asker].replies + InFlight(n.handlers[asker]);
            && sent != []
            && var heard := Hear(sent[|sent| - 1]);
               (heard.Returns? && ReadOutboxReply(heard.payload, id) == Ok(Response(answerKey, response, id))
                <==> |answerKey| + |response| > 0 && !ErrLength(|answerKey|))
  {
    hide *;
    var put := Issued(asker, PutInbox(Encode(owner), request, key), id);
    var read := Issued(owner, GetInbox, readId);
    var answer := Issued(owner, PutOutbox(Encode(asker), response, answerKey, id), answerId);
    var s, all := Run(s0, before, keepDead), UntilEnd(put, ev1, read, ev2, answer, ev3);
    var last := Issued(asker, GetOutbox(id), answerId);
    AnswerIsRead(s, put, ev1, read, ev2, owner, asker, Request(Encode(asker), key, request, id), response, answerKey, answerId, ev3,
                 keepDead);
    RunAppend(s0, before, all, keepDead);
    EveryRunLinearises(s0, moves, n, keepDead);
    AnswerIsPacket(s, put, ev1, read, ev2, owner, asker, Request(Encode(asker), key, request, id), response, answerKey, answerId, ev3,
                   keepDead);
    LastIsBy(asker, GetOutbox(id), answerId);
    LastIsOwed(s0, n, before + all, last, asker, keepDead);
  }

  lemma LastIsBy(uuid: string, command: Command, id: bytes)
    ensures By(Issued(uuid, command, id), uuid)
  {
  }

  /** The reading is answered with a packet, and what the client hears of it is that packet. */
  lemma AnswerIsPacket(s: State, put: Event, ev1: seq<Event>, read: Event, ev2: seq<Event>, owner: string, asker: string,
                       request: Request, response: bytes, answerKey: bytes, answerId: bytes, ev3: seq<Event>, keepDead: bool)
    requires Latin1(asker) && request.returnUuid == Encode(asker)
    requires Fit([request.returnUuid, response, answerKey, request.requestUuid]) && Untouched(ev3, asker, request.requestUuid)
    requires var answer := Issued(owner, PutOutbox(request.returnUuid, response, answerKey, request.requestUuid), answerId);
             && owner in Run(s, UntilAnswer(put, ev1, read, ev2), keepDead).clients.vals
             && Stays(s, UntilEnd(put, ev1, read, ev2, answer, ev3), keepDead, asker)
    ensures var answer := Issued(owner, PutOutbox(request.returnUuid, response, answerKey, request.requestUuid), answerId);
            var t := Run(s, UntilEnd(put, ev1, read, ev2, answer, ev3), keepDead);
            var out := Step(t, Issued(asker, GetOutbox(request.requestUuid), answerId), keepDead).1;
            IsPacket(out) && Hear(out) == Call(t, asker, GetOutbox(request.requestUuid), answerId, keepDead)
  {
    hide Run, Stays, Fatal, EncodeCommand, ParseCommand, Fit, Untouched;
    var answer := Issued(owner, PutOutbox(request.returnUuid, response, answerKey, request.requestUuid), answerId);
    var t := Run(s, UntilAnswer(put, ev1, read, ev2), keepDead);
    StaysSplit(s, UntilAnswer(put, ev1, read, ev2), [answer] + ev3, keepDead, asker);
    StaysNow(s, UntilAnswer(put, ev1, read, ev2), keepDead, asker);
    RunAppend(s, UntilAnswer(put, ev1, read, ev2), [answer] + ev3, keepDead);
    SlotHolds(t, owner, asker, request, response, answerKey, answerId, ev3, keepDead);
  }

  lemma SlotHolds(t: State, owner: string, asker: string, request: Request, response: bytes, answerKey: bytes, answerId: bytes,
                  ev3: seq<Event>, keepDead: bool)
    requires Latin1(asker) && request.returnUuid == Encode(asker) && owner in t.clients.vals && asker in t.clients.vals
    requires Fit([request.returnUuid, response, answerKey, request.requestUuid]) && Untouched(ev3, asker, request.requestUuid)
    requires var answer := Issued(owner, PutOutbox(request.returnUuid, response, answerKey, request.requestUuid), answerId);
             Stays(t, [answer] + ev3, keepDead, asker)
    ensures var answer := Issued(owner, PutOutbox(request.returnUuid, response, answerKey, request.requestUuid), answerId);
            var u := Run(t, [answer] + ev3, keepDead);
            var out := Step(u, Issued(asker, GetOutbox(request.requestUuid), answerId), keepDead).1;
            IsPacket(out) && Hear(out) == Call(u, asker, GetOutbox(request.requestUuid), answerId, keepDead)
  {
    var answer := Issued(owner, PutOutbox(request.returnUuid, response, answerKey, request.requestUuid), answerId);
    var u := Run(t, [answer] + ev3, keepDead);
    hide Run, Stays, Fatal, EncodeCommand, ParseCommand, Untouched;
    DecodeEncode(asker);
    OutboxHoldsLastResponse(t, [answer] + ev3, keepDead, asker, request.requestUuid);
    UntouchedKeeps(answer, ev3, Slot(t, asker, request.requestUuid), asker, request.requestUuid);
    StaysNow(t, [answer] + ev3, keepDead, asker);
    CommandRoundTrip(GetOutbox(request.requestUuid));
    FitTwo([request.returnUuid, response, answerKey, request.requestUuid], Response(answerKey, response, request.requestUuid));
  }
}
