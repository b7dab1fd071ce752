/**
 What a client can rely on over a whole run: the database answers with the last
 write, mailboxes neither lose nor reorder requests, responses reach the asker.
 */
module History {
  import opened Wrappers
  import opened Bytes
  import opened Dicts
  import opened Tables
  import opened Wire
  import opened Commands
  import opened Runs

  function Find<K(==), V>(m: map<K, V>, k: K): Option<V> {
    if k in m then Some(m[k]) else None
  }

  // ===== The database =====

  /** The effect of one event on one key. */
  function Written(e: Event, key: bytes, before: Option<bytes>): Option<bytes> {
    match e
    case Issued(_, Set(k, value), _) => if k == key then Some(value) else before
    case Issued(_, Delete(k), _) => if k == key then None else before
    case DbSet(k, value) => if k == key then Some(value) else before
    case DbRemoved(k) => if k == key then None else before
    case _ => before
  }

  /** What the last write of this key left, read off the events alone. */
  function LastValue(start: Option<bytes>, events: seq<Event>, key: bytes): Option<bytes> {
    if events == [] then start
    else Written(events[|events| - 1], key, LastValue(start, events[..|events| - 1], key))
  }

  lemma DbServe(s: State, uuid: string, command: Command, id: bytes, keepDead: bool, key: bytes)
    ensures Find(Serve(s, uuid, command, id, keepDead).0.db.vals, key) == Written(Issued(uuid, command, id), key, Find(s.db.vals, key))
  {
  }

  lemma DbStep(s: State, e: Event, keepDead: bool, key: bytes)
    ensures Find(Step(s, e, keepDead).0.db.vals, key) == Written(e, key, Find(s.db.vals, key))
  {
    hide Serve;
    match e
    case Issued(uuid, command, id) => DbServe(s, uuid, command, id, keepDead, key);
    case _ =>
  }

  /** However the handlers interleave, a key holds what the last write left. */
  lemma {:induction false} DbHoldsLastWrite(s: State, events: seq<Event>, keepDead: bool, key: bytes)
    ensures Find(Run(s, events, keepDead).db.vals, key) == LastValue(Find(s.db.vals, key), events, key)
  {
    hide Step, Written;
    if events != [] {
      var init := events[..|events| - 1];
      DbHoldsLastWrite(s, init, keepDead, key);
      DbStep(Run(s, init, keepDead), events[|events| - 1], keepDead, key);
    }
  }

  /** The value a GET returns, on the wire: the last SET not since deleted; an empty one kills the handler. */
  lemma GetAnswers(s: State, events: seq<Event>, keepDead: bool, uuid: string, key: bytes, id: bytes)
    requires uuid in Run(s, events, keepDead).clients.vals
    ensures Serve(Run(s, events, keepDead), uuid, ParseCommand(EncodeCommand(Get(key))), id, keepDead).1 ==
              match LastValue(Find(s.db.vals, key), events, key) {
                case None => Reply(ERR_KEY)
                case Some(value) => if value == [] then Crash else Reply(value)
              }
  {
    hide Run, LastValue;
    CommandRoundTrip(Get(key));
    DbHoldsLastWrite(s, events, keepDead, key);
  }

  /** LIST shows, for every key, what the last write left, and no key twice. */
  lemma ListAnswers(s: State, events: seq<Event>, keepDead: bool, uuid: string, key: bytes, id: bytes)
    requires uuid in Run(s, events, keepDead).clients.vals
    ensures var out := Serve(Run(s, events, keepDead), uuid, ParseCommand(EncodeCommand(List)), id, keepDead).1;
            out.Listing? && Distinct(out.contents.keys) &&
            Find(out.contents.vals, key) == LastValue(Find(s.db.vals, key), events, key)
  {
    hide Run, LastValue;
    CommandRoundTrip(List);
    DbHoldsLastWrite(s, events, keepDead, key);
    KeysOf(Run(s, events, keepDead).db);
  }

  // ===== Inboxes =====

  function Inbox(s: State, uuid: string): seq<Request> {
    if uuid in s.clients.vals then s.clients.vals[uuid].inbox else []
  }

  /** The client stays, and is not replaced, through the events. */
  ghost predicate Stays(s: State, events: seq<Event>, keepDead: bool, uuid: string) {
    uuid in s.clients.vals &&
    (events == [] ||
     (Stays(s, events[..|events| - 1], keepDead, uuid) &&
      uuid in Run(s, events, keepDead).clients.vals && events[|events| - 1] != LoggedIn(uuid)))
  }

  /** What this event adds to the inbox: a PUT_INBOX the server accepts. */
  function Accepted(s: State, e: Event, uuid: string): seq<Request> {
    match e
    case Issued(sender, PutInbox(target, request, key), id) =>
      if Decode(target) == uuid && uuid in s.clients.vals && Latin1(sender) then
        [Request(Encode(sender), key, request, id)]
      else []
    case _ => []
  }

  /** What this event takes out: a GET_INBOX by the owner, or a checkpoint. */
  function Taken(s: State, e: Event, uuid: string): seq<Request> {
    match e
    case Issued(owner, GetInbox, _) => if owner == uuid then Take(Inbox(s, uuid), 1) else []
    case Drain(owner, taken) => if owner == uuid then Take(Inbox(s, uuid), taken) else []
    case _ => []
  }

  function AllAccepted(s: State, events: seq<Event>, keepDead: bool, uuid: string): seq<Request> {
    if events == [] then []
    else
      var init := events[..|events| - 1];
      AllAccepted(s, init, keepDead, uuid) + Accepted(Run(s, init, keepDead), events[|events| - 1], uuid)
  }

  function AllTaken(s: State, events: seq<Event>, keepDead: bool, uuid: string): seq<Request> {
    if events == [] then []
    else
      var init := events[..|events| - 1];
      AllTaken(s, init, keepDead, uuid) + Taken(Run(s, init, keepDead), events[|events| - 1], uuid)
  }

  lemma InboxStep(s: State, e: Event, keepDead: bool, uuid: string)
    requires uuid in s.clients.vals && uuid in Step(s, e, keepDead).0.clients.vals && e != LoggedIn(uuid)
    ensures Inbox(s, uuid) + Accepted(s, e, uuid) == Taken(s, e, uuid) + Inbox(Step(s, e, keepDead).0, uuid)
  {
    hide Serve;
    match e
    case Issued(owner, command, id) => InboxServe(s, owner, command, id, keepDead, uuid);
    case _ =>
  }

  lemma InboxServe(s: State, owner: string, command: Command, id: bytes, keepDead: bool, uuid: string)
    requires uuid in s.clients.vals && uuid in Serve(s, owner, command, id, keepDead).0.clients.vals
    ensures var e := Issued(owner, command, id);
            Inbox(s, uuid) + Accepted(s, e, uuid) == Taken(s, e, uuid) + Inbox(Serve(s, owner, command, id, keepDead).0, uuid)
  {
    hide Answer, Text, Encode, Decode, InboxReply, OutboxReply, RemoveFirst, Depart;
    DepartInbox(s, owner, keepDead, uuid);
    var inbox := Inbox(s, uuid);
    match command
    case GetInbox =>
      if owner == uuid && inbox != [] {
        assert inbox == inbox[..1] + inbox[1..];
      }
    case _ =>
  }

  lemma DepartInbox(s: State, owner: string, keepDead: bool, uuid: string)
    requires uuid in s.clients.vals
    ensures uuid in Depart(s, owner, keepDead).clients.vals ==> Depart(s, owner, keepDead).clients.vals[uuid] == s.clients.vals[uuid]
  {
  }

  lemma InboxArithmetic<T>(start: seq<T>, accepted: seq<T>, taken: seq<T>, mid: seq<T>, a: seq<T>, t: seq<T>, end: seq<T>)
    requires start + accepted == taken + mid && mid + a == t + end
    ensures start + (accepted + a) == (taken + t) + end
  {
    assert start + (accepted + a) == (start + accepted) + a;
    assert (taken + mid) + a == taken + (mid + a);
    assert (taken + t) + end == taken + (t + end);
  }

  /**
   Conservation, in order: what was queued and accepted is what was taken,
   followed by what is still queued. Nothing is lost, doubled or reordered.
   */
  lemma {:induction false} InboxConserved(s: State, events: seq<Event>, keepDead: bool, uuid: string)
    requires Stays(s, events, keepDead, uuid)
    ensures Inbox(s, uuid) + AllAccepted(s, events, keepDead, uuid)
         == AllTaken(s, events, keepDead, uuid) + Inbox(Run(s, events, keepDead), uuid)
  {
    if events != [] {
      var init, e := events[..|events| - 1], events[|events| - 1];
      InboxConserved(s, init, keepDead, uuid);
      StaysNow(s, init, keepDead, uuid);
      var mid := Run(s, init, keepDead);
      InboxStep(mid, e, keepDead, uuid);
      hide Step, Accepted, Taken;
      InboxArithmetic(Inbox(s, uuid), AllAccepted(s, init, keepDead, uuid), AllTaken(s, init, keepDead, uuid),
                      Inbox(mid, uuid), Accepted(mid, e, uuid), Taken(mid, e, uuid), Inbox(Run(s, events, keepDead), uuid));
    }
  }

  lemma {:induction false} StaysSplit(s: State, a: seq<Event>, b: seq<Event>, keepDead: bool, uuid: string)
    requires Stays(s, a + b, keepDead, uuid)
    ensures Stays(s, a, keepDead, uuid) && Stays(Run(s, a, keepDead), b, keepDead, uuid)
  {
    hide Run;
    if b == [] {
      assert a + b == a;
      StaysNow(s, a, keepDead, uuid);
    } else {
      var init := b[..|b| - 1];
      assert (a + b)[..|a + b| - 1] == a + init && (a + b)[|a + b| - 1] == b[|b| - 1];
      StaysSplit(s, a, init, keepDead, uuid);
      RunAppend(s, a, b, keepDead);
    }
  }

  lemma StaysNow(s: State, events: seq<Event>, keepDead: bool, uuid: string)
    requires Stays(s, events, keepDead, uuid)
    ensures uuid in Run(s, events, keepDead).clients.vals
  {
  }

  /** What GET_INBOX takes is what its reply tells the client's decoder, unless a part is 4 GiB long. */
  lemma GetInboxDelivers(s: State, uuid: string, id: bytes, keepDead: bool)
    requires uuid in s.clients.vals && Inbox(s, uuid) != []
    requires Fit(RequestParts(Inbox(s, uuid)[0]))
    ensures var out := Serve(s, uuid, ParseCommand(EncodeCommand(GetInbox)), id, keepDead).1;
            out.Reply? && ReadInboxReply(out.payload) == Ok(Inbox(s, uuid)[0]) &&
            Taken(s, Issued(uuid, GetInbox, id), uuid) == [Inbox(s, uuid)[0]]
  {
    CommandRoundTrip(GetInbox);
    InboxReplyRoundTrip(Inbox(s, uuid)[0]);
  }

  // ===== Outboxes =====

  function Slot(s: State, uuid: string, requestUuid: bytes): Option<Response> {
    if uuid in s.clients.vals then Find(s.clients.vals[uuid].outbox.vals, requestUuid) else None
  }

  /** The effect of one event on one slot of a client's outbox. */
  function Stored(e: Event, uuid: string, requestUuid: bytes, before: Option<Response>): Option<Response> {
    match e
    case Issued(_, PutOutbox(target, response, key, id), _) =>
      if Decode(target) == uuid && id == requestUuid then Some(Response(key, response, id)) else before
    case Issued(reader, GetOutbox(id), _) => if reader == uuid && id == requestUuid then None else before
    case _ => before
  }

  /** What the last PUT_OUTBOX for this id left, unless it was read since. */
  function LastResponse(start: Option<Response>, events: seq<Event>, uuid: string, requestUuid: bytes): Option<Response> {
    if events == [] then start
    else Stored(events[|events| - 1], uuid, requestUuid, LastResponse(start, events[..|events| - 1], uuid, requestUuid))
  }

  lemma SlotServe(s: State, owner: string, command: Command, id: bytes, keepDead: bool, uuid: string, requestUuid: bytes)
    requires uuid in s.clients.vals && uuid in Serve(s, owner, command, id, keepDead).0.clients.vals
    ensures Slot(Serve(s, owner, command, id, keepDead).0, uuid, requestUuid)
         == Stored(Issued(owner, command, id), uuid, requestUuid, Slot(s, uuid, requestUuid))
  {
    hide Answer, Text, Encode, Decode, InboxReply, OutboxReply, RemoveFirst, Depart;
    DepartInbox(s, owner, keepDead, uuid);
  }

  lemma SlotStep(s: State, e: Event, keepDead: bool, uuid: string, requestUuid: bytes)
    requires uuid in s.clients.vals && uuid in Step(s, e, keepDead).0.clients.vals && e != LoggedIn(uuid)
    ensures Slot(Step(s, e, keepDead).0, uuid, requestUuid) == Stored(e, uuid, requestUuid, Slot(s, uuid, requestUuid))
  {
    hide Serve;
    match e
    case Issued(owner, command, id) => SlotServe(s, owner, command, id, keepDead, uuid, requestUuid);
    case _ =>
  }

  /** A slot holds the last response written for its id; reading it empties it. */
  lemma {:induction false} OutboxHoldsLastResponse(s: State, events: seq<Event>, keepDead: bool, uuid: string, requestUuid: bytes)
    requires Stays(s, events, keepDead, uuid)
    ensures Slot(Run(s, events, keepDead), uuid, requestUuid) == LastResponse(Slot(s, uuid, requestUuid), events, uuid, requestUuid)
  {
    hide Step, Stored;
    if events != [] {
      var init := events[..|events| - 1];
      OutboxHoldsLastResponse(s, init, keepDead, uuid, requestUuid);
      StaysNow(s, init, keepDead, uuid);
      SlotStep(Run(s, init, keepDead), events[|events| - 1], keepDead, uuid, requestUuid);
    }
  }
}
