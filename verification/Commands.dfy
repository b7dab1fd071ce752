/**
 What each command and each administrative call does to the tables, and what it
 answers: the specification the methods of `Server` are proved against, one
 function per branch of `handle_client`.
 */
module Commands {
  import opened Wrappers
  import opened Bytes
  import opened Dicts
  import opened Packets
  import opened Tables
  import opened Wire

  const ERR_COMMAND: bytes := ErrorReply(4)
  const ERR_KEY: bytes := ErrorReply(5)
  const ERR_UUID: bytes := ErrorReply(7)
  const UUID_LENGTH := 36

  datatype Outcome =
    | Reply(payload: bytes)                           // one packet with this payload
    | Listing(contents: OrderedDict<bytes, bytes>)    // one packet with the JSON text of the database
    | Blocked                                         // suspended on an empty inbox
    | Goodbye                                         // clean exit, no packet
    | Crash                                           // an exception ends the handler, without cleanup
    | Done                                            // an administrative call that returns
    | Failed(fault: Fault)                            // an administrative call that raises

  /**
   A reply is built from `client_db[uuid]`, so it fails once that entry is gone,
   and `construct_packet` refuses an empty payload.
   */
  function Answer(s: State, uuid: string, payload: bytes): Outcome {
    if uuid !in s.clients.vals || payload == [] then Crash else Reply(payload)
  }

  function WithClient(s: State, uuid: string, c: ClientRecord): State {
    s.(clients := Put(s.clients, uuid, c))
  }

  function WithInbox(s: State, uuid: string, inbox: seq<Request>): State {
    if uuid !in s.clients.vals then s
    else WithClient(s, uuid, s.clients.vals[uuid].(inbox := inbox))
  }

  /** The first n requests leave the queue of this client. */
  function TakeOff(s: State, uuid: string, n: nat): State {
    if uuid !in s.clients.vals then s
    else WithInbox(s, uuid, Drop(s.clients.vals[uuid].inbox, n))
  }

  // ----- The database -----

  function DoSet(s: State, uuid: string, key: bytes, value: bytes): (State, Outcome) {
    var t := s.(db := Put(s.db, key, value));
    (t, Answer(t, uuid, ACK))
  }

  function DoGet(s: State, uuid: string, key: bytes): (State, Outcome) {
    (s, Answer(s, uuid, if key in s.db.vals then s.db.vals[key] else ERR_KEY))
  }

  function DoDelete(s: State, uuid: string, key: bytes): (State, Outcome) {
    if key in s.db.vals then
      var t := s.(db := Remove(s.db, key));
      (t, Answer(t, uuid, ACK))
    else (s, Answer(s, uuid, ERR_KEY))
  }

  function DoList(s: State, uuid: string): (State, Outcome) {
    (s, if uuid in s.clients.vals then Listing(s.db) else Crash)
  }

  // ----- The address book -----

  function DoRegister(s: State, uuid: string, address: string): (State, Outcome) {
    if uuid !in s.clients.vals then (s, Crash)
    else if address in s.addressBook.vals then (s, Reply(ERR_KEY))
    else
      var c := s.clients.vals[uuid];
      var t := WithClient(s, uuid, c.(addressesOwned := c.addressesOwned + [address]));
      (t.(addressBook := Put(s.addressBook, address, uuid)), Reply(ACK))
  }

  function DoUnregister(s: State, uuid: string, address: string): (State, Outcome) {
    if uuid !in s.clients.vals then (s, Crash)
    else
      var c := s.clients.vals[uuid];
      if address !in c.addressesOwned then (s, Reply(ERR_KEY))
      else
        var t := WithClient(s, uuid, c.(addressesOwned := RemoveFirst(c.addressesOwned, address)));
        if address !in s.addressBook.vals then (t, Crash)
        else (t.(addressBook := Remove(s.addressBook, address)), Reply(ACK))
  }

  function Text(s: State, uuid: string, text: string): Outcome {
    if Latin1(text) then Answer(s, uuid, Encode(text)) else Crash
  }

  function DoWhoHas(s: State, uuid: string, address: string): (State, Outcome) {
    (s, if address in s.addressBook.vals then Text(s, uuid, s.addressBook.vals[address]) else Answer(s, uuid, ERR_KEY))
  }

  // ----- The mailboxes -----

  function DoPutInbox(s: State, uuid: string, target: string, request: bytes, key: bytes, id: bytes): (State, Outcome) {
    if target !in s.clients.vals || !Latin1(uuid) then (s, Crash)
    else
      var c := s.clients.vals[target];
      var t := WithClient(s, target, c.(inbox := c.inbox + [Request(Encode(uuid), key, request, id)]));
      (t, Answer(t, uuid, id))
  }

  function DoGetInbox(s: State, uuid: string): (State, Outcome) {
    if uuid !in s.clients.vals then (s, Crash)
    else
      var c := s.clients.vals[uuid];
      if c.inbox == [] then (s, Blocked)
      else
        var t := WithClient(s, uuid, c.(inbox := c.inbox[1..]));
        match InboxReply(c.inbox[0])
        case Ok(reply) => (t, Answer(t, uuid, reply))
        case Err(_) => (t, Crash)
  }

  function DoPutOutbox(s: State, uuid: string, target: string, response: bytes, key: bytes, requestUuid: bytes): (State, Outcome) {
    if target !in s.clients.vals then (s, Crash)
    else
      var c := s.clients.vals[target];
      var t := WithClient(s, target, c.(outbox := Put(c.outbox, requestUuid, Response(key, response, requestUuid))));
      (t, Answer(t, uuid, ACK))
  }

  function DoGetOutbox(s: State, uuid: string, requestUuid: bytes): (State, Outcome) {
    if uuid !in s.clients.vals then (s, Crash)
    else
      var c := s.clients.vals[uuid];
      if requestUuid !in c.outbox.vals then (s, Reply(ERR_UUID))
      else
        var t := WithClient(s, uuid, c.(outbox := Remove(c.outbox, requestUuid)));
        match OutboxReply(c.outbox.vals[requestUuid])
        case Ok(reply) => (t, Answer(t, uuid, reply))
        case Err(_) => (t, Crash)
  }

  // ----- Leaving -----

  /** The first of the keys, in order, that the book maps to this UUID. */
  function FirstOwned(keys: seq<string>, book: map<string, string>, uuid: string): (r: Option<string>)
    ensures r.Some? ==> r.value in keys && r.value in book && book[r.value] == uuid
  {
    if keys == [] then None
    else if keys[0] in book && book[keys[0]] == uuid then Some(keys[0])
    else FirstOwned(keys[1..], book, uuid)
  }

  function DropFirstOwned(book: OrderedDict<string, string>, uuid: string): OrderedDict<string, string> {
    match FirstOwned(book.keys, book.vals, uuid)
    case Some(address) => Remove(book, address)
    case None => book
  }

  /** The cleanup after the loop of `handle_client`: one address at most, and the client. */
  function Depart(s: State, uuid: string, keepDead: bool): State {
    if keepDead then s
    else s.(addressBook := DropFirstOwned(s.addressBook, uuid), clients := Remove(s.clients, uuid))
  }

  // ----- One command, from the verified payload to the reply -----

  /**
   The await-free stretch of `handle_client` that serves one command. `id` is what
   `uuid4()` returns. A handler that waited for a lock may find its client gone.
   */
  function Serve(s: State, uuid: string, command: Command, id: bytes, keepDead: bool): (State, Outcome) {
    match command
    case Set(key, value) => DoSet(s, uuid, key, value)
    case Get(key) => DoGet(s, uuid, key)
    case Delete(key) => DoDelete(s, uuid, key)
    case List => DoList(s, uuid)
    case Register(address) => DoRegister(s, uuid, Decode(address))
    case Unregister(address) => DoUnregister(s, uuid, Decode(address))
    case WhoAmI => (s, Text(s, uuid, uuid))
    case Bye => (Depart(s, uuid, keepDead), Goodbye)
    case WhoHas(address) => DoWhoHas(s, uuid, Decode(address))
    case PutInbox(target, request, key) => DoPutInbox(s, uuid, Decode(target), request, key, id)
    case GetInbox => DoGetInbox(s, uuid)
    case PutOutbox(target, response, key, requestUuid) =>
      DoPutOutbox(s, uuid, Decode(target), response, key, requestUuid)
    case GetOutbox(requestUuid) => DoGetOutbox(s, uuid, requestUuid)
    case Malformed => (s, Crash)
    case Unknown => (s, Answer(s, uuid, ERR_COMMAND))
  }

  /** What became of a frame. */
  datatype Arrival =
    | Served(outcome: Outcome)
    | Refused(code: byte)     // the error is sent, then the session ends with the cleanup
    | Died                    // an exception before the counter moved

  function Arrive(s: State, uuid: string, l: Libs, nonce: nat, frame: bytes, id: bytes, keepDead: bool): (State, Arrival) {
    match VerifyPacket(l, frame, nonce)
    case Raised(_) => (s, Died)
    case Rejected(code) => (s, Refused(code))
    case Payload(data, _) =>
      if data == [] then (s, Served(Crash))
      else
        var (t, out) := Serve(s, uuid, ParseCommand(data), id, keepDead);
        (t, Served(out))
  }

  /** A login that is given a fresh UUID; a relogin under a known one leaves the tables alone. */
  function Login(s: State, uuid: string): State {
    WithClient(s, uuid, NewClient(uuid))
  }

  // ----- Administrative calls -----

  predicate OutboxKeyed(outbox: OrderedDict<bytes, Response>) {
    forall k :: k in outbox.vals ==> outbox.vals[k].responseUuid == k
  }

  function AddClient(s: State, ticket: ClientRecord): (State, Outcome) {
    if |ticket.uuid| != UUID_LENGTH || ticket.uuid in s.clients.vals || !OutboxKeyed(ticket.outbox) then
      (s, Failed(ValueFault))
    else (WithClient(s, ticket.uuid, ticket), Done)
  }

  /** Deletes the keys one by one, stopping at the first that is missing. */
  function RemoveAll(book: OrderedDict<string, string>, keys: seq<string>): (OrderedDict<string, string>, bool) {
    if keys == [] then (book, true)
    else
      var (before, ok) := RemoveAll(book, keys[..|keys| - 1]);
      var last := keys[|keys| - 1];
      if ok && last in before.vals then (Remove(before, last), true) else (before, false)
  }

  lemma {:induction false} RemoveAllStops(book: OrderedDict<string, string>, keys: seq<string>, n: nat)
    requires n <= |keys| && !RemoveAll(book, keys[..n]).1
    ensures RemoveAll(book, keys) == RemoveAll(book, keys[..n])
    decreases |keys| - n
  {
    if n == |keys| {
      assert keys[..n] == keys;
    } else {
      assert keys[..n + 1][..n] == keys[..n];
      RemoveAllStops(book, keys, n + 1);
    }
  }

  /** Where the values of a smaller book come from. */
  lemma {:induction false} RemoveAllShrinks(book: OrderedDict<string, string>, keys: seq<string>)
    ensures forall k :: k in RemoveAll(book, keys).0.vals ==> k in book.vals && RemoveAll(book, keys).0.vals[k] == book.vals[k]
  {
    if keys != [] {
      RemoveAllShrinks(book, keys[..|keys| - 1]);
    }
  }

  function RemoveClient(s: State, uuid: string): (State, Outcome) {
    if |uuid| != UUID_LENGTH || uuid !in s.clients.vals then (s, Failed(ValueFault))
    else
      var (book, ok) := RemoveAll(s.addressBook, s.clients.vals[uuid].addressesOwned);
      var t := s.(addressBook := book);
      if ok then (t.(clients := Remove(s.clients, uuid)), Done) else (t, Failed(KeyFault))
  }

  function AddKey(s: State, key: string, uuid: string): (State, Outcome) {
    if |uuid| != UUID_LENGTH || key in s.addressBook.vals then (s, Failed(ValueFault))
    else
      var t := s.(addressBook := Put(s.addressBook, key, uuid));
      if uuid !in s.clients.vals then (t, Failed(ValueFault))
      else
        var c := s.clients.vals[uuid];
        (WithClient(t, uuid, c.(addressesOwned := c.addressesOwned + [key])), Done)
  }

  function RemoveKey(s: State, key: string, uuid: string): (State, Outcome) {
    if |uuid| != UUID_LENGTH || key !in s.addressBook.vals then (s, Failed(ValueFault))
    else
      var t := s.(addressBook := Remove(s.addressBook, key));
      if uuid !in s.clients.vals || key !in s.clients.vals[uuid].addressesOwned then (t, Failed(ValueFault))
      else
        var c := s.clients.vals[uuid];
        (WithClient(t, uuid, c.(addressesOwned := RemoveFirst(c.addressesOwned, key))), Done)
  }

  function RemoveDb(s: State, key: bytes): (State, Outcome) {
    if key in s.db.vals then (s.(db := Remove(s.db, key)), Done) else (s, Failed(KeyFault))
  }
}
