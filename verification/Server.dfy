/**
 The server as the objects it is made of: `Client` entries updated in place
 inside a `Server` whose methods are the branches of `handle_client` and the
 administrative calls, each proved against its function in `Commands`.
 */
module Servers {
  import opened Wrappers
  import opened Bytes
  import opened Dicts
  import opened Packets
  import opened Tables
  import opened Wire
  import opened Commands

  /** The connection part of an entry. */
  datatype Link = Link(hasCipher: bool, rx: nat, tx: nat)

  const CONNECTED: Link := Link(true, 2, 2)
  const NOBODY: Link := Link(false, 0, 0)

  /** Of the entries, those of clients still in the table. */
  function Still(links: map<string, Link>, s: State): map<string, Link> {
    map u | u in links && u in s.clients.vals :: links[u]
  }

  /** An entry of `client_db`; sockets, addresses and locks are left out, the cipher is only there or not. */
  class Client {
    const uuid: string
    var addressesOwned: seq<string>
    var inbox: seq<Request>
    var outbox: OrderedDict<bytes, Response>
    var hasCipher: bool
    var rxNonce: nat
    var txNonce: nat

    constructor (record: ClientRecord, hasCipher: bool, nonce: nat)
      ensures Record() == record
      ensures this.hasCipher == hasCipher && rxNonce == txNonce == nonce
    {
      uuid, addressesOwned, inbox, outbox := record.uuid, record.addressesOwned, record.inbox, record.outbox;
      this.hasCipher, rxNonce, txNonce := hasCipher, nonce, nonce;
    }

    ghost function Record(): ClientRecord
      reads this
    {
      ClientRecord(uuid, addressesOwned, inbox, outbox)
    }

    function Connection(): Link
      reads this
    {
      Link(hasCipher, rxNonce, txNonce)
    }
  }

  ghost predicate Separate(clientDb: OrderedDict<string, Client>) {
    forall u, v :: u in clientDb.vals && v in clientDb.vals && clientDb.vals[u] == clientDb.vals[v] ==> u == v
  }

  ghost function Records(clientDb: OrderedDict<string, Client>): OrderedDict<string, ClientRecord>
    reads clientDb.vals.Values
  {
    assert (map u | u in clientDb.vals :: clientDb.vals[u].Record()).Keys == clientDb.vals.Keys;
    Dict(clientDb.keys, map u | u in clientDb.vals :: clientDb.vals[u].Record())
  }

  ghost function Connections(clientDb: OrderedDict<string, Client>): map<string, Link>
    reads clientDb.vals.Values
  {
    map u | u in clientDb.vals :: clientDb.vals[u].Connection()
  }

  // ----- Writing one field of one client in place is one Put on the records -----

  method SetAddresses(clientDb: OrderedDict<string, Client>, uuid: string, client: Client, addressesOwned: seq<string>)
    requires Separate(clientDb) && uuid in clientDb.vals && clientDb.vals[uuid] == client
    modifies client`addressesOwned
    ensures Records(clientDb) == Put(old(Records(clientDb)), uuid, old(client.Record()).(addressesOwned := addressesOwned))
    ensures Connections(clientDb) == old(Connections(clientDb))
  {
    hide Enumerates;
    client.addressesOwned := addressesOwned;
    forall u | u in clientDb.vals && u != uuid
      ensures clientDb.vals[u].Record() == old(clientDb.vals[u].Record())
    {
      assert clientDb.vals[u] != client;
    }
    assert Records(clientDb).vals == old(Records(clientDb)).vals[uuid := client.Record()];
  }

  method SetInbox(clientDb: OrderedDict<string, Client>, uuid: string, client: Client, inbox: seq<Request>)
    requires Separate(clientDb) && uuid in clientDb.vals && clientDb.vals[uuid] == client
    modifies client`inbox
    ensures Records(clientDb) == Put(old(Records(clientDb)), uuid, old(client.Record()).(inbox := inbox))
    ensures Connections(clientDb) == old(Connections(clientDb))
  {
    hide Enumerates;
    client.inbox := inbox;
    forall u | u in clientDb.vals && u != uuid
      ensures clientDb.vals[u].Record() == old(clientDb.vals[u].Record())
    {
      assert clientDb.vals[u] != client;
    }
    assert Records(clientDb).vals == old(Records(clientDb)).vals[uuid := client.Record()];
  }

  method SetOutbox(clientDb: OrderedDict<string, Client>, uuid: string, client: Client, outbox: OrderedDict<bytes, Response>)
    requires Separate(clientDb) && uuid in clientDb.vals && clientDb.vals[uuid] == client
    modifies client`outbox
    ensures Records(clientDb) == Put(old(Records(clientDb)), uuid, old(client.Record()).(outbox := outbox))
    ensures Connections(clientDb) == old(Connections(clientDb))
  {
    hide Enumerates;
    client.outbox := outbox;
    forall u | u in clientDb.vals && u != uuid
      ensures clientDb.vals[u].Record() == old(clientDb.vals[u].Record())
    {
      assert clientDb.vals[u] != client;
    }
    assert Records(clientDb).vals == old(Records(clientDb)).vals[uuid := client.Record()];
  }

  class Server {
    var db: OrderedDict<bytes, bytes>
    var addressBook: OrderedDict<string, string>
    var clientDb: OrderedDict<string, Client>
    const keepDeadSessions: bool

    /** No two UUIDs share a `Client` object. */
    ghost predicate Valid()
      reads this
    {
      Separate(clientDb)
    }

    ghost function Clients(): set<Client>
      reads this
    {
      clientDb.vals.Values
    }

    ghost function View(): State
      reads this, Clients()
    {
      State(db, addressBook, Records(clientDb))
    }

    ghost function Links(): map<string, Link>
      reads this, Clients()
    {
      Connections(clientDb)
    }

    lemma RecordOf(uuid: string)
      ensures uuid in Records(clientDb).vals <==> uuid in clientDb.vals
      ensures uuid in clientDb.vals ==> Records(clientDb).vals[uuid] == clientDb.vals[uuid].Record()
    {
    }

    lemma AllStill()
      ensures Links() == Still(Links(), View())
    {
      assert View().clients.vals.Keys == clientDb.vals.Keys;
    }

    constructor (keepDeadSessions: bool)
      ensures Valid() && View() == EMPTY_STATE && this.keepDeadSessions == keepDeadSessions
    {
      db, addressBook, clientDb := Dict([], map[]), Dict([], map[]), Dict([], map[]);
      this.keepDeadSessions := keepDeadSessions;
    }

    method BuildReply(uuid: string, payload: bytes) returns (out: Outcome)
      ensures out == Answer(View(), uuid, payload)
    {
      if uuid !in clientDb.vals || payload == [] {
        return Crash;
      }
      return Reply(payload);
    }

    // ----- Database commands -----

    method Set(uuid: string, key: bytes, value: bytes) returns (out: Outcome)
      requires Valid()
      modifies `db
      ensures (View(), out) == DoSet(old(View()), uuid, key, value)
      ensures Links() == old(Links())
    {
      hide Connections;
      db := Put(db, key, value);
      out := BuildReply(uuid, ACK);
    }

    method Get(uuid: string, key: bytes) returns (out: Outcome)
      ensures (View(), out) == DoGet(View(), uuid, key)
    {
      if key in db.vals {
        out := BuildReply(uuid, db.vals[key]);
      } else {
        out := BuildReply(uuid, ERR_KEY);
      }
    }

    method Delete(uuid: string, key: bytes) returns (out: Outcome)
      modifies `db
      ensures (View(), out) == DoDelete(old(View()), uuid, key)
      ensures Links() == old(Links())
    {
      hide Connections;
      if key in db.vals {
        db := Remove(db, key);
        out := BuildReply(uuid, ACK);
      } else {
        out := BuildReply(uuid, ERR_KEY);
      }
    }

    method ListAll(uuid: string) returns (out: Outcome)
      ensures (View(), out) == DoList(View(), uuid)
    {
      return if uuid in clientDb.vals then Listing(db) else Crash;
    }

    // ----- Address book commands -----

    method Register(uuid: string, address: string) returns (out: Outcome)
      requires Valid()
      modifies `addressBook, Clients()
      ensures (View(), out) == DoRegister(old(View()), uuid, address)
      ensures Links() == old(Links())
    {
      hide RemoveFirst, Connections, Records, Enumerates;
      RecordOf(uuid);
      if uuid !in clientDb.vals {
        return Crash;
      }
      if address in addressBook.vals {
        return Reply(ERR_KEY);
      }
      var client := clientDb.vals[uuid];
      SetAddresses(clientDb, uuid, client, client.addressesOwned + [address]);
      addressBook := Put(addressBook, address, uuid);
      return Reply(ACK);
    }

    method Unregister(uuid: string, address: string) returns (out: Outcome)
      requires Valid()
      modifies `addressBook, Clients()
      ensures (View(), out) == DoUnregister(old(View()), uuid, address)
      ensures Links() == old(Links())
    {
      hide RemoveFirst, Connections, Records, Enumerates;
      RecordOf(uuid);
      if uuid !in clientDb.vals {
        return Crash;
      }
      var client := clientDb.vals[uuid];
      if address !in client.addressesOwned {
        return Reply(ERR_KEY);
      }
      SetAddresses(clientDb, uuid, client, RemoveFirst(client.addressesOwned, address));
      if address !in addressBook.vals {
        return Crash;
      }
      addressBook := Remove(addressBook, address);
      return Reply(ACK);
    }

    method SendText(uuid: string, text: string) returns (out: Outcome)
      ensures out == Text(View(), uuid, text)
    {
      if !Latin1(text) {
        return Crash;
      }
      out := BuildReply(uuid, Encode(text));
    }

    method WhoHas(uuid: string, address: string) returns (out: Outcome)
      ensures (View(), out) == DoWhoHas(View(), uuid, address)
    {
      if address in addressBook.vals {
        out := SendText(uuid, addressBook.vals[address]);
      } else {
        out := BuildReply(uuid, ERR_KEY);
      }
    }

    // ----- Mailbox commands -----

    method PutInbox(uuid: string, target: string, request: bytes, key: bytes, id: bytes) returns (out: Outcome)
      requires Valid()
      modifies Clients()
      ensures (View(), out) == DoPutInbox(old(View()), uuid, target, request, key, id)
      ensures Links() == old(Links())
    {
      hide Connections, Records, Enumerates;
      RecordOf(target);
      if target !in clientDb.vals || !Latin1(uuid) {
        return Crash;
      }
      var client := clientDb.vals[target];
      SetInbox(clientDb, target, client, client.inbox + [Request(Encode(uuid), key, request, id)]);
      out := BuildReply(uuid, id);
    }

    method GetInbox(uuid: string) returns (out: Outcome)
      requires Valid()
      modifies Clients()
      ensures (View(), out) == DoGetInbox(old(View()), uuid)
      ensures Links() == old(Links())
    {
      hide Connections, Records, Enumerates;
      RecordOf(uuid);
      if uuid !in clientDb.vals {
        return Crash;
      }
      var client := clientDb.vals[uuid];
      if client.inbox == [] {
        return Blocked;
      }
      var request := client.inbox[0];
      SetInbox(clientDb, uuid, client, client.inbox[1..]);
      match InboxReply(request)
      case Ok(reply) => out := BuildReply(uuid, reply);
      case Err(_) => out := Crash;
    }

    method PutOutbox(uuid: string, target: string, response: bytes, key: bytes, requestUuid: bytes) returns (out: Outcome)
      requires Valid()
      modifies Clients()
      ensures (View(), out) == DoPutOutbox(old(View()), uuid, target, response, key, requestUuid)
      ensures Links() == old(Links())
    {
      hide Connections, Records, Enumerates;
      RecordOf(target);
      if target !in clientDb.vals {
        return Crash;
      }
      var client := clientDb.vals[target];
      SetOutbox(clientDb, target, client, Put(client.outbox, requestUuid, Response(key, response, requestUuid)));
      out := BuildReply(uuid, ACK);
    }

    method GetOutbox(uuid: string, requestUuid: bytes) returns (out: Outcome)
      requires Valid()
      modifies Clients()
      ensures (View(), out) == DoGetOutbox(old(View()), uuid, requestUuid)
      ensures Links() == old(Links())
    {
      hide Connections, Records, Enumerates;
      RecordOf(uuid);
      if uuid !in clientDb.vals {
        return Crash;
      }
      var client := clientDb.vals[uuid];
      if requestUuid !in client.outbox.vals {
        return Reply(ERR_UUID);
      }
      var response := client.outbox.vals[requestUuid];
      SetOutbox(clientDb, uuid, client, Remove(client.outbox, requestUuid));
      match OutboxReply(response)
      case Ok(reply) => out := BuildReply(uuid, reply);
      case Err(_) => out := Crash;
    }

    // ----- Leaving -----

    /** The loop over the address book, which stops at the first entry it deletes. */
    method DropFirstAddress(uuid: string)
      modifies `addressBook
      ensures addressBook == DropFirstOwned(old(addressBook), uuid)
    {
      var i := 0;
      KeysOf(addressBook);
      assert addressBook.keys[0..] == addressBook.keys;
      while i < |addressBook.keys|
        invariant 0 <= i <= |addressBook.keys|
        invariant addressBook == old(addressBook)
        invariant FirstOwned(addressBook.keys, addressBook.vals, uuid)
               == FirstOwned(addressBook.keys[i..], addressBook.vals, uuid)
      {
        var key := addressBook.keys[i];
        if addressBook.vals[key] == uuid {
          addressBook := Remove(addressBook, key);
          return;
        }
        assert addressBook.keys[i..][1..] == addressBook.keys[i + 1..];
        i := i + 1;
      }
    }

    /** What runs after the loop of `handle_client`, on BYE and on a rejected packet. */
    method Cleanup(uuid: string)
      requires Valid()
      modifies `addressBook, `clientDb
      ensures Valid() && View() == Depart(old(View()), uuid, keepDeadSessions)
      ensures Clients() <= old(Clients()) && Links() == Still(old(Links()), View())
    {
      if !keepDeadSessions {
        DropFirstAddress(uuid);
        RemoveEntry(uuid);
      } else {
        AllStill();
      }
    }

    method RemoveEntry(uuid: string)
      requires Valid()
      modifies `clientDb
      ensures Valid() && View() == old(View()).(clients := Remove(old(View()).clients, uuid))
      ensures Clients() <= old(Clients()) && Links() == Still(old(Links()), View())
    {
      hide Enumerates, RemoveFirst;
      clientDb := Remove(clientDb, uuid);
      assert Records(clientDb).vals == old(Records(clientDb)).vals - {uuid};
      assert Links() == Still(old(Links()), View());
    }

    // ----- One verified packet -----

    method Dispatch(uuid: string, command: Command, id: bytes) returns (out: Outcome)
      requires Valid()
      modifies this, Clients()
      ensures Valid() && (View(), out) == Serve(old(View()), uuid, command, id, keepDeadSessions)
      ensures Clients() <= old(Clients()) && Links() == Still(old(Links()), View())
    {
      hide DoSet, DoGet, DoDelete, DoRegister, DoUnregister, DoWhoHas, DoPutInbox, DoGetInbox, DoPutOutbox, DoGetOutbox;
      hide DoList, Depart, Answer, Text, Decode, Still, Connections, Records, Links, View;
      match command {
        case Set(key, value) => out := Set(uuid, key, value);
        case Get(key) => out := Get(uuid, key);
        case Delete(key) => out := Delete(uuid, key);
        case List => out := ListAll(uuid);
        case Register(address) => out := Register(uuid, Decode(address));
        case Unregister(address) => out := Unregister(uuid, Decode(address));
        case WhoAmI => out := SendText(uuid, uuid);
        case Bye => Cleanup(uuid); out := Goodbye;
        case WhoHas(address) => out := WhoHas(uuid, Decode(address));
        case PutInbox(target, request, key) => out := PutInbox(uuid, Decode(target), request, key, id);
        case GetInbox => out := GetInbox(uuid);
        case PutOutbox(target, response, key, requestUuid) =>
          out := PutOutbox(uuid, Decode(target), response, key, requestUuid);
        case GetOutbox(requestUuid) => out := GetOutbox(uuid, requestUuid);
        case Malformed => out := Crash;
        case Unknown => out := BuildReply(uuid, ERR_COMMAND);
      }
      if !command.Bye? {
        AllStill();
      }
    }

    lemma LinkOf(uuid: string)
      ensures uuid in Links() <==> uuid in clientDb.vals
      ensures uuid in Links() ==> Links()[uuid] == clientDb.vals[uuid].Connection()
    {
    }

    /** Writing the connection part of one entry in place. */
    method SetLink(uuid: string, link: Link)
      requires Valid() && uuid in clientDb.vals
      modifies Clients()
      ensures View() == old(View()) && Links() == old(Links())[uuid := link]
    {
      hide Enumerates;
      var client := clientDb.vals[uuid];
      client.hasCipher, client.rxNonce, client.txNonce := link.hasCipher, link.rx, link.tx;
      assert Records(clientDb).vals == old(Records(clientDb)).vals;
      assert Links() == old(Links())[uuid := link];
    }

    /** How `handle_client` begins: no entry, or an entry nobody has logged in to, ends it at once. */
    method StartHandler(uuid: string) returns (fault: Option<Fault>)
      ensures fault.None? <==> uuid in clientDb.vals && clientDb.vals[uuid].hasCipher
      ensures fault.Some? ==> fault.value == if uuid in clientDb.vals then RuntimeFault else KeyFault
    {
      if uuid !in clientDb.vals {
        return Some(KeyFault);
      }
      if !clientDb.vals[uuid].hasCipher {
        return Some(RuntimeFault);
      }
      return None;
    }

    /**
     One frame, from `verify_packet` to the end of the await-free stretch: the
     receive counter moves whether or not the packet is accepted, unless verifying raises,
     as it does without a cipher.
     */
    method HandleFrame(uuid: string, l: Libs, frame: bytes, id: bytes) returns (arrival: Arrival)
      requires Valid()
      modifies this, Clients()
      ensures Valid() && Clients() <= old(Clients())
      ensures !(uuid in old(Links()) && old(Links())[uuid].hasCipher) ==>
                arrival == Died && View() == old(View()) && Links() == old(Links())
      ensures uuid in old(Links()) && old(Links())[uuid].hasCipher ==>
                var link := old(Links())[uuid];
                && (View(), arrival) == Arrive(old(View()), uuid, l, link.rx, frame, id, keepDeadSessions)
                && Links() == Still(if arrival == Died then old(Links()) else old(Links())[uuid := link.(rx := link.rx + 1)], View())
    {
      LinkOf(uuid);
      AllStill();
      hide Connections, Records, Still, Links, View;
      if uuid !in clientDb.vals || !clientDb.vals[uuid].hasCipher {
        return Died;
      }
      var client := clientDb.vals[uuid];
      var counted := client.Connection().(rx := client.rxNonce + 1);
      match VerifyPacket(l, frame, client.rxNonce)
      case Raised(_) => arrival := Died;
      case Rejected(code) =>
        SetLink(uuid, counted);
        AllStill();
        arrival := Refused(code);
      case Payload(data, _) =>
        SetLink(uuid, counted);
        AllStill();
        if data == [] {
          return Served(Crash);
        }
        var out := Dispatch(uuid, ParseCommand(data), id);
        arrival := Served(out);
    }

    /** After `sock_sendall` returns: the counter of the handler's own entry, if it is still there. */
    method ReplySent(uuid: string) returns (ok: bool)
      requires Valid()
      modifies Clients()
      ensures View() == old(View()) && ok == (uuid in old(Links()))
      ensures Links() == if ok then old(Links())[uuid := old(Links())[uuid].(tx := old(Links())[uuid].tx + 1)] else old(Links())
    {
      LinkOf(uuid);
      hide Connections, Records, Links, View;
      ok := uuid in clientDb.vals;
      if ok {
        var client := clientDb.vals[uuid];
        SetLink(uuid, client.Connection().(tx := client.txNonce + 1));
      }
    }

    // ----- Logging in -----

    /** A first login, or a relogin under a UUID the server does not know. */
    method AcceptNew(uuid: string)
      requires Valid()
      modifies `clientDb
      ensures Valid() && View() == Login(old(View()), uuid)
      ensures uuid in clientDb.vals && fresh(clientDb.vals[uuid]) && Clients() <= old(Clients()) + {clientDb.vals[uuid]}
      ensures Links() == old(Links())[uuid := CONNECTED]
    {
      StoreClient(NewClient(uuid), true, 2);
    }

    /** A relogin: the old entry, with its mailboxes, under new counters. */
    method AcceptKnown(uuid: string)
      requires Valid() && uuid in clientDb.vals
      modifies Clients()
      ensures View() == old(View()) && Links() == old(Links())[uuid := CONNECTED]
    {
      SetLink(uuid, CONNECTED);
    }

    method StoreEntry(uuid: string, client: Client)
      requires Valid() && client !in Clients()
      modifies `clientDb
      ensures Valid() && View() == WithClient(old(View()), uuid, client.Record())
      ensures clientDb == Put(old(clientDb), uuid, client) && Links() == old(Links())[uuid := client.Connection()]
    {
      hide Enumerates;
      clientDb := Put(clientDb, uuid, client);
      assert Records(clientDb).vals == old(Records(clientDb)).vals[uuid := client.Record()];
      assert Links() == old(Links())[uuid := client.Connection()];
    }

    method StoreClient(record: ClientRecord, hasCipher: bool, nonce: nat)
      requires Valid()
      modifies `clientDb
      ensures Valid() && View() == WithClient(old(View()), record.uuid, record)
      ensures var u := record.uuid;
              && u in clientDb.vals && fresh(clientDb.vals[u]) && Clients() <= old(Clients()) + {clientDb.vals[u]}
              && Links() == old(Links())[u := Link(hasCipher, nonce, nonce)]
    {
      hide Enumerates;
      var client := new Client(record, hasCipher, nonce);
      StoreEntry(record.uuid, client);
    }

    // ----- Administrative calls -----

    method AdmitClient(ticket: ClientRecord) returns (out: Outcome)
      requires Valid()
      modifies `clientDb
      ensures Valid() && (View(), out) == AddClient(old(View()), ticket)
      ensures Links() == if out == Done then old(Links())[ticket.uuid := NOBODY] else old(Links())
    {
      if |ticket.uuid| != UUID_LENGTH || ticket.uuid in clientDb.vals || !OutboxKeyed(ticket.outbox) {
        return Failed(ValueFault);
      }
      StoreClient(ticket, false, 0);
      return Done;
    }

    /** Deletes the owner's addresses one by one; a missing one stops it half-way. */
    method DropAddresses(addresses: seq<string>) returns (ok: bool)
      modifies `addressBook
      ensures (addressBook, ok) == RemoveAll(old(addressBook), addresses)
    {
      var i := 0;
      while i < |addresses|
        invariant 0 <= i <= |addresses|
        invariant RemoveAll(old(addressBook), addresses[..i]) == (addressBook, true)
      {
        assert addresses[..i + 1][..i] == addresses[..i];
        if addresses[i] !in addressBook.vals {
          RemoveAllStops(old(addressBook), addresses, i + 1);
          return false;
        }
        addressBook := Remove(addressBook, addresses[i]);
        i := i + 1;
      }
      assert addresses[..|addresses|] == addresses;
      return true;
    }

    method DismissClient(uuid: string) returns (out: Outcome)
      requires Valid()
      modifies `clientDb, `addressBook
      ensures Valid() && (View(), out) == RemoveClient(old(View()), uuid)
      ensures Links() == Still(old(Links()), View())
    {
      AllStill();
      if |uuid| != UUID_LENGTH || uuid !in clientDb.vals {
        return Failed(ValueFault);
      }
      var ok := DropAddresses(clientDb.vals[uuid].addressesOwned);
      if !ok {
        return Failed(KeyFault);
      }
      RemoveEntry(uuid);
      return Done;
    }

    method GiveKey(key: string, uuid: string) returns (out: Outcome)
      requires Valid()
      modifies `addressBook, Clients()
      ensures Valid() && (View(), out) == AddKey(old(View()), key, uuid)
      ensures Links() == old(Links())
    {
      hide Connections, Records, Enumerates;
      RecordOf(uuid);
      if |uuid| != UUID_LENGTH || key in addressBook.vals {
        return Failed(ValueFault);
      }
      addressBook := Put(addressBook, key, uuid);
      if uuid !in clientDb.vals {
        return Failed(ValueFault);
      }
      var client := clientDb.vals[uuid];
      SetAddresses(clientDb, uuid, client, client.addressesOwned + [key]);
      return Done;
    }

    method TakeKey(key: string, uuid: string) returns (out: Outcome)
      requires Valid()
      modifies `addressBook, Clients()
      ensures Valid() && (View(), out) == RemoveKey(old(View()), key, uuid)
      ensures Links() == old(Links())
    {
      hide Connections, Records, Enumerates;
      RecordOf(uuid);
      if |uuid| != UUID_LENGTH || key !in addressBook.vals {
        return Failed(ValueFault);
      }
      addressBook := Remove(addressBook, key);
      if uuid !in clientDb.vals {
        return Failed(ValueFault);
      }
      var client := clientDb.vals[uuid];
      if key !in client.addressesOwned {
        return Failed(ValueFault);
      }
      SetAddresses(clientDb, uuid, client, RemoveFirst(client.addressesOwned, key));
      return Done;
    }

    method DeleteDb(key: bytes) returns (out: Outcome)
      modifies `db
      ensures (View(), out) == RemoveDb(old(View()), key)
    {
      if key !in db.vals {
        return Failed(KeyFault);
      }
      db := Remove(db, key);
      return Done;
    }

    /** `apply_state`: adopt restored tables wholesale. */
    method ApplyState(db: OrderedDict<bytes, bytes>, addressBook: OrderedDict<string, string>, clientDb: OrderedDict<string, Client>)
      requires Separate(clientDb)
      modifies this
      ensures Valid() && View() == State(db, addressBook, Records(clientDb)) && this.clientDb == clientDb
    {
      this.db, this.addressBook, this.clientDb := db, addressBook, clientDb;
    }
  }
}
