/** `deserialize`: cursor loops over the values, dictionaries and client objects filled in place. */
module CheckpointLoader {
  import opened Wrappers
  import opened Bytes
  import opened Dicts
  import opened Tables
  import opened Commands
  import opened Servers
  import opened Checkpoint

  // ----- Cursor loops -----

  /** `unpack_from` at the cursor, then the slice; the cursor may end beyond the value. */
  method TakeChunk(value: bytes, cursor: nat) returns (r: Result<bytes>, next: nat)
    ensures ReadChunk(Drop(value, cursor)) == if r.Ok? then Ok((r.value, Drop(value, next))) else Err(r.fault)
    ensures r.Ok? ==> next >= cursor + 4
  {
    if cursor + 4 > |value| {
      return Err(StructError), cursor;
    }
    var length := U32(value[cursor..]);
    return Ok(Slice(value, cursor + 4, length)), cursor + 4 + length;
  }

  function Ahead<T>(done: seq<T>, rest: Result<seq<T>>): Result<seq<T>> {
    match rest
    case Ok(more) => Ok(done + more)
    case Err(fault) => Err(fault)
  }

  lemma AheadStep<T>(done: seq<T>, next: T, rest: Result<seq<T>>)
    ensures Ahead(done, Ahead([next], rest)) == Ahead(done + [next], rest)
  {
    if rest.Ok? {
      assert done + ([next] + rest.value) == done + [next] + rest.value;
    }
  }

  lemma AheadEnds<T>(done: seq<T>, rest: Result<seq<T>>)
    ensures Ahead([], rest) == rest
    ensures Ahead(done, Ok([])) == Ok(done)
  {
    assert done + [] == done;
    if rest.Ok? {
      assert [] + rest.value == rest.value;
    }
  }

  method ParseAddresses(value: bytes) returns (r: Result<seq<string>>)
    ensures r == ReadAddresses(Body(value))
  {
    hide ReadChunk;
    var addresses: seq<string> := [];
    var cursor: nat := UUID_LENGTH;
    AheadEnds(addresses, ReadAddresses(Body(value)));
    while cursor < |value|
      invariant ReadAddresses(Body(value)) == Ahead(addresses, ReadAddresses(Drop(value, cursor)))
      decreases |value| - cursor
    {
      ghost var rest := Drop(value, cursor);
      var address, next := TakeChunk(value, cursor);
      if address.Err? {
        return Err(address.fault);
      }
      AheadStep(addresses, Decode(address.value), ReadAddresses(Drop(value, next)));
      addresses, cursor := addresses + [Decode(address.value)], next;
    }
    AheadEnds(addresses, Ok([]));
    return Ok(addresses);
  }

  method ParseRequest(value: bytes, cursor: nat) returns (r: Result<Request>, next: nat)
    ensures ReadRequest(Drop(value, cursor)) == if r.Ok? then Ok((r.value, Drop(value, next))) else Err(r.fault)
    ensures r.Ok? ==> next >= cursor + 16
  {
    hide ReadChunk, Drop;
    var returnUuid, at1 := TakeChunk(value, cursor);
    if returnUuid.Err? {
      return Err(returnUuid.fault), cursor;
    }
    var key, at2 := TakeChunk(value, at1);
    if key.Err? {
      return Err(key.fault), cursor;
    }
    var request, at3 := TakeChunk(value, at2);
    if request.Err? {
      return Err(request.fault), cursor;
    }
    var requestUuid, at4 := TakeChunk(value, at3);
    if requestUuid.Err? {
      return Err(requestUuid.fault), cursor;
    }
    return Ok(Request(returnUuid.value, key.value, request.value, requestUuid.value)), at4;
  }

  method ParseRequests(value: bytes) returns (r: Result<seq<Request>>)
    ensures r == ReadRequests(Body(value))
  {
    hide ReadRequest;
    var requests: seq<Request> := [];
    var cursor: nat := UUID_LENGTH;
    AheadEnds(requests, ReadRequests(Body(value)));
    while cursor < |value|
      invariant ReadRequests(Body(value)) == Ahead(requests, ReadRequests(Drop(value, cursor)))
      decreases |value| - cursor
    {
      var request, next := ParseRequest(value, cursor);
      if request.Err? {
        return Err(request.fault);
      }
      AheadStep(requests, request.value, ReadRequests(Drop(value, next)));
      requests, cursor := requests + [request.value], next;
    }
    AheadEnds(requests, Ok([]));
    return Ok(requests);
  }

  method ParseResponse(value: bytes, cursor: nat) returns (r: Result<Response>, next: nat)
    ensures ReadResponse(Drop(value, cursor)) == if r.Ok? then Ok((r.value, Drop(value, next))) else Err(r.fault)
    ensures r.Ok? ==> next >= cursor + 12
  {
    hide ReadChunk, Drop;
    var key, at1 := TakeChunk(value, cursor);
    if key.Err? {
      return Err(key.fault), cursor;
    }
    var response, at2 := TakeChunk(value, at1);
    if response.Err? {
      return Err(response.fault), cursor;
    }
    var responseUuid, at3 := TakeChunk(value, at2);
    if responseUuid.Err? {
      return Err(responseUuid.fault), cursor;
    }
    return Ok(Response(key.value, response.value, responseUuid.value)), at3;
  }

  function StoreAll(start: OrderedDict<bytes, Response>, rs: Result<seq<Response>>): Result<OrderedDict<bytes, Response>> {
    match rs
    case Ok(responses) => Ok(Store(start, responses))
    case Err(fault) => Err(fault)
  }

  /** The responses of a value, stored one after the other into the outbox. */
  method ParseOutbox(value: bytes, start: OrderedDict<bytes, Response>) returns (r: Result<OrderedDict<bytes, Response>>)
    ensures r == StoreAll(start, ReadResponses(Body(value)))
  {
    hide ReadResponse;
    var outbox := start;
    ghost var done: seq<Response> := [];
    var cursor: nat := UUID_LENGTH;
    AheadEnds(done, ReadResponses(Body(value)));
    while cursor < |value|
      invariant outbox == Store(start, done)
      invariant ReadResponses(Body(value)) == Ahead(done, ReadResponses(Drop(value, cursor)))
      decreases |value| - cursor
    {
      var response, next := ParseResponse(value, cursor);
      if response.Err? {
        return Err(response.fault);
      }
      AheadStep(done, response.value, ReadResponses(Drop(value, next)));
      outbox := Put(outbox, response.value.responseUuid, response.value);
      assert (done + [response.value])[..|done|] == done;
      done, cursor := done + [response.value], next;
    }
    AheadEnds(done, Ok([]));
    return Ok(outbox);
  }

  // ----- The tables -----

  method ParseTables(data: bytes) returns (r: Result<(bytes, seq<bytes>)>)
    ensures r == ReadTables(data)
  {
    hide U32, Words, Cut;
    if |data| < 12 {
      return Err(StructError);
    }
    var typeLength, lengthLength, valueLength := U32(data), U32(data[4..]), U32(data[8..]);
    var types := Slice(data, 12, typeLength);
    var lengths := Slice(data, 12 + typeLength, lengthLength);
    var values := Slice(data, 12 + typeLength + lengthLength, valueLength);
    var words := ParseLengths(lengths, lengthLength);
    if words.Err? {
      return Err(StructError);
    }
    var parts := CutValues(values, words.value);
    return Ok((types, parts));
  }

  /** One word for each i in range(0, declared, 4), each read by `unpack_from`. */
  method ParseLengths(table: bytes, declared: nat) returns (r: Result<seq<nat>>)
    requires |table| <= declared
    ensures r == if |table| < declared || declared % 4 != 0 then Err(StructError) else Ok(Words(table, declared / 4))
  {
    hide U32;
    var words: seq<nat> := [];
    var i := 0;
    while i < declared
      invariant i == 4 * |words| <= |table|
      invariant words == Words(table, |words|)
      decreases declared - i
    {
      if i + 4 > |table| {
        assert declared % 4 == 0 ==> i + 4 <= declared;
        return Err(StructError);
      }
      words, i := words + [U32(table[i..])], i + 4;
    }
    return Ok(words);
  }

  lemma CutStep(data: bytes, lengths: seq<nat>, offset: nat, i: nat)
    requires i < |lengths|
    ensures Cut(Drop(data, offset), lengths[i..])
         == [Slice(data, offset, lengths[i])] + Cut(Drop(data, offset + lengths[i]), lengths[i + 1..])
  {
    assert lengths[i..][1..] == lengths[i + 1..];
    assert Drop(Drop(data, offset), lengths[i]) == Drop(data, offset + lengths[i]);
  }

  lemma CutEnds(data: bytes, lengths: seq<nat>, offset: nat)
    ensures Drop(data, 0) == data && lengths[0..] == lengths
    ensures Cut(Drop(data, offset), lengths[|lengths|..]) == []
  {
  }

  method CutValues(data: bytes, lengths: seq<nat>) returns (parts: seq<bytes>)
    ensures parts == Cut(data, lengths)
  {
    hide *;
    parts := [];
    var offset, i := 0, 0;
    CutEnds(data, lengths, offset);
    while i < |lengths|
      invariant 0 <= i <= |lengths|
      invariant Cut(data, lengths) == parts + Cut(Drop(data, offset), lengths[i..])
    {
      CutStep(data, lengths, offset, i);
      parts, offset, i := parts + [Slice(data, offset, lengths[i])], offset + lengths[i], i + 1;
    }
    CutEnds(data, lengths, offset);
  }

  // ----- The fields -----

  /** A client no connection is attached to, as `deserialize` makes it. */
  ghost predicate Detached(c: Client)
    reads c
  {
    !c.hasCipher && c.rxNonce == c.txNonce == 0
  }

  /** The dictionaries and pending keys `deserialize` fills. */
  class Loader {
    var db: OrderedDict<bytes, bytes>
    var addressBook: OrderedDict<string, string>
    var clientDb: OrderedDict<string, Client>
    var pendingKey: Option<bytes>
    var pendingAddress: Option<string>

    ghost predicate Valid()
      reads this, clientDb.vals.Values
    {
      Separate(clientDb) && forall c :: c in clientDb.vals.Values ==> Detached(c)
    }

    ghost function View(): Loading
      reads this, clientDb.vals.Values
    {
      Loading(State(db, addressBook, Records(clientDb)), pendingKey, pendingAddress)
    }

    constructor ()
      ensures Valid() && View() == FRESH_LOADING && clientDb.vals == map[]
    {
      db, addressBook, clientDb := Dict([], map[]), Dict([], map[]), Dict([], map[]);
      pendingKey, pendingAddress := None, None;
    }

    method StoreEntry(uuid: string, client: Client)
      requires Valid() && client !in clientDb.vals.Values && Detached(client)
      modifies `clientDb
      ensures Valid() && clientDb == Put(old(clientDb), uuid, client)
      ensures Records(clientDb) == Put(old(Records(clientDb)), uuid, client.Record())
    {
      hide Enumerates;
      clientDb := Put(clientDb, uuid, client);
      assert Records(clientDb).vals == old(Records(clientDb)).vals[uuid := client.Record()];
    }

    method NewEntry(uuid: string)
      requires Valid()
      modifies `clientDb
      ensures Valid()
      ensures View() == old(View()).(state := Login(old(View()).state, uuid))
      ensures (forall c :: c in clientDb.vals.Values ==> c in old(clientDb.vals.Values) || fresh(c))
    {
      hide Enumerates, Records;
      var client := new Client(NewClient(uuid), false, 0);
      StoreEntry(uuid, client);
    }

    method AddAddresses(value: bytes) returns (fault: Option<Fault>)
      requires Valid()
      modifies clientDb.vals.Values
      ensures Valid()
      ensures LoadAddresses(old(View()).state, value) == if fault.None? then Ok(View().state) else Err(fault.value)
      ensures View() == old(View()).(state := View().state)
    {
      var uuid := Owner(value);
      if uuid !in clientDb.vals {
        return Some(ValueFault);
      }
      var client := clientDb.vals[uuid];
      var addresses := ParseAddresses(value);
      if addresses.Err? {
        return Some(addresses.fault);
      }
      SetAddresses(clientDb, uuid, client, client.addressesOwned + addresses.value);
      return None;
    }

    method AddInbox(value: bytes) returns (fault: Option<Fault>)
      requires Valid()
      modifies clientDb.vals.Values
      ensures Valid()
      ensures LoadInbox(old(View()).state, value) == if fault.None? then Ok(View().state) else Err(fault.value)
      ensures View() == old(View()).(state := View().state)
    {
      var uuid := Owner(value);
      if uuid !in clientDb.vals {
        return Some(KeyFault);
      }
      var client := clientDb.vals[uuid];
      var requests := ParseRequests(value);
      if requests.Err? {
        return Some(requests.fault);
      }
      SetInbox(clientDb, uuid, client, client.inbox + requests.value);
      return None;
    }

    method AddOutbox(value: bytes) returns (fault: Option<Fault>)
      requires Valid()
      modifies clientDb.vals.Values
      ensures Valid()
      ensures LoadOutbox(old(View()).state, value) == if fault.None? then Ok(View().state) else Err(fault.value)
      ensures View() == old(View()).(state := View().state)
    {
      var uuid := Owner(value);
      if uuid !in clientDb.vals {
        return Some(KeyFault);
      }
      var client := clientDb.vals[uuid];
      var outbox := ParseOutbox(value, client.outbox);
      if outbox.Err? {
        return Some(outbox.fault);
      }
      SetOutbox(clientDb, uuid, client, outbox.value);
      return None;
    }

    /** One turn of the loop over zip(types, values). */
    method Load(f: Field) returns (fault: Option<Fault>)
      requires Valid()
      modifies this, clientDb.vals.Values
      ensures Valid() && (forall c :: c in clientDb.vals.Values ==> c in old(clientDb.vals.Values) || fresh(c))
      ensures LoadField(old(View()), f) == if fault.None? then Ok(View()) else Err(fault.value)
    {
      hide LoadAddresses, LoadInbox, LoadOutbox, Login, ReadChunk, Records, Owner, Body;
      fault := None;
      if f.tag == DB_KEY {
        pendingKey := Some(f.value);
      } else if f.tag == DB_VALUE {
        if pendingKey.None? {
          return Some(ValueFault);
        }
        db, pendingKey := Put(db, pendingKey.value, f.value), None;
      } else if f.tag == ADDRESS {
        assert Drop(f.value, 0) == f.value;
        var address, _ := TakeChunk(f.value, 0);
        if address.Err? {
          return Some(address.fault);
        }
        pendingAddress := Some(Decode(address.value));
      } else if f.tag == ADDRESS_UUID {
        if pendingAddress.None? {
          return Some(ValueFault);
        }
        addressBook, pendingAddress := Put(addressBook, pendingAddress.value, Decode(f.value)), None;
      } else if f.tag == CLIENT {
        NewEntry(Decode(f.value));
      } else if f.tag == CLIENT_ADDRESSES {
        fault := AddAddresses(f.value);
      } else if f.tag == CLIENT_INBOX {
        fault := AddInbox(f.value);
      } else if f.tag == CLIENT_OUTBOX {
        fault := AddOutbox(f.value);
      }
    }
  }

  // ----- deserialize -----

  lemma {:induction false} ReplayStops(fs: seq<Field>, n: nat)
    requires n <= |fs| && Replay(fs[..n]).Err?
    ensures Replay(fs) == Replay(fs[..n])
    decreases |fs| - n
  {
    hide LoadField;
    if n == |fs| {
      assert fs[..n] == fs;
    } else {
      assert fs[..n + 1][..n] == fs[..n];
      ReplayStops(fs, n + 1);
    }
  }

  lemma ReplayNext(fs: seq<Field>, n: nat)
    requires n < |fs| && Replay(fs[..n]).Ok?
    ensures Replay(fs[..n + 1]) == LoadField(Replay(fs[..n]).value, fs[n])
  {
    hide LoadField;
    assert fs[..n + 1][..n] == fs[..n];
  }

  method LoadAll(fs: seq<Field>) returns (fault: Option<Fault>, loader: Loader)
    ensures fresh(loader) && fresh(loader.clientDb.vals.Values) && loader.Valid()
    ensures Replay(fs) == if fault.None? then Ok(loader.View()) else Err(fault.value)
  {
    loader := new Loader();
    assert Replay([]) == Ok(FRESH_LOADING);
    hide *;
    var i := 0;
    while i < |fs|
      invariant 0 <= i <= |fs|
      invariant fresh(loader) && (forall c :: c in loader.clientDb.vals.Values ==> fresh(c)) && loader.Valid()
      invariant Replay(fs[..i]) == Ok(loader.View())
    {
      fault := loader.Load(fs[i]);
      ReplayNext(fs, i);
      if fault.Some? {
        ReplayStops(fs, i + 1);
        return;
      }
      i := i + 1;
    }
    assert fs[..|fs|] == fs;
    fault := None;
  }

  method Deserialize(z: Zstd, data: bytes) returns (fault: Option<Fault>, loader: Loader)
    ensures fresh(loader) && fresh(loader.clientDb.vals.Values) && loader.Valid()
    ensures fault.Some? ==> Restore(z, data) == Err(fault.value)
    ensures fault.None? ==> Restore(z, data) == Ok(loader.View().state)
  {
    hide ReadTables, Replay, Zip;
    if |data| < 4 || U32(data) != MAGIC || z.decompress(data[4..]).None? {
      loader := new Loader();
      fault := Some(if |data| < 4 then StructError else if U32(data) != MAGIC then ValueFault else ZstdFault);
      return;
    }
    var tables := ParseTables(z.decompress(data[4..]).value);
    if tables.Err? {
      loader := new Loader();
      return Some(tables.fault), loader;
    }
    var (types, values) := tables.value;
    fault, loader := LoadAll(Zip(types, values));
    if fault.None? && |types| != |values| {
      fault := Some(ValueFault);
    }
  }

  /** `deserialize(data, server)`: the server takes over the restored tables, or keeps its own when reading raises. */
  method DeserializeInto(z: Zstd, data: bytes, server: Server) returns (fault: Option<Fault>)
    requires server.Valid()
    modifies server
    ensures server.Valid()
    ensures fault.Some? ==> Restore(z, data) == Err(fault.value) && server.View() == old(server.View())
    ensures fault.None? ==> Restore(z, data) == Ok(server.View())
    ensures fault.None? ==> fresh(server.Clients()) && forall c :: c in server.Clients() ==> Detached(c)
  {
    hide Restore;
    var loader;
    fault, loader := Deserialize(z, data);
    if fault.None? {
      server.ApplyState(loader.db, loader.addressBook, loader.clientDb);
    }
  }
}
