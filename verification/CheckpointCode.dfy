/**
 `serialize` as the loops it is, proved against the functions of `Checkpoint`
 and `CheckpointQueues`. It runs while no `outbox_lock` is held or awaited;
 `CheckpointMoves` has the checkpoints that have to wait for one.
 */
module CheckpointCode {
  import opened Wrappers
  import opened Bytes
  import opened Dicts
  import opened Tables
  import opened Commands
  import opened Servers
  import opened Checkpoint
  import opened CheckpointProofs
  import opened CheckpointQueues

  // ===== serialize =====

  lemma DbOkByKeys(db: OrderedDict<bytes, bytes>)
    ensures DbOk(db) <==>
              forall i :: 0 <= i < |db.keys| ==> db.keys[i] in db.vals && |db.keys[i]| < U32_LIMIT && |db.vals[db.keys[i]]| < U32_LIMIT
  {
    KeysOf(db);
  }

  /** The three lists `add_field` appends to; a method that returns false has raised. */
  class TableWriter {
    var types: bytes
    var lengths: bytes
    var values: seq<bytes>

    ghost predicate Valid()
      reads this
    {
      |types| == |values| && Fit(values) && lengths == Lengths(values)
    }

    ghost function Fields(): seq<Field>
      reads this
    {
      Zip(types, values)
    }

    constructor ()
      ensures Valid() && Fields() == []
    {
      types, lengths, values := [], [], [];
    }

    method AddField(tag: byte, value: bytes) returns (ok: bool)
      requires Valid()
      modifies this
      ensures ok <==> |value| < U32_LIMIT
      ensures ok ==> Valid() && Fields() == old(Fields()) + [Field(tag, value)]
    {
      types := types + [tag];
      if |value| >= U32_LIMIT {
        return false;
      }
      lengths := lengths + PackU32(|value|);
      values := values + [value];
      assert values[..|values| - 1] == old(values);
      return true;
    }

    /** The header words and the joined tables. */
    method Finish() returns (r: Result<bytes>)
      requires Valid()
      ensures r.Ok? <==> TablesFit(Fields())
      ensures r.Ok? ==> r.value == TablesBytes(Fields())
    {
      var body := Join(values);
      assert Values(Fields()) == values && TypeTable(Fields()) == types;
      if |types| >= U32_LIMIT || |lengths| >= U32_LIMIT || |body| >= U32_LIMIT {
        return Err(StructError);
      }
      return Ok(PackU32(|types|) + PackU32(|lengths|) + PackU32(|body|) + types + lengths + body);
    }

    method WriteDb(db: OrderedDict<bytes, bytes>) returns (ok: bool)
      requires Valid() && Fields() == []
      modifies this
      ensures ok <==> DbOk(db)
      ensures ok ==> Valid() && Fields() == DbFields(db, |db.keys|)
    {
      assert DbFields(db, 0) == [];
      hide Fields, Valid, DbFields, DbOk;
      DbOkByKeys(db);
      KeysOf(db);
      var i := 0;
      while i < |db.keys|
        invariant 0 <= i <= |db.keys|
        invariant Valid() && Fields() == DbFields(db, i)
        invariant forall j :: 0 <= j < i ==> db.keys[j] in db.vals && |db.keys[j]| < U32_LIMIT && |db.vals[db.keys[j]]| < U32_LIMIT
      {
        var key := db.keys[i];
        var keyOk := AddField(DB_KEY, key);
        if !keyOk {
          return false;
        }
        var valueOk := AddField(DB_VALUE, db.vals[key]);
        if !valueOk {
          return false;
        }
        i := i + 1;
        DbFieldsStep(db, i);
      }
      return true;
    }

    method WriteEntry(key: string, uuid: string) returns (ok: bool)
      requires Valid()
      modifies this
      ensures ok <==> AddressOk(key, uuid)
      ensures ok ==> Valid() && Fields() == old(Fields()) + [Field(ADDRESS, Chunk(Encode(key)))] + [Field(ADDRESS_UUID, Encode(uuid))]
    {
      if |uuid| != UUID_LENGTH || |key| >= U32_LIMIT || !Latin1(key) {
        return false;
      }
      ok := AddField(ADDRESS, Chunk(Encode(key)));
      if !ok || !Latin1(uuid) {
        return false;
      }
      ok := AddField(ADDRESS_UUID, Encode(uuid));
    }

    method WriteBook(book: OrderedDict<string, string>) returns (ok: bool)
      requires Valid()
      modifies this
      ensures ok <==> BookOk(book)
      ensures ok ==> Valid() && Fields() == old(Fields()) + BookFields(book, |book.keys|)
    {
      hide AddressOk, Fields, Valid;
      KeysOf(book);
      var i := 0;
      if BookOk(book) {
        NoBookFields(old(Fields()), book);
      }
      while i < |book.keys|
        invariant 0 <= i <= |book.keys|
        invariant Valid()
        invariant forall j :: 0 <= j < i ==> AddressOk(book.keys[j], book.vals[book.keys[j]])
        invariant BookOk(book) ==> Fields() == old(Fields()) + BookFields(book, i)
      {
        ok := WriteEntry(book.keys[i], book.vals[book.keys[i]]);
        if !ok {
          return false;
        }
        i := i + 1;
        if BookOk(book) {
          BookFieldsStep(old(Fields()), book, i);
        }
      }
      return true;
    }
  }

  /** b"".join over addresses_owned */
  method AddressesBlob(addresses: seq<string>) returns (ok: bool, blob: bytes)
    ensures ok <==> AddressesOk(addresses)
    ensures ok ==> blob == AddressesBytes(addresses)
  {
    blob := [];
    var i := 0;
    assert addresses[0..] == addresses;
    while i < |addresses|
      invariant 0 <= i <= |addresses|
      invariant AddressesOk(addresses) <==> AddressesOk(addresses[i..])
      invariant AddressesOk(addresses) ==> AddressesBytes(addresses) == blob + AddressesBytes(addresses[i..])
    {
      assert addresses[i..][0] == addresses[i] && addresses[i..][1..] == addresses[i + 1..];
      if !Latin1(addresses[i]) || |addresses[i]| >= U32_LIMIT {
        return false, [];
      }
      hide Chunk, Encode;
      blob, i := blob + Chunk(Encode(addresses[i])), i + 1;
    }
    return true, blob;
  }

  method OutboxBlob(outbox: OrderedDict<bytes, Response>) returns (ok: bool, blob: bytes)
    ensures ok <==> ResponsesOk(Responses(outbox))
    ensures ok ==> blob == ResponsesBytes(Responses(outbox))
  {
    KeysOf(outbox);
    ghost var all := Responses(outbox);
    blob := [];
    var i := 0;
    assert all[0..] == all;
    while i < |outbox.keys|
      invariant 0 <= i <= |outbox.keys|
      invariant ResponsesOk(all) <==> ResponsesOk(all[i..])
      invariant ResponsesOk(all) ==> ResponsesBytes(all) == blob + ResponsesBytes(all[i..])
    {
      var r := outbox.vals[outbox.keys[i]];
      assert all[i..][0] == r && all[i..][1..] == all[i + 1..];
      if !ResponseOk(r) {
        return false, [];
      }
      hide ResponseBytes;
      blob, i := blob + ResponseBytes(r), i + 1;
    }
    return true, blob;
  }

  /** The `get_nowait` loop: a request taken off the queue is gone even when packing it raises. */
  method DrainInbox(client: Client) returns (ok: bool, blob: bytes)
    modifies client`inbox
    ensures ok <==> RequestsOk(old(client.inbox))
    ensures ok ==> blob == RequestsBytes(old(client.inbox))
    ensures client.inbox == old(client.inbox)[QueueTaken(old(client.inbox))..]
  {
    blob := [];
    ghost var n := 0;
    while client.inbox != []
      invariant 0 <= n <= |old(client.inbox)| && client.inbox == old(client.inbox)[n..]
      invariant n + QueueTaken(client.inbox) == QueueTaken(old(client.inbox))
      invariant RequestsOk(old(client.inbox)) <==> RequestsOk(client.inbox)
      invariant RequestsOk(old(client.inbox)) ==> RequestsBytes(old(client.inbox)) == blob + RequestsBytes(client.inbox)
      decreases |client.inbox|
    {
      var request := client.inbox[0];
      client.inbox, n := client.inbox[1..], n + 1;
      if !RequestOk(request) {
        return false, [];
      }
      hide RequestBytes;
      blob := blob + RequestBytes(request);
    }
    return true, blob;
  }

  // ----- One client, then all of them -----

  lemma ViewAfterDrain(before: State, after: State, uuid: string, n: nat)
    requires uuid in before.clients.vals
    requires after.db == before.db && after.addressBook == before.addressBook
    requires after.clients.keys == before.clients.keys && after.clients.vals.Keys == before.clients.vals.Keys
    requires forall u :: u in before.clients.vals && u != uuid ==> after.clients.vals[u] == before.clients.vals[u]
    requires after.clients.vals[uuid] == before.clients.vals[uuid].(inbox := Drop(before.clients.vals[uuid].inbox, n))
    ensures after == TakeOff(before, uuid, n)
  {
    TakeOffKeeps(before, uuid, n);
    assert after.clients.vals == TakeOff(before, uuid, n).clients.vals;
  }

  /** The fields written before the queue is touched. */
  method WriteHead(w: TableWriter, client: Client) returns (ok: bool)
    requires w.Valid()
    modifies w
    ensures ok <==> HeadOk(client.Record())
    ensures ok ==> w.Valid() && w.Fields() == old(w.Fields()) + [Field(CLIENT, Encode(client.uuid))]
                                 + [Field(CLIENT_ADDRESSES, Encode(client.uuid) + AddressesBytes(client.addressesOwned))]
  {
    hide w.Fields, w.Valid, Latin1, AddressesOk, AddressesBytes;
    if |client.uuid| != UUID_LENGTH || !Latin1(client.uuid) {
      return false;
    }
    var id := Encode(client.uuid);
    ok := w.AddField(CLIENT, id);
    var addressesOk, addresses := AddressesBlob(client.addressesOwned);
    if !ok || !addressesOk {
      return false;
    }
    ok := w.AddField(CLIENT_ADDRESSES, id + addresses);
  }

  lemma TakenOf(c: ClientRecord)
    ensures TakenFrom(c) == if HeadOk(c) then QueueTaken(c.inbox) else 0
    ensures Drop(c.inbox, TakenFrom(c)) == if HeadOk(c) then c.inbox[QueueTaken(c.inbox)..] else c.inbox
  {
    hide HeadOk, QueueTaken;
  }

  lemma FourFields(prior: seq<Field>, c: ClientRecord)
    requires ClientOk(c)
    ensures prior + ClientFields(c) ==
              prior + [Field(CLIENT, Encode(c.uuid))] + [Field(CLIENT_ADDRESSES, Encode(c.uuid) + AddressesBytes(c.addressesOwned))]
              + [Field(CLIENT_INBOX, Encode(c.uuid) + RequestsBytes(c.inbox))]
              + [Field(CLIENT_OUTBOX, Encode(c.uuid) + ResponsesBytes(Responses(c.outbox)))]
  {
    hide Encode, AddressesBytes, RequestsBytes, ResponsesBytes, Responses;
  }

  /** One turn of the loop over `client_db.values()`. */
  method SerializeClient(w: TableWriter, client: Client) returns (ok: bool)
    requires w.Valid()
    modifies w, client`inbox
    ensures ok <==> ClientOk(old(client.Record()))
    ensures ok ==> w.Valid() && w.Fields() == old(w.Fields()) + ClientFields(old(client.Record()))
    ensures client.inbox == Drop(old(client.inbox), TakenFrom(old(client.Record())))
  {
    ghost var c, prior := client.Record(), w.Fields();
    ClientOkParts(c);
    TakenOf(c);
    hide w.Fields, w.Valid, Encode, ClientOk, HeadOk, TakenFrom, Drop, QueueTaken, ClientFields;
    hide AddressesBytes, RequestsOk, RequestsBytes, ResponsesOk, ResponsesBytes, Responses;
    ok := WriteHead(w, client);
    if !ok {
      return;
    }
    var id := Encode(client.uuid);
    var inboxOk, inbox := DrainInbox(client);
    if !inboxOk {
      return false;
    }
    ok := w.AddField(CLIENT_INBOX, id + inbox);
    var outboxOk, outbox := OutboxBlob(client.outbox);
    if !ok || !outboxOk {
      return false;
    }
    ok := w.AddField(CLIENT_OUTBOX, id + outbox);
    if ok {
      FourFields(prior, c);
    }
  }

  /** SerializeClient, seen on the whole server. */
  method SerializeNext(server: Server, w: TableWriter, uuid: string) returns (ok: bool)
    requires server.Valid() && w.Valid()
    requires uuid in server.clientDb.vals
    modifies w, server.Clients()
    ensures server.Valid() && uuid in old(server.View()).clients.vals
    ensures ok <==> ClientOk(old(server.View()).clients.vals[uuid])
    ensures ok ==> w.Valid() && w.Fields() == old(w.Fields()) + ClientFields(old(server.View()).clients.vals[uuid])
    ensures server.View() == TakeOff(old(server.View()), uuid, TakenFrom(old(server.View()).clients.vals[uuid]))
  {
    hide w.Fields, w.Valid, ClientFields, ClientOk, TakenFrom, TakeOff;
    var client := server.clientDb.vals[uuid];
    ghost var taken := TakenFrom(client.Record());
    ok := SerializeClient(w, client);
    forall u | u in server.clientDb.vals && u != uuid
      ensures server.clientDb.vals[u].Record() == old(server.clientDb.vals[u].Record())
    {
      assert server.clientDb.vals[u] != client;
    }
    ViewAfterDrain(old(server.View()), server.View(), uuid, taken);
  }

  /** What holds once the first i clients are written: fs are the fields then, s the tables. */
  ghost predicate Written(before: State, prior: seq<Field>, i: nat, fs: seq<Field>, s: State) {
    && i <= |before.clients.keys|
    && s == Drained(before, i)
    && FirstBad(before.clients, 0) == FirstBad(before.clients, i)
    && (forall j :: 0 <= j < i ==> before.clients.keys[j] in before.clients.vals && ClientOk(before.clients.vals[before.clients.keys[j]]))
    && (ClientsOk(before.clients) ==> fs == prior + ClientsFields(before.clients, i))
  }

  lemma WrittenNone(before: State, prior: seq<Field>)
    ensures Written(before, prior, 0, prior, before)
  {
    if ClientsOk(before.clients) {
      NoClientFields(prior, before.clients);
    }
  }

  lemma WrittenCurrent(before: State, prior: seq<Field>, i: nat, fs: seq<Field>, s: State)
    requires Written(before, prior, i, fs, s) && i < |before.clients.keys|
    ensures var u := before.clients.keys[i];
            u in before.clients.vals && u in s.clients.vals && s.clients.vals[u] == before.clients.vals[u]
  {
    hide Drained, ClientOk, TakenFrom, FirstBad;
    DrainedIs(before, i, i);
  }

  lemma WrittenStep(before: State, prior: seq<Field>, i: nat, fs: seq<Field>, s: State)
    requires Written(before, prior, i, fs, s) && i < |before.clients.keys|
    requires before.clients.keys[i] in before.clients.vals && ClientOk(before.clients.vals[before.clients.keys[i]])
    ensures var u := before.clients.keys[i];
            Written(before, prior, i + 1, fs + ClientFields(before.clients.vals[u]),
                    TakeOff(s, u, TakenFrom(before.clients.vals[u])))
  {
    hide ClientOk, ClientFields, TakeOff, TakenFrom, ClientsFields;
    FirstBadStep(before.clients, i);
    DrainedStep(before, i);
    if ClientsOk(before.clients) {
      ClientsFieldsStep(prior, before.clients, i + 1);
    }
  }

  lemma WrittenAll(before: State, prior: seq<Field>, fs: seq<Field>, s: State)
    requires Written(before, prior, |before.clients.keys|, fs, s)
    ensures ClientsOk(before.clients) && FirstBad(before.clients, 0) == |before.clients.keys|
    ensures fs == prior + ClientsFields(before.clients, |before.clients.keys|)
    ensures s == Drained(before, |before.clients.keys|)
  {
    FirstBadNone(before.clients, |before.clients.keys|);
  }

  lemma WrittenStops(before: State, prior: seq<Field>, i: nat, fs: seq<Field>, s: State)
    requires Written(before, prior, i, fs, s) && i < |before.clients.keys|
    requires before.clients.keys[i] in before.clients.vals && !ClientOk(before.clients.vals[before.clients.keys[i]])
    ensures !ClientsOk(before.clients) && FirstBad(before.clients, 0) == i
    ensures TakeOff(s, before.clients.keys[i], TakenFrom(before.clients.vals[before.clients.keys[i]])) == Drained(before, i + 1)
  {
    hide ClientOk, TakeOff, TakenFrom;
    FirstBadStep(before.clients, i);
    DrainedStep(before, i);
  }

  method WriteClients(server: Server, w: TableWriter, ghost before: State, ghost prior: seq<Field>) returns (ok: bool)
    requires server.Valid() && w.Valid() && before == server.View() && prior == w.Fields()
    modifies w, server.Clients()
    ensures server.Valid()
    ensures ok ==> w.Valid() && Written(before, prior, |before.clients.keys|, w.Fields(), server.View())
    ensures !ok ==> !ClientsOk(before.clients) && FirstBad(before.clients, 0) < |before.clients.keys| &&
                    server.View() == Drained(before, FirstBad(before.clients, 0) + 1)
  {
    KeysOf(server.clientDb);
    assert before.clients.keys == server.clientDb.keys;
    hide *;
    WrittenNone(before, prior);
    var i := 0;
    while i < |server.clientDb.keys|
      invariant 0 <= i <= |server.clientDb.keys|
      invariant w.Valid() && server.Valid() && Written(before, prior, i, w.Fields(), server.View())
    {
      ghost var s, fs := server.View(), w.Fields();
      WrittenCurrent(before, prior, i, fs, s);
      ok := SerializeNext(server, w, server.clientDb.keys[i]);
      if !ok {
        WrittenStops(before, prior, i, fs, s);
        return false;
      }
      WrittenStep(before, prior, i, fs, s);
      i := i + 1;
    }
    return true;
  }

  // ----- serialize -----

  method Serialize(server: Server, z: Zstd) returns (r: Result<bytes>)
    requires server.Valid()
    modifies server.Clients()
    ensures server.Valid()
    ensures r.Ok? <==> Serialisable(old(server.View()))
    ensures r.Ok? ==> r.value == Snapshot(z, old(server.View()))
    ensures server.View() == AfterSave(old(server.View()))
  {
    hide Snapshot, FirstBad, Written, Drained, AfterSave, ClientsOk, BookOk, DbOk, TablesFit, DbFields, BookFields, ClientsFields;
    ghost var before := server.View();
    var w := new TableWriter();
    var ok := w.WriteDb(server.db);
    if ok {
      ok := w.WriteBook(server.addressBook);
    }
    if !ok {
      SaveFailsEarly(before);
      return Err(ValueFault);
    }
    ghost var prior := w.Fields();
    ok := WriteClients(server, w, before, prior);
    if !ok {
      SaveFailsOnClient(before);
      return Err(ValueFault);
    }
    WrittenAll(before, prior, w.Fields(), server.View());
    SaveReachesAll(before);
    assert w.Fields() == StateFields(before);
    var tables := w.Finish();
    if tables.Err? {
      return Err(StructError);
    }
    SnapshotOf(z, before);
    return Ok(PackU32(MAGIC) + z.compress(tables.value));
  }

  lemma SnapshotOf(z: Zstd, s: State)
    requires Serialisable(s)
    ensures Snapshot(z, s) == PackU32(MAGIC) + z.compress(TablesBytes(StateFields(s)))
  {
  }
}
