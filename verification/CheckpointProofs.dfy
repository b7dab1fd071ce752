/** The checkpoint loses nothing: what is written is what is read back, and exactly when. */
module CheckpointProofs {
  import opened Wrappers
  import opened Bytes
  import opened Dicts
  import opened Tables
  import opened Commands
  import opened Checkpoint

  // ----- Nested records read back -----

  lemma ReadAddressesStep(address: string, tail: bytes, others: seq<string>)
    requires Latin1(address) && |address| < U32_LIMIT && ReadAddresses(tail) == Ok(others)
    ensures ReadAddresses(Chunk(Encode(address)) + tail) == Ok([address] + others)
  {
    ReadChunkOf(Encode(address), tail);
    DecodeEncode(address);
  }

  lemma {:induction false} AddressesRoundTrip(addresses: seq<string>)
    requires AddressesOk(addresses)
    ensures ReadAddresses(AddressesBytes(addresses)) == Ok(addresses)
  {
    if addresses != [] {
      hide ReadAddresses, Chunk, Encode;
      AddressesRoundTrip(addresses[1..]);
      ReadAddressesStep(addresses[0], AddressesBytes(addresses[1..]), addresses[1..]);
      assert addresses == [addresses[0]] + addresses[1..];
    }
  }

  lemma ReadRequestOf(r: Request, tail: bytes)
    requires RequestOk(r)
    ensures ReadRequest(RequestBytes(r) + tail) == Ok((r, tail))
  {
    var d := Chunk(r.requestUuid) + tail;
    var c := Chunk(r.request) + d;
    var b := Chunk(r.key) + c;
    assert RequestBytes(r) + tail == Chunk(r.returnUuid) + b;
    ReadChunkOf(r.returnUuid, b);
    ReadChunkOf(r.key, c);
    ReadChunkOf(r.request, d);
    ReadChunkOf(r.requestUuid, tail);
  }

  lemma ReadRequestsStep(r: Request, tail: bytes, others: seq<Request>)
    requires RequestOk(r) && ReadRequests(tail) == Ok(others)
    ensures ReadRequests(RequestBytes(r) + tail) == Ok([r] + others)
  {
    ReadRequestOf(r, tail);
  }

  lemma {:induction false} RequestsRoundTrip(rs: seq<Request>)
    requires RequestsOk(rs)
    ensures ReadRequests(RequestsBytes(rs)) == Ok(rs)
  {
    if rs != [] {
      hide ReadRequests, RequestBytes;
      RequestsRoundTrip(rs[1..]);
      ReadRequestsStep(rs[0], RequestsBytes(rs[1..]), rs[1..]);
      assert rs == [rs[0]] + rs[1..];
    }
  }

  lemma ReadResponseOf(r: Response, tail: bytes)
    requires ResponseOk(r)
    ensures ReadResponse(ResponseBytes(r) + tail) == Ok((r, tail))
  {
    var c := Chunk(r.responseUuid) + tail;
    var b := Chunk(r.response) + c;
    assert ResponseBytes(r) + tail == Chunk(r.key) + b;
    ReadChunkOf(r.key, b);
    ReadChunkOf(r.response, c);
    ReadChunkOf(r.responseUuid, tail);
  }

  lemma ReadResponsesStep(r: Response, tail: bytes, others: seq<Response>)
    requires ResponseOk(r) && ReadResponses(tail) == Ok(others)
    ensures ReadResponses(ResponseBytes(r) + tail) == Ok([r] + others)
  {
    ReadResponseOf(r, tail);
  }

  lemma {:induction false} ResponsesRoundTrip(rs: seq<Response>)
    requires ResponsesOk(rs)
    ensures ReadResponses(ResponsesBytes(rs)) == Ok(rs)
  {
    if rs != [] {
      hide ReadResponses, ResponseBytes;
      ResponsesRoundTrip(rs[1..]);
      ReadResponsesStep(rs[0], ResponsesBytes(rs[1..]), rs[1..]);
      assert rs == [rs[0]] + rs[1..];
    }
  }

  /** An outbox keyed by its responses' own UUIDs is rebuilt from its values alone. */
  lemma {:induction false} StorePrefix(outbox: OrderedDict<bytes, Response>, n: nat)
    requires OutboxKeyed(outbox) && n <= |outbox.keys|
    ensures Store(NO_RESPONSES, Responses(outbox)[..n]) == Prefix(outbox, n)
  {
    if n == 0 {
      PrefixNone(outbox);
    } else {
      StorePrefix(outbox, n - 1);
      PrefixStep(outbox, n - 1);
      assert Responses(outbox)[..n][..n - 1] == Responses(outbox)[..n - 1];
    }
  }

  lemma StoreAll(outbox: OrderedDict<bytes, Response>)
    requires OutboxKeyed(outbox)
    ensures Store(NO_RESPONSES, Responses(outbox)) == outbox
  {
    StorePrefix(outbox, |outbox.keys|);
    PrefixAll(outbox);
    assert Responses(outbox)[..|outbox.keys|] == Responses(outbox);
  }

  // ----- Fields replay to the state they came from -----

  lemma ReplaySnoc(fs: seq<Field>, f: Field)
    requires Replay(fs).Ok?
    ensures Replay(fs + [f]) == LoadField(Replay(fs).value, f)
  {
    assert (fs + [f])[..|fs|] == fs;
  }

  lemma ReplayNothing(db: OrderedDict<bytes, bytes>)
    ensures Replay(DbFields(db, 0)) == Ok(Loading(EMPTY_STATE.(db := Prefix(db, 0)), None, None))
  {
    PrefixNone(db);
  }

  lemma NoBookFields(prior: seq<Field>, book: OrderedDict<string, string>)
    requires BookOk(book)
    ensures prior + BookFields(book, 0) == prior && Prefix(book, 0) == Dict([], map[])
  {
    PrefixNone(book);
  }

  lemma NoClientFields(prior: seq<Field>, clients: OrderedDict<string, ClientRecord>)
    requires ClientsOk(clients)
    ensures prior + ClientsFields(clients, 0) == prior && Prefix(clients, 0) == NO_CLIENTS
  {
    PrefixNone(clients);
  }

  lemma {:induction false} ReplayDb(db: OrderedDict<bytes, bytes>, n: nat)
    requires n <= |db.keys|
    ensures Replay(DbFields(db, n)) == Ok(Loading(EMPTY_STATE.(db := Prefix(db, n)), None, None))
  {
    hide *;
    if n == 0 {
      ReplayNothing(db);
    } else {
      ReplayDb(db, n - 1);
      PrefixStep(db, n - 1);
      DbFieldsStep(db, n);
      ReplayPair(DbFields(db, n - 1), EMPTY_STATE.(db := Prefix(db, n - 1)), db.keys[n - 1], db.vals[db.keys[n - 1]]);
    }
  }

  lemma DbFieldsStep(db: OrderedDict<bytes, bytes>, n: nat)
    requires 0 < n <= |db.keys|
    ensures var k := db.keys[n - 1];
            k in db.vals && DbFields(db, n) == DbFields(db, n - 1) + [Field(DB_KEY, k)] + [Field(DB_VALUE, db.vals[k])]
  {
    NextKey(db, n - 1);
  }

  lemma ReplayPair(prior: seq<Field>, s: State, key: bytes, value: bytes)
    requires Replay(prior) == Ok(Loading(s, None, None))
    ensures Replay(prior + [Field(DB_KEY, key)] + [Field(DB_VALUE, value)])
         == Ok(Loading(s.(db := Put(s.db, key, value)), None, None))
  {
    hide Replay;
    ReplaySnoc(prior, Field(DB_KEY, key));
    ReplaySnoc(prior + [Field(DB_KEY, key)], Field(DB_VALUE, value));
  }

  lemma {:induction false} ReplayBook(prior: seq<Field>, s: State, book: OrderedDict<string, string>, n: nat)
    requires n <= |book.keys| && BookOk(book)
    requires Replay(prior) == Ok(Loading(s, None, None)) && s.addressBook == Dict([], map[])
    ensures Replay(prior + BookFields(book, n)) == Ok(Loading(s.(addressBook := Prefix(book, n)), None, None))
  {
    hide *;
    if n == 0 {
      NoBookFields(prior, book);
    } else {
      ReplayBook(prior, s, book, n - 1);
      PrefixStep(book, n - 1);
      BookFieldsStep(prior, book, n);
      ReplayEntry(prior + BookFields(book, n - 1), s.(addressBook := Prefix(book, n - 1)), book.keys[n - 1], book.vals[book.keys[n - 1]]);
    }
  }

  lemma BookFieldsStep(prior: seq<Field>, book: OrderedDict<string, string>, n: nat)
    requires 0 < n <= |book.keys| && BookOk(book)
    ensures var k := book.keys[n - 1];
            && k in book.vals && AddressOk(k, book.vals[k])
            && prior + BookFields(book, n) ==
               prior + BookFields(book, n - 1) + [Field(ADDRESS, Chunk(Encode(k)))] + [Field(ADDRESS_UUID, Encode(book.vals[k]))]
  {
    NextKey(book, n - 1);
  }

  lemma ReplayEntry(prior: seq<Field>, s: State, key: string, uuid: string)
    requires AddressOk(key, uuid)
    requires Replay(prior) == Ok(Loading(s, None, None))
    ensures Replay(prior + [Field(ADDRESS, Chunk(Encode(key)))] + [Field(ADDRESS_UUID, Encode(uuid))])
         == Ok(Loading(s.(addressBook := Put(s.addressBook, key, uuid)), None, None))
  {
    hide Replay, Chunk, ReadChunk;
    ReadChunkOf(Encode(key), []);
    assert Chunk(Encode(key)) + [] == Chunk(Encode(key));
    DecodeEncode(key);
    DecodeEncode(uuid);
    ReplaySnoc(prior, Field(ADDRESS, Chunk(Encode(key))));
    ReplaySnoc(prior + [Field(ADDRESS, Chunk(Encode(key)))], Field(ADDRESS_UUID, Encode(uuid)));
  }

  lemma PutPut<K(!new), V>(d: OrderedDict<K, V>, k: K, v: V, w: V)
    ensures Put(Put(d, k, v), k, w) == Put(d, k, w)
  {
    assert d.vals[k := v][k := w] == d.vals[k := w];
  }

  lemma OwnerAndBody(uuid: string, body: bytes)
    requires UuidOk(uuid)
    ensures Owner(Encode(uuid) + body) == uuid && Body(Encode(uuid) + body) == body
  {
    assert (Encode(uuid) + body)[..UUID_LENGTH] == Encode(uuid);
    DecodeEncode(uuid);
  }

  /** The fields of one client after its first, each read into an entry that has just been put there. */
  lemma LoadAddressesOf(s: State, c: ClientRecord, addresses: seq<string>)
    requires UuidOk(c.uuid) && AddressesOk(addresses) && c.addressesOwned == []
    ensures LoadAddresses(WithClient(s, c.uuid, c), Encode(c.uuid) + AddressesBytes(addresses))
         == Ok(WithClient(s, c.uuid, c.(addressesOwned := addresses)))
  {
    OwnerAndBody(c.uuid, AddressesBytes(addresses));
    AddressesRoundTrip(addresses);
    PutPut(s.clients, c.uuid, c, c.(addressesOwned := addresses));
    assert [] + addresses == addresses;
  }

  lemma LoadInboxOf(s: State, c: ClientRecord, inbox: seq<Request>)
    requires UuidOk(c.uuid) && RequestsOk(inbox) && c.inbox == []
    ensures LoadInbox(WithClient(s, c.uuid, c), Encode(c.uuid) + RequestsBytes(inbox))
         == Ok(WithClient(s, c.uuid, c.(inbox := inbox)))
  {
    OwnerAndBody(c.uuid, RequestsBytes(inbox));
    RequestsRoundTrip(inbox);
    PutPut(s.clients, c.uuid, c, c.(inbox := inbox));
    assert [] + inbox == inbox;
  }

  lemma LoadOutboxOf(s: State, c: ClientRecord, outbox: OrderedDict<bytes, Response>)
    requires UuidOk(c.uuid) && ResponsesOk(Responses(outbox)) && OutboxKeyed(outbox) && c.outbox == NO_RESPONSES
    ensures LoadOutbox(WithClient(s, c.uuid, c), Encode(c.uuid) + ResponsesBytes(Responses(outbox)))
         == Ok(WithClient(s, c.uuid, c.(outbox := outbox)))
  {
    OwnerAndBody(c.uuid, ResponsesBytes(Responses(outbox)));
    ResponsesRoundTrip(Responses(outbox));
    StoreAll(outbox);
    PutPut(s.clients, c.uuid, c, c.(outbox := outbox));
  }

  lemma ReplayOne(fs: seq<Field>, s: State, f: Field, t: State)
    requires Replay(fs) == Ok(Loading(s, None, None))
    requires LoadField(Loading(s, None, None), f) == Ok(Loading(t, None, None))
    ensures Replay(fs + [f]) == Ok(Loading(t, None, None))
  {
    ReplaySnoc(fs, f);
  }

  /** The four fields of one client put exactly that client into the table. */
  lemma ReplayClient(prior: seq<Field>, s: State, c: ClientRecord)
    requires ClientOk(c) && OutboxKeyed(c.outbox)
    requires Replay(prior) == Ok(Loading(s, None, None))
    ensures Replay(prior + ClientFields(c)) == Ok(Loading(s.(clients := Put(s.clients, c.uuid, c)), None, None))
  {
    hide Replay, AddressesBytes, RequestsBytes, ResponsesBytes, Responses, LoadAddresses, LoadInbox, LoadOutbox;
    var fs := ClientFields(c);
    var c0 := NewClient(c.uuid);
    var c1 := c0.(addressesOwned := c.addressesOwned);
    var c2 := c1.(inbox := c.inbox);
    var s0, s1, s2 := WithClient(s, c.uuid, c0), WithClient(s, c.uuid, c1), WithClient(s, c.uuid, c2);
    DecodeEncode(c.uuid);
    ReplayOne(prior, s, fs[0], s0);
    LoadAddressesOf(s, c0, c.addressesOwned);
    ReplayOne(prior + [fs[0]], s0, fs[1], s1);
    LoadInboxOf(s, c1, c.inbox);
    ReplayOne(prior + [fs[0]] + [fs[1]], s1, fs[2], s2);
    LoadOutboxOf(s, c2, c.outbox);
    ReplayOne(prior + [fs[0]] + [fs[1]] + [fs[2]], s2, fs[3], WithClient(s, c.uuid, c));
    assert prior + fs == prior + [fs[0]] + [fs[1]] + [fs[2]] + [fs[3]];
  }

  /** The two keys every client entry and every response repeat. */
  predicate Consistent(s: State) {
    forall u :: u in s.clients.vals ==> s.clients.vals[u].uuid == u && OutboxKeyed(s.clients.vals[u].outbox)
  }

  lemma ClientsFieldsStep(prior: seq<Field>, clients: OrderedDict<string, ClientRecord>, n: nat)
    requires 0 < n <= |clients.keys| && ClientsOk(clients)
    ensures var u := clients.keys[n - 1];
            && u in clients.vals && ClientOk(clients.vals[u])
            && prior + ClientsFields(clients, n) == prior + ClientsFields(clients, n - 1) + ClientFields(clients.vals[u])
  {
    NextKey(clients, n - 1);
    hide ClientFields, ClientOk;
  }

  lemma {:induction false} ReplayClients(prior: seq<Field>, s: State, clients: OrderedDict<string, ClientRecord>, n: nat)
    requires n <= |clients.keys| && ClientsOk(clients)
    requires forall u :: u in clients.vals ==> clients.vals[u].uuid == u && OutboxKeyed(clients.vals[u].outbox)
    requires Replay(prior) == Ok(Loading(s, None, None)) && s.clients == NO_CLIENTS
    ensures Replay(prior + ClientsFields(clients, n)) == Ok(Loading(s.(clients := Prefix(clients, n)), None, None))
  {
    hide *;
    if n == 0 {
      NoClientFields(prior, clients);
    } else {
      ReplayClients(prior, s, clients, n - 1);
      PrefixStep(clients, n - 1);
      ClientsFieldsStep(prior, clients, n);
      ReplayClient(prior + ClientsFields(clients, n - 1), s.(clients := Prefix(clients, n - 1)), clients.vals[clients.keys[n - 1]]);
    }
  }

  lemma ReplayState(s: State)
    requires Serialisable(s) && Consistent(s)
    ensures Replay(StateFields(s)) == Ok(FRESH_LOADING.(state := s))
  {
    ReplayDb(s.db, |s.db.keys|);
    PrefixAll(s.db);
    PrefixAll(s.addressBook);
    PrefixAll(s.clients);
    var fs := DbFields(s.db, |s.db.keys|);
    var t := EMPTY_STATE.(db := s.db);
    ReplayBook(fs, t, s.addressBook, |s.addressBook.keys|);
    ReplayClients(fs + BookFields(s.addressBook, |s.addressBook.keys|),
                  t.(addressBook := s.addressBook), s.clients, |s.clients.keys|);
  }

  // ----- The tables split back into the fields -----

  lemma ZipFields(fs: seq<Field>)
    ensures Zip(TypeTable(fs), Values(fs)) == fs
  {
  }

  lemma HeaderWords(a: nat, b: nat, c: nat, tail: bytes)
    requires a < U32_LIMIT && b < U32_LIMIT && c < U32_LIMIT
    ensures var all := PackU32(a) + PackU32(b) + PackU32(c) + tail;
            U32(all) == a && U32(all[4..]) == b && U32(all[8..]) == c
  {
    var all := PackU32(a) + PackU32(b) + PackU32(c) + tail;
    assert all == PackU32(a) + (PackU32(b) + (PackU32(c) + tail));
    UnpackPack(a, PackU32(b) + (PackU32(c) + tail));
    assert all[4..] == PackU32(b) + (PackU32(c) + tail);
    UnpackPack(b, PackU32(c) + tail);
    assert all[8..] == PackU32(c) + tail;
    UnpackPack(c, tail);
  }

  lemma SliceMiddle(before: bytes, middle: bytes, after: bytes)
    ensures Slice(before + middle + after, |before|, |middle|) == middle
  {
  }

  lemma ThreeSlices(header: bytes, a: bytes, b: bytes, c: bytes)
    ensures var all := header + a + b + c;
            && Slice(all, |header|, |a|) == a
            && Slice(all, |header| + |a|, |b|) == b
            && Slice(all, |header| + |a| + |b|, |c|) == c
  {
    var all := header + a + b + c;
    assert all == header + a + (b + c);
    SliceMiddle(header, a, b + c);
    SliceMiddle(header + a, b, c);
    SliceMiddle(header + a + b, c, []);
    assert all + [] == all;
  }

  lemma TablesRoundTrip(fs: seq<Field>)
    requires TablesFit(fs)
    ensures ReadTables(TablesBytes(fs)) == Ok((TypeTable(fs), Values(fs)))
  {
    hide PackU32, U32, Words, Lengths, Join, Cut, Slice;
    var types, lengths, values := TypeTable(fs), Lengths(Values(fs)), Join(Values(fs));
    var header := PackU32(|fs|) + PackU32(4 * |fs|) + PackU32(|values|);
    var all := header + types + lengths + values;
    assert all == header + (types + lengths + values);
    HeaderWords(|fs|, 4 * |fs|, |values|, types + lengths + values);
    ThreeSlices(header, types, lengths, values);
    WordsOfLengths(Values(fs), []);
    assert lengths + [] == lengths;
    CutJoin(Values(fs), []);
    assert values + [] == values;
  }

  /** Restoring a snapshot replays exactly the fields that were written. */
  lemma RestoreSnapshot(z: Zstd, s: State)
    requires Inverse(z) && Serialisable(s)
    ensures Restore(z, Snapshot(z, s)) ==
              match Replay(StateFields(s)) { case Ok(ld) => Ok(ld.state) case Err(e) => Err(e) }
  {
    hide ReadTables, Replay, TablesBytes, StateFields, Zip, PackU32, U32;
    var fs := StateFields(s);
    var tables := TablesBytes(fs);
    UnpackPack(MAGIC, z.compress(tables));
    assert Snapshot(z, s)[4..] == z.compress(tables);
    TablesRoundTrip(fs);
    ZipFields(fs);
  }

  // ----- Every state that can be read at all is consistent -----

  lemma {:induction false} StoreKeyed(outbox: OrderedDict<bytes, Response>, rs: seq<Response>)
    requires OutboxKeyed(outbox)
    ensures OutboxKeyed(Store(outbox, rs))
  {
    if rs != [] {
      StoreKeyed(outbox, rs[..|rs| - 1]);
    }
  }

  lemma LoadFieldConsistent(ld: Loading, f: Field)
    requires Consistent(ld.state) && LoadField(ld, f).Ok?
    ensures Consistent(LoadField(ld, f).value.state)
  {
    if f.tag == CLIENT_OUTBOX {
      StoreKeyed(ld.state.clients.vals[Owner(f.value)].outbox, ReadResponses(Body(f.value)).value);
    }
  }

  lemma {:induction false} ReplayConsistent(fs: seq<Field>)
    requires Replay(fs).Ok?
    ensures Consistent(Replay(fs).value.state)
  {
    if fs != [] {
      ReplayConsistent(fs[..|fs| - 1]);
      LoadFieldConsistent(Replay(fs[..|fs| - 1]).value, fs[|fs| - 1]);
    }
  }

  /** Whatever bytes are restored, every client is stored under its UUID and every response under its own. */
  lemma RestoredConsistent(z: Zstd, data: bytes)
    requires Restore(z, data).Ok?
    ensures Consistent(Restore(z, data).value)
  {
    var (types, values) := ReadTables(z.decompress(data[4..]).value).value;
    ReplayConsistent(Zip(types, values));
  }

  // ----- Reading arbitrary bytes always makes progress -----

  /** Lying lengths cannot make more records than there are length words. */
  lemma {:induction false} AddressesProgress(rest: bytes)
    requires ReadAddresses(rest).Ok?
    ensures 4 * |ReadAddresses(rest).value| <= |rest|
    decreases |rest|
  {
    if rest != [] {
      AddressesProgress(ReadChunk(rest).value.1);
    }
  }

  lemma {:induction false} RequestsProgress(rest: bytes)
    requires ReadRequests(rest).Ok?
    ensures 16 * |ReadRequests(rest).value| <= |rest|
    decreases |rest|
  {
    hide ReadRequest;
    if rest != [] {
      RequestsProgress(ReadRequest(rest).value.1);
    }
  }

  lemma {:induction false} ResponsesProgress(rest: bytes)
    requires ReadResponses(rest).Ok?
    ensures 12 * |ReadResponses(rest).value| <= |rest|
    decreases |rest|
  {
    hide ReadResponse;
    if rest != [] {
      ResponsesProgress(ReadResponse(rest).value.1);
    }
  }

  /** Before position i there is a key field with no value field after it. */
  ghost predicate HasOwnKey(fs: seq<Field>, i: nat, keyTag: byte, valueTag: byte)
    requires i <= |fs|
  {
    exists j :: 0 <= j < i && fs[j].tag == keyTag && forall m :: j < m < i ==> fs[m].tag != valueTag
  }

  lemma HasOwnKeyStep(fs: seq<Field>, f: Field, keyTag: byte, valueTag: byte)
    requires f.tag == keyTag || (f.tag != valueTag && HasOwnKey(fs, |fs|, keyTag, valueTag))
    ensures HasOwnKey(fs + [f], |fs| + 1, keyTag, valueTag)
  {
    var all := fs + [f];
    if f.tag == keyTag {
      assert all[|fs|].tag == keyTag;
    } else {
      var j :| 0 <= j < |fs| && fs[j].tag == keyTag && forall m :: j < m < |fs| ==> fs[m].tag != valueTag;
      assert all[j].tag == keyTag;
      assert forall m :: j < m < |all| ==> all[m] == if m < |fs| then fs[m] else f;
    }
  }

  lemma HasOwnKeyExtend(fs: seq<Field>, f: Field, i: nat, keyTag: byte, valueTag: byte)
    requires i <= |fs|
    requires HasOwnKey(fs, i, keyTag, valueTag)
    ensures HasOwnKey(fs + [f], i, keyTag, valueTag)
  {
    var j :| 0 <= j < i && fs[j].tag == keyTag && forall m :: j < m < i ==> fs[m].tag != valueTag;
    var all := fs + [f];
    assert all[j].tag == keyTag && forall m :: j < m < i ==> all[m] == fs[m];
  }

  ghost predicate EveryValueHasItsKey(fs: seq<Field>, keyTag: byte, valueTag: byte) {
    forall i :: 0 <= i < |fs| && fs[i].tag == valueTag ==> HasOwnKey(fs, i, keyTag, valueTag)
  }

  lemma EveryValueStep(fs: seq<Field>, f: Field, keyTag: byte, valueTag: byte)
    requires EveryValueHasItsKey(fs, keyTag, valueTag)
    requires f.tag == valueTag ==> HasOwnKey(fs, |fs|, keyTag, valueTag)
    ensures EveryValueHasItsKey(fs + [f], keyTag, valueTag)
  {
    var all := fs + [f];
    forall i | 0 <= i < |all| && all[i].tag == valueTag
      ensures HasOwnKey(all, i, keyTag, valueTag)
    {
      HasOwnKeyExtend(fs, f, i, keyTag, valueTag);
    }
  }

  /** What is pending after a field, and what each kind of field needs pending before it. */
  lemma PendingStep(ld: Loading, f: Field)
    requires LoadField(ld, f).Ok?
    ensures f.tag == DB_VALUE ==> ld.pendingKey.Some?
    ensures f.tag == ADDRESS_UUID ==> ld.pendingAddress.Some?
    ensures LoadField(ld, f).value.pendingKey.Some? ==> f.tag == DB_KEY || (f.tag != DB_VALUE && ld.pendingKey.Some?)
    ensures LoadField(ld, f).value.pendingAddress.Some? ==>
              f.tag == ADDRESS || (f.tag != ADDRESS_UUID && ld.pendingAddress.Some?)
  {
    hide ReadChunk, LoadAddresses, LoadInbox, LoadOutbox;
  }

  lemma ReplayLast(fs: seq<Field>)
    requires fs != [] && Replay(fs).Ok?
    ensures Replay(fs[..|fs| - 1]).Ok?
    ensures Replay(fs) == LoadField(Replay(fs[..|fs| - 1]).value, fs[|fs| - 1])
  {
    hide LoadField;
  }

  ghost predicate PendingKnown(fs: seq<Field>, ld: Loading) {
    && (ld.pendingKey.Some? ==> HasOwnKey(fs, |fs|, DB_KEY, DB_VALUE))
    && (ld.pendingAddress.Some? ==> HasOwnKey(fs, |fs|, ADDRESS, ADDRESS_UUID))
    && EveryValueHasItsKey(fs, DB_KEY, DB_VALUE)
    && EveryValueHasItsKey(fs, ADDRESS, ADDRESS_UUID)
  }

  lemma PendingKnownStep(fs: seq<Field>, ld: Loading, f: Field)
    requires PendingKnown(fs, ld) && LoadField(ld, f).Ok?
    ensures PendingKnown(fs + [f], LoadField(ld, f).value)
  {
    hide HasOwnKey, EveryValueHasItsKey, LoadField;
    PendingStep(ld, f);
    var after := LoadField(ld, f).value;
    EveryValueStep(fs, f, DB_KEY, DB_VALUE);
    EveryValueStep(fs, f, ADDRESS, ADDRESS_UUID);
    if after.pendingKey.Some? {
      HasOwnKeyStep(fs, f, DB_KEY, DB_VALUE);
    }
    if after.pendingAddress.Some? {
      HasOwnKeyStep(fs, f, ADDRESS, ADDRESS_UUID);
    }
  }

  lemma {:induction false} ReplayPending(fs: seq<Field>)
    requires Replay(fs).Ok?
    ensures PendingKnown(fs, Replay(fs).value)
  {
    if fs != [] {
      hide LoadField, PendingKnown;
      ReplayLast(fs);
      var init, f := fs[..|fs| - 1], fs[|fs| - 1];
      ReplayPending(init);
      PendingKnownStep(init, Replay(init).value, f);
      assert fs == init + [f];
    }
  }

  /** Whatever bytes are accepted, no database value and no address UUID was stored without its own key. */
  lemma RestoredValuesHaveKeys(z: Zstd, data: bytes)
    requires Restore(z, data).Ok?
    ensures exists types: bytes, values: seq<bytes> ::
              && ReadTables(z.decompress(data[4..]).value) == Ok((types, values))
              && |types| == |values|
              && EveryValueHasItsKey(Zip(types, values), DB_KEY, DB_VALUE)
              && EveryValueHasItsKey(Zip(types, values), ADDRESS, ADDRESS_UUID)
  {
    hide Replay, ReadTables, EveryValueHasItsKey, HasOwnKey;
    var (types, values) := ReadTables(z.decompress(data[4..]).value).value;
    ReplayPending(Zip(types, values));
  }

  // ----- Main results -----

  /** A checkpoint is lossless, order of insertion included, exactly on the consistent states. */
  lemma LosslessIff(z: Zstd, s: State)
    requires Inverse(z) && Serialisable(s)
    ensures Restore(z, Snapshot(z, s)) == Ok(s) <==> Consistent(s)
  {
    if Consistent(s) {
      RestoreSnapshot(z, s);
      ReplayState(s);
    }
    if Restore(z, Snapshot(z, s)) == Ok(s) {
      RestoredConsistent(z, Snapshot(z, s));
    }
  }

  /** Saving a restored state reproduces the tables byte for byte. */
  lemma SnapshotIdempotent(z: Zstd, s: State)
    requires Inverse(z) && Serialisable(s) && Consistent(s)
    ensures Restore(z, Snapshot(z, s)).Ok?
    ensures Serialisable(Restore(z, Snapshot(z, s)).value)
    ensures TablesBytes(StateFields(Restore(z, Snapshot(z, s)).value)) == TablesBytes(StateFields(s))
  {
    LosslessIff(z, s);
  }

  /** States that differ anywhere, even in order, never share a snapshot. */
  lemma SnapshotInjective(z: Zstd, s: State, t: State)
    requires Inverse(z) && Serialisable(s) && Consistent(s) && Serialisable(t) && Consistent(t)
    ensures Snapshot(z, s) == Snapshot(z, t) <==> s == t
  {
    LosslessIff(z, s);
    LosslessIff(z, t);
  }
}
