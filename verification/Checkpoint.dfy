/**
 The checkpoint format: three parallel tables of types, lengths and values,
 with length-prefixed records nested in the values, compressed behind a magic word.
 */
module Checkpoint {
  import opened Wrappers
  import opened Bytes
  import opened Dicts
  import opened Tables
  import opened Commands

  const MAGIC: int := 0x91938038

  datatype Zstd = Zstd(compress: bytes -> bytes, decompress: bytes -> Option<bytes>)

  ghost predicate Inverse(z: Zstd) {
    forall d :: z.decompress(z.compress(d)) == Some(d)
  }

  lemma InverseExists()
    ensures exists z :: Inverse(z)
  {
    assert Inverse(Zstd(d => d, d => Some(d)));
  }

  datatype Field = Field(tag: byte, value: bytes)

  const DB_KEY: byte := 0x10
  const DB_VALUE: byte := 0x11
  const ADDRESS: byte := 0x20
  const ADDRESS_UUID: byte := 0x21
  const CLIENT: byte := 0x30
  const CLIENT_ADDRESSES: byte := 0x31
  const CLIENT_INBOX: byte := 0x32
  const CLIENT_OUTBOX: byte := 0x33

  // ----- Nested records -----

  predicate AddressesOk(addresses: seq<string>) {
    addresses == [] || (Latin1(addresses[0]) && |addresses[0]| < U32_LIMIT && AddressesOk(addresses[1..]))
  }

  function AddressesBytes(addresses: seq<string>): bytes
    requires AddressesOk(addresses)
  {
    if addresses == [] then [] else Chunk(Encode(addresses[0])) + AddressesBytes(addresses[1..])
  }

  predicate RequestOk(r: Request) {
    |r.returnUuid| < U32_LIMIT && |r.key| < U32_LIMIT && |r.request| < U32_LIMIT && |r.requestUuid| < U32_LIMIT
  }

  function RequestBytes(r: Request): bytes
    requires RequestOk(r)
  {
    Chunk(r.returnUuid) + (Chunk(r.key) + (Chunk(r.request) + Chunk(r.requestUuid)))
  }

  predicate RequestsOk(rs: seq<Request>) {
    rs == [] || (RequestOk(rs[0]) && RequestsOk(rs[1..]))
  }

  function RequestsBytes(rs: seq<Request>): bytes
    requires RequestsOk(rs)
  {
    if rs == [] then [] else RequestBytes(rs[0]) + RequestsBytes(rs[1..])
  }

  predicate ResponseOk(r: Response) {
    |r.key| < U32_LIMIT && |r.response| < U32_LIMIT && |r.responseUuid| < U32_LIMIT
  }

  function ResponseBytes(r: Response): bytes
    requires ResponseOk(r)
  {
    Chunk(r.key) + (Chunk(r.response) + Chunk(r.responseUuid))
  }

  predicate ResponsesOk(rs: seq<Response>) {
    rs == [] || (ResponseOk(rs[0]) && ResponsesOk(rs[1..]))
  }

  function ResponsesBytes(rs: seq<Response>): bytes
    requires ResponsesOk(rs)
  {
    if rs == [] then [] else ResponseBytes(rs[0]) + ResponsesBytes(rs[1..])
  }

  /** outbox.values() */
  function Responses(outbox: OrderedDict<bytes, Response>): (rs: seq<Response>)
    ensures |rs| == |outbox.keys|
  {
    KeysOf(outbox);
    seq(|outbox.keys|, i requires 0 <= i < |outbox.keys| => outbox.vals[outbox.keys[i]])
  }

  // ----- The fields of a state, in the order they are written -----

  predicate UuidOk(uuid: string) {
    |uuid| == UUID_LENGTH && Latin1(uuid)
  }

  predicate AddressOk(key: string, uuid: string) {
    UuidOk(uuid) && Latin1(key) && |key| + 4 < U32_LIMIT
  }

  predicate ClientOk(c: ClientRecord) {
    && UuidOk(c.uuid)
    && AddressesOk(c.addressesOwned) && UUID_LENGTH + |AddressesBytes(c.addressesOwned)| < U32_LIMIT
    && RequestsOk(c.inbox) && UUID_LENGTH + |RequestsBytes(c.inbox)| < U32_LIMIT
    && ResponsesOk(Responses(c.outbox)) && UUID_LENGTH + |ResponsesBytes(Responses(c.outbox))| < U32_LIMIT
  }

  predicate DbOk(db: OrderedDict<bytes, bytes>) {
    forall k :: k in db.vals ==> |k| < U32_LIMIT && |db.vals[k]| < U32_LIMIT
  }

  predicate BookOk(book: OrderedDict<string, string>) {
    forall k :: k in book.vals ==> AddressOk(k, book.vals[k])
  }

  predicate ClientsOk(clients: OrderedDict<string, ClientRecord>) {
    forall u :: u in clients.vals ==> ClientOk(clients.vals[u])
  }

  function DbFields(db: OrderedDict<bytes, bytes>, n: nat): seq<Field>
    requires n <= |db.keys|
  {
    if n == 0 then []
    else
      NextKey(db, n - 1);
      var k := db.keys[n - 1];
      DbFields(db, n - 1) + [Field(DB_KEY, k)] + [Field(DB_VALUE, db.vals[k])]
  }

  function BookFields(book: OrderedDict<string, string>, n: nat): seq<Field>
    requires n <= |book.keys| && BookOk(book)
  {
    if n == 0 then []
    else
      NextKey(book, n - 1);
      var k := book.keys[n - 1];
      BookFields(book, n - 1) + [Field(ADDRESS, Chunk(Encode(k)))] + [Field(ADDRESS_UUID, Encode(book.vals[k]))]
  }

  function ClientFields(c: ClientRecord): seq<Field>
    requires ClientOk(c)
  {
    var uuid := Encode(c.uuid);
    [Field(CLIENT, uuid),
     Field(CLIENT_ADDRESSES, uuid + AddressesBytes(c.addressesOwned)),
     Field(CLIENT_INBOX, uuid + RequestsBytes(c.inbox)),
     Field(CLIENT_OUTBOX, uuid + ResponsesBytes(Responses(c.outbox)))]
  }

  function ClientsFields(clients: OrderedDict<string, ClientRecord>, n: nat): seq<Field>
    requires n <= |clients.keys| && ClientsOk(clients)
  {
    if n == 0 then []
    else
      NextKey(clients, n - 1);
      ClientsFields(clients, n - 1) + ClientFields(clients.vals[clients.keys[n - 1]])
  }

  function StateFields(s: State): seq<Field>
    requires BookOk(s.addressBook) && ClientsOk(s.clients)
  {
    DbFields(s.db, |s.db.keys|) + BookFields(s.addressBook, |s.addressBook.keys|) + ClientsFields(s.clients, |s.clients.keys|)
  }

  // ----- The three tables -----

  function TypeTable(fs: seq<Field>): bytes {
    seq(|fs|, i requires 0 <= i < |fs| => fs[i].tag)
  }

  function Values(fs: seq<Field>): seq<bytes> {
    seq(|fs|, i requires 0 <= i < |fs| => fs[i].value)
  }

  predicate TablesFit(fs: seq<Field>) {
    Fit(Values(fs)) && 4 * |fs| < U32_LIMIT && |Join(Values(fs))| < U32_LIMIT
  }

  function TablesBytes(fs: seq<Field>): bytes
    requires TablesFit(fs)
  {
    PackU32(|fs|) + PackU32(4 * |fs|) + PackU32(|Join(Values(fs))|)
    + TypeTable(fs) + Lengths(Values(fs)) + Join(Values(fs))
  }

  /** Exactly the states `serialize` accepts: see `Serialize` in CheckpointCode. */
  predicate Serialisable(s: State) {
    DbOk(s.db) && BookOk(s.addressBook) && ClientsOk(s.clients) && TablesFit(StateFields(s))
  }

  function Snapshot(z: Zstd, s: State): bytes
    requires Serialisable(s)
  {
    PackU32(MAGIC) + z.compress(TablesBytes(StateFields(s)))
  }

  // ----- Reading nested records, on what is left of a value -----

  function ReadAddresses(rest: bytes): Result<seq<string>>
    decreases |rest|
  {
    if rest == [] then Ok([])
    else
      var (address, more) :- ReadChunk(rest);
      var others :- ReadAddresses(more);
      Ok([Decode(address)] + others)
  }

  function ReadRequest(rest: bytes): (r: Result<(Request, bytes)>)
    ensures r.Ok? ==> |r.value.1| + 16 <= |rest|
  {
    var (returnUuid, rest1) :- ReadChunk(rest);
    var (key, rest2) :- ReadChunk(rest1);
    var (request, rest3) :- ReadChunk(rest2);
    var (requestUuid, rest4) :- ReadChunk(rest3);
    Ok((Request(returnUuid, key, request, requestUuid), rest4))
  }

  function ReadRequests(rest: bytes): Result<seq<Request>>
    decreases |rest|
  {
    if rest == [] then Ok([])
    else
      var (request, more) :- ReadRequest(rest);
      var others :- ReadRequests(more);
      Ok([request] + others)
  }

  function ReadResponse(rest: bytes): (r: Result<(Response, bytes)>)
    ensures r.Ok? ==> |r.value.1| + 12 <= |rest|
  {
    var (key, rest1) :- ReadChunk(rest);
    var (response, rest2) :- ReadChunk(rest1);
    var (responseUuid, rest3) :- ReadChunk(rest2);
    Ok((Response(key, response, responseUuid), rest3))
  }

  function ReadResponses(rest: bytes): Result<seq<Response>>
    decreases |rest|
  {
    if rest == [] then Ok([])
    else
      var (response, more) :- ReadResponse(rest);
      var others :- ReadResponses(more);
      Ok([response] + others)
  }

  /** Storing each response under its own UUID. */
  function Store(outbox: OrderedDict<bytes, Response>, rs: seq<Response>): OrderedDict<bytes, Response> {
    if rs == [] then outbox
    else
      var last := rs[|rs| - 1];
      Put(Store(outbox, rs[..|rs| - 1]), last.responseUuid, last)
  }

  // ----- Replaying the fields -----

  datatype Loading = Loading(state: State, pendingKey: Option<bytes>, pendingAddress: Option<string>)

  /** The client a value belongs to is named by its first 36 bytes. */
  function Owner(value: bytes): string {
    Decode(Take(value, UUID_LENGTH))
  }

  function Body(value: bytes): bytes {
    Drop(value, UUID_LENGTH)
  }

  function LoadAddresses(s: State, value: bytes): Result<State> {
    var uuid := Owner(value);
    if uuid !in s.clients.vals then Err(ValueFault)
    else
      var c := s.clients.vals[uuid];
      var addresses :- ReadAddresses(Body(value));
      Ok(WithClient(s, uuid, c.(addressesOwned := c.addressesOwned + addresses)))
  }

  function LoadInbox(s: State, value: bytes): Result<State> {
    var uuid := Owner(value);
    if uuid !in s.clients.vals then Err(KeyFault)
    else
      var c := s.clients.vals[uuid];
      var requests :- ReadRequests(Body(value));
      Ok(WithClient(s, uuid, c.(inbox := c.inbox + requests)))
  }

  function LoadOutbox(s: State, value: bytes): Result<State> {
    var uuid := Owner(value);
    if uuid !in s.clients.vals then Err(KeyFault)
    else
      var c := s.clients.vals[uuid];
      var responses :- ReadResponses(Body(value));
      Ok(WithClient(s, uuid, c.(outbox := Store(c.outbox, responses))))
  }

  function LoadField(ld: Loading, f: Field): Result<Loading> {
    var s := ld.state;
    if f.tag == DB_KEY then Ok(ld.(pendingKey := Some(f.value)))
    else if f.tag == DB_VALUE then
      if ld.pendingKey.None? then Err(ValueFault)
      else Ok(ld.(state := s.(db := Put(s.db, ld.pendingKey.value, f.value)), pendingKey := None))
    else if f.tag == ADDRESS then
      var (address, _) :- ReadChunk(f.value);
      Ok(ld.(pendingAddress := Some(Decode(address))))
    else if f.tag == ADDRESS_UUID then
      if ld.pendingAddress.None? then Err(ValueFault)
      else Ok(ld.(state := s.(addressBook := Put(s.addressBook, ld.pendingAddress.value, Decode(f.value))), pendingAddress := None))
    else if f.tag == CLIENT then Ok(ld.(state := Login(s, Decode(f.value))))
    else if f.tag == CLIENT_ADDRESSES then
      var t :- LoadAddresses(s, f.value);
      Ok(ld.(state := t))
    else if f.tag == CLIENT_INBOX then
      var t :- LoadInbox(s, f.value);
      Ok(ld.(state := t))
    else if f.tag == CLIENT_OUTBOX then
      var t :- LoadOutbox(s, f.value);
      Ok(ld.(state := t))
    else Ok(ld)
  }

  const FRESH_LOADING: Loading := Loading(EMPTY_STATE, None, None)

  function Replay(fs: seq<Field>): Result<Loading> {
    if fs == [] then Ok(FRESH_LOADING)
    else
      var ld :- Replay(fs[..|fs| - 1]);
      LoadField(ld, fs[|fs| - 1])
  }

  // ----- Reading the tables -----

  /** zip(types, values), as far as both go */
  function Zip(types: bytes, values: seq<bytes>): seq<Field> {
    var n := if |types| <= |values| then |types| else |values|;
    seq(n, i requires 0 <= i < n => Field(types[i], values[i]))
  }

  /** Every length word must be there in full; types and values are only clamped. */
  function ReadTables(data: bytes): Result<(bytes, seq<bytes>)> {
    if |data| < 12 then Err(StructError)
    else
      var typeLength, lengthLength, valueLength := U32(data), U32(data[4..]), U32(data[8..]);
      var types := Slice(data, 12, typeLength);
      var lengths := Slice(data, 12 + typeLength, lengthLength);
      var values := Slice(data, 12 + typeLength + lengthLength, valueLength);
      if |lengths| < lengthLength || lengthLength % 4 != 0 then Err(StructError)
      else Ok((types, Cut(values, Words(lengths, lengthLength / 4))))
  }

  function Restore(z: Zstd, data: bytes): Result<State> {
    if |data| < 4 then Err(StructError)
    else if U32(data) != MAGIC then Err(ValueFault)
    else
      match z.decompress(data[4..])
      case None => Err(ZstdFault)
      case Some(tables) =>
        var (types, values) :- ReadTables(tables);
        var ld :- Replay(Zip(types, values));
        if |types| != |values| then Err(ValueFault) else Ok(ld.state)
  }
}
