/** The tables a server holds: what its commands read and write and a checkpoint stores. */
module Tables {
  import opened Bytes
  import opened Dicts

  datatype Request = Request(returnUuid: bytes, key: bytes, request: bytes, requestUuid: bytes)

  datatype Response = Response(key: bytes, response: bytes, responseUuid: bytes)

  /** A client's part of `client_db`, without its connection. */
  datatype ClientRecord = ClientRecord(
    uuid: string,
    addressesOwned: seq<string>,
    inbox: seq<Request>,
    outbox: OrderedDict<bytes, Response>)

  datatype State = State(
    db: OrderedDict<bytes, bytes>,
    addressBook: OrderedDict<string, string>,
    clients: OrderedDict<string, ClientRecord>)

  const NO_CLIENTS: OrderedDict<string, ClientRecord> := Dict([], map[])
  const NO_RESPONSES: OrderedDict<bytes, Response> := Dict([], map[])
  const EMPTY_STATE: State := State(Dict([], map[]), Dict([], map[]), NO_CLIENTS)

  /** A client that has just been given this UUID. */
  function NewClient(uuid: string): ClientRecord {
    ClientRecord(uuid, [], [], NO_RESPONSES)
  }
}
