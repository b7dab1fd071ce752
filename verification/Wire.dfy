/**
 The command language: how `Client` methods write commands and read replies
 (client.py), and how `handle_client` reads commands and writes replies (server.py).
 */
module Wire {
  import opened Wrappers
  import opened Bytes
  import opened Tables

  datatype Command =
    | Set(key: bytes, value: bytes)
    | Get(key: bytes)
    | Delete(key: bytes)
    | List
    | Register(address: bytes)
    | Unregister(address: bytes)
    | WhoAmI
    | Bye
    | WhoHas(address: bytes)
    | PutInbox(target: bytes, request: bytes, key: bytes)
    | GetInbox
    | PutOutbox(target: bytes, response: bytes, key: bytes, requestUuid: bytes)
    | GetOutbox(requestUuid: bytes)
    | Malformed      // struct.unpack raises
    | Unknown        // no such opcode

  // ----- Length headers -----

  method ConvertToLengthFormat(parts: seq<bytes>) returns (r: Result<bytes>)
    ensures r == if Fit(parts) then Ok(Lengths(parts)) else Err(StructError)
  {
    var output: bytes := [];
    var i := 0;
    while i < |parts|
      invariant 0 <= i <= |parts| && Fit(parts[..i])
      invariant output == Lengths(parts[..i])
    {
      if |parts[i]| >= U32_LIMIT {
        return Err(StructError);
      }
      assert parts[..i + 1][..i] == parts[..i];
      output, i := output + PackU32(|parts[i]|), i + 1;
    }
    assert parts[..|parts|] == parts;
    return Ok(output);
  }

  /** The parts after the words that give their lengths. */
  function WriteParts(parts: seq<bytes>): (r: bytes)
    requires Fit(parts)
    ensures |r| >= 4 * |parts|
  {
    Lengths(parts) + Join(parts)
  }

  /** struct.unpack of the n lengths, then n slices, each starting where the last one was to end. */
  function ReadParts(value: bytes, n: nat): (r: Result<seq<bytes>>)
    ensures r.Ok? ==> |r.value| == n
  {
    if |value| < 4 * n then Err(StructError) else Ok(Cut(value[4 * n..], Words(value, n)))
  }

  lemma PartsRoundTrip(parts: seq<bytes>)
    requires Fit(parts)
    ensures ReadParts(WriteParts(parts), |parts|) == Ok(parts)
  {
    WordsOfLengths(parts, Join(parts));
    CutJoin(parts, []);
    assert Join(parts) + [] == Join(parts);
    assert WriteParts(parts)[4 * |parts|..] == Join(parts);
  }

  /** Where the i-th of the consecutive slices starts: the running `offset` of the source. */
  function Offset(lengths: seq<nat>, i: nat): nat
    requires i <= |lengths|
  {
    if i == 0 then 0 else Offset(lengths, i - 1) + lengths[i - 1]
  }

  lemma {:induction false} OffsetShift(lengths: seq<nat>, i: nat)
    requires 0 < i <= |lengths|
    ensures Offset(lengths, i) == lengths[0] + Offset(lengths[1..], i - 1)
  {
    if i > 1 {
      OffsetShift(lengths, i - 1);
    }
  }

  lemma {:induction false} CutAt(data: bytes, lengths: seq<nat>, i: nat)
    requires i < |lengths|
    ensures Cut(data, lengths)[i] == Slice(data, Offset(lengths, i), lengths[i])
    decreases i
  {
    if i > 0 {
      CutAt(Drop(data, lengths[0]), lengths[1..], i - 1);
      OffsetShift(lengths, i);
      DropDrop(data, lengths[0], Offset(lengths[1..], i - 1));
    }
  }

  lemma DropDrop(data: bytes, a: nat, b: nat)
    ensures Drop(Drop(data, a), b) == Drop(data, a + b)
  {
  }

  /** Whatever the declared lengths, each part is the slice between two values of the running offset. */
  lemma PartsAreSlices(value: bytes, n: nat, i: nat)
    requires ReadParts(value, n).Ok? && i < n
    ensures ReadParts(value, n).value[i] == Slice(value, 4 * n + Offset(Words(value, n), i), Words(value, n)[i])
  {
    hide Words, Cut, Offset;
    assert value[4 * n..] == Drop(value, 4 * n);
    CutAt(value[4 * n..], Words(value, n), i);
    DropDrop(value, 4 * n, Offset(Words(value, n), i));
  }

  // ----- Commands as the client writes them -----

  predicate Sendable(c: Command) {
    match c
    case Set(key, value) => Fit([key, value])
    case PutInbox(target, request, key) => Fit([target, request, key])
    case PutOutbox(target, response, key, requestUuid) => Fit([target, response, key, requestUuid])
    case Malformed => false
    case Unknown => false
    case _ => true
  }

  function EncodeCommand(c: Command): (r: bytes)
    requires Sendable(c)
    ensures r != []
  {
    match c
    case Set(key, value) => [0x81] + WriteParts([key, value])
    case Get(key) => [0x82] + key
    case Delete(key) => [0x83] + key
    case List => [0x84]
    case Register(address) => [0x85] + address
    case Unregister(address) => [0x86] + address
    case WhoAmI => [0x87]
    case Bye => [0x88]
    case WhoHas(address) => [0x1] + address
    case PutInbox(target, request, key) => [0x2] + WriteParts([target, request, key])
    case GetInbox => [0x3]
    case PutOutbox(target, response, key, requestUuid) =>
      [0x4] + WriteParts([target, response, key, requestUuid])
    case GetOutbox(requestUuid) => [0x5] + requestUuid
  }

  // ----- Commands as the server reads them -----

  function ParseSet(value: bytes): Command {
    match ReadParts(value, 2)
    case Ok(p) => Set(p[0], p[1])
    case Err(_) => Malformed
  }

  function ParsePutInbox(value: bytes): Command {
    match ReadParts(value, 3)
    case Ok(p) => PutInbox(p[0], p[1], p[2])
    case Err(_) => Malformed
  }

  function ParsePutOutbox(value: bytes): Command {
    match ReadParts(value, 4)
    case Ok(p) => PutOutbox(p[0], p[1], p[2], p[3])
    case Err(_) => Malformed
  }

  /** Bit 7 of the first byte picks the table of commands, the low four bits the command. */
  function ParseCommand(payload: bytes): Command
    requires payload != []
  {
    var opcode, value := payload[0] % 16, payload[1..];
    if payload[0] >= 0x80 then
      match opcode
      case 1 => ParseSet(value)
      case 2 => Get(value)
      case 3 => Delete(value)
      case 4 => List
      case 5 => Register(value)
      case 6 => Unregister(value)
      case 7 => WhoAmI
      case 8 => Bye
      case _ => Unknown
    else
      match opcode
      case 1 => WhoHas(value)
      case 2 => ParsePutInbox(value)
      case 3 => GetInbox
      case 4 => ParsePutOutbox(value)
      case 5 => GetOutbox(value)
      case _ => Unknown
  }

  /** The server reads every command exactly as the client meant it. */
  lemma CommandRoundTrip(c: Command)
    requires Sendable(c)
    ensures ParseCommand(EncodeCommand(c)) == c
  {
    hide WriteParts, ReadParts, Fit;
    var wire := EncodeCommand(c);
    match c
    case Set(key, value) =>
      assert wire[1..] == WriteParts([key, value]);
      PartsRoundTrip([key, value]);
    case PutInbox(target, request, key) =>
      assert wire[1..] == WriteParts([target, request, key]);
      PartsRoundTrip([target, request, key]);
    case PutOutbox(target, response, key, requestUuid) =>
      assert wire[1..] == WriteParts([target, response, key, requestUuid]);
      PartsRoundTrip([target, response, key, requestUuid]);
    case Get(key) => assert wire[1..] == key;
    case Delete(key) => assert wire[1..] == key;
    case Register(address) => assert wire[1..] == address;
    case Unregister(address) => assert wire[1..] == address;
    case WhoHas(address) => assert wire[1..] == address;
    case GetOutbox(requestUuid) => assert wire[1..] == requestUuid;
    case _ =>
  }

  // ----- Mailbox replies: the server's writers, the client's readers -----

  function RequestParts(r: Request): seq<bytes> {
    [r.returnUuid, r.request, r.key, r.requestUuid]
  }

  function ResponseParts(r: Response): seq<bytes> {
    [r.key, r.response]
  }

  /** What GET_INBOX answers for a request; struct.pack raises when a part is too long. */
  function InboxReply(r: Request): Result<bytes> {
    if Fit(RequestParts(r)) then Ok(WriteParts(RequestParts(r))) else Err(StructError)
  }

  function OutboxReply(r: Response): Result<bytes> {
    if Fit(ResponseParts(r)) then Ok(WriteParts(ResponseParts(r))) else Err(StructError)
  }

  /** Client.read_inbox, after `receive` */
  function ReadInboxReply(reply: bytes): Result<Request> {
    var p :- ReadParts(reply, 4);
    Ok(Request(p[0], p[2], p[1], p[3]))
  }

  /** Client.read_outbox, after `receive` */
  function ReadOutboxReply(reply: bytes, requestUuid: bytes): Result<Response> {
    if |reply| < 9 then Err(RuntimeFault)
    else
      var p :- ReadParts(reply, 2);
      Ok(Response(p[0], p[1], requestUuid))
  }

  lemma InboxReplyRoundTrip(r: Request)
    requires InboxReply(r).Ok?
    ensures ReadInboxReply(InboxReply(r).value) == Ok(r)
    ensures InboxReply(r).value != []
  {
    PartsRoundTrip(RequestParts(r));
  }

  /**
   A response reaches its reader intact exactly when key and response are not
   both empty: the reader takes a reply under nine bytes for an error.
   */
  lemma OutboxReplyRoundTripIff(r: Response)
    requires OutboxReply(r).Ok?
    ensures OutboxReply(r).value != []
    ensures ReadOutboxReply(OutboxReply(r).value, r.responseUuid) == Ok(r) <==> |r.key| + |r.response| > 0
    ensures |r.key| + |r.response| == 0 ==> ReadOutboxReply(OutboxReply(r).value, r.responseUuid) == Err(RuntimeFault)
  {
    var parts := ResponseParts(r);
    PartsRoundTrip(parts);
    JoinCons(r.key, [r.response]);
    JoinCons(r.response, []);
    assert parts == [r.key] + ([r.response] + []);
    assert Join(parts) == r.key + (r.response + []);
  }

  // ----- What the client's receive loop lets through -----

  const ERR: bytes := [69, 82, 82]

  /** `recv_loop` raises on a payload that starts with ERR, unless it is ERR and a zero byte. */
  predicate Fatal(payload: bytes) {
    ERR <= payload && payload != ERR + [0]
  }

  /** The 256 lengths whose big-endian word starts with the letters ERR. */
  predicate ErrLength(n: nat) {
    n / 256 == 0x455252
  }

  lemma ThreeDigits(a: byte, b: byte, c: byte)
    ensures a as int * 0x1_0000 + b as int * 256 + c as int == 0x455252 <==> a == 69 && b == 82 && c == 82
  {
  }

  lemma WordDigits(n: nat)
    requires n < U32_LIMIT
    ensures var p := PackU32(n); n / 256 == p[0] as int * 0x1_0000 + p[1] as int * 256 + p[2] as int
  {
    assert n / 0x1_0000 == n / 256 / 256 && n / 0x100_0000 == n / 256 / 256 / 256;
  }

  lemma FatalByLetters(payload: bytes)
    requires |payload| > 4
    ensures Fatal(payload) <==> payload[0] == 69 && payload[1] == 82 && payload[2] == 82
  {
    assert payload != ERR + [0];
  }

  lemma WordFatalIff(n: nat, tail: bytes)
    requires n < U32_LIMIT && tail != []
    ensures Fatal(PackU32(n) + tail) <==> ErrLength(n)
  {
    hide PackU32, Fatal;
    var p := PackU32(n);
    WordDigits(n);
    FatalByLetters(p + tail);
    ThreeDigits(p[0], p[1], p[2]);
  }

  /** A reply made of parts is fatal exactly when its first part has one of those lengths. */
  lemma PartsFatalIff(parts: seq<bytes>)
    requires |parts| >= 2 && Fit(parts)
    ensures Fatal(WriteParts(parts)) <==> ErrLength(|parts[0]|)
  {
    var reply := WriteParts(parts);
    assert U32(reply) == |parts[0]| by {
      WordsOfLengths(parts, Join(parts));
      assert reply[4 * 0..] == reply;
      assert Words(reply, |parts|)[0] == Sizes(parts)[0];
    }
    hide Lengths, Words, Sizes, Fatal, PackU32, U32, WriteParts;
    PackUnpack(reply);
    assert reply == PackU32(|parts[0]|) + reply[4..];
    WordFatalIff(|parts[0]|, reply[4..]);
  }
}
