# Verification of Pipebomb

Pipebomb is an encrypted message-passing server: a key-value database, an
address book, and mailboxes through which clients call each other. This project
models it in Dafny and proves what its parts and their interplay guarantee.

The pieces build on each other:

- `Bytes`, `Dicts`: Python's clamped slices, `struct` words, Latin-1 text,
  12-byte nonces, dictionaries that keep insertion order.
- `Packets`, `Deframing`: framing, compression, checksum and AEAD of utils.py,
  and the read loops over arbitrary chunks.
- `Wire`, `Commands`, `Server`: the command language of both ends; what each
  command does to the tables, as functions; and the `Server` and `Client`
  objects whose methods are proved against those functions.
- `Runs`, `Ownership`, `History`: what holds over whole runs: address
  ownership, the database as a map, mailbox conservation.
- `Replies`, `Rpc`: what the caller of each client method gets, past the test
  for ERR in the client's receive loop, and remote calls from end to end.
- `Interleaving`, `Queueing`, `InterleavedOwnership`, `InterleavedRpc`: handlers as
  coroutines, one step for each await-free stretch, in any interleaving, and the
  first come, first served queues of the locks they wait for.
- `Handshake`, `Session`, `Client`: the login protocol and a session down to
  the bytes, with the counters of both ends.
- `EndToEnd`: one such session joined with all the interleaved handlers.
- `Checkpoint`, `CheckpointProofs`, `CheckpointCode`, `CheckpointLoader`,
  `Reachable`: the checkpoint format, `serialize` and `deserialize` as loops
  over objects, and losslessness.
- `CheckpointQueues`, `CheckpointMoves`, `CheckpointExact`, `CheckpointWaits`,
  `CheckpointContents`: what a checkpoint does to the queues, when it has to wait
  for a lock, and what becomes of it then.
- `Restored`, `RestoredServer`: restarts, in the net of handlers and on objects.
- `GoTasks`: the maps and flags of gsyncio and their cancellation protocol.

The libraries are known only through laws, stated as `Packets.Lawful` and
`Checkpoint.Inverse` and shown to be satisfiable: decryption inverts encryption
under the same key and nonce and a ciphertext is 16 bytes longer (section 2.8 of
RFC 8439), decompression inverts compression, a checksum has 32 bits. `uuid4()`
is a parameter; that its results are new is assumed only where a statement says so.

## Where the code and its documentation differ

- README.md:241 calls deserialization lossless. It is, exactly for states whose
  clients and responses are stored under their own UUIDs (`LosslessIff`); every
  state a server reaches is one. But `serialize` empties the queue of every client
  it writes, also when it then raises (`SaveLosesNothingIff`).
- A checkpoint that has to queue for an outbox lock waits with half of the tables
  written. A login then makes it raise (`FailingSave`), and a REGISTER of a later
  client gives a checkpoint of tables that never were (`MixedSave`). It has to queue
  for a lock that is held, and also for one that is free but awaited (`QueuedSave`);
  a checkpoint is sure to be one of the present tables exactly if no client's outbox
  lock is held or awaited when it begins (`SavesItselfIff`).
- README.md:235 assigns the result of `deserialize(data)` to a server; without a
  server argument the code returns the three tables.
- The cleanup after a session deletes one address at most (server.py:867), so a
  client that registered two leaves the book naming nobody.
- A response with empty key and empty body is taken out of the outbox and then
  refused by `read_outbox` as too short. A GET of an empty value ends the handler.
- The client's receive loop dies on a payload that starts with ERR, unless it is ERR
  and a zero byte (client.py:320-326). The server's error replies start with a zero
  byte, so none trips the test. What does: a database value, the owner's UUID if
  an administrator chose it, a request id out of `uuid4().bytes`, and a mailbox reply whose
  first length is between 0x45525200 and 0x455252FF. `Replies` has the exact
  condition for each method.
- README.md describes a goroutine that checks its flag in each turn of a loop;
  the loop of gsyncio.go ends after its first turn.

## Model

| member | source | states |
|---|---|---|
| Bytes.NonceBytesInjective | pipebomb/utils.py:111 | two counters below 2^96 never give the same 12-byte nonce |
| Packets.ExtractionPrefixStable | pipebomb/utils.py:68-84 | more input never changes a framing verdict already reached; it only extends the remainder |
| Packets.ConstructSucceedsIff | pipebomb/utils.py:87-115 | a payload can be sent exactly if it is not empty, the counter is below 2^96 and the ciphertext is shorter than 2^32 |
| Packets.VerifyAcceptsIff | pipebomb/utils.py:118-219 | a packet is accepted exactly if it is header, length, ciphertext and tail, and its decrypted text is a non-empty body carrying the payload, the payload's own checksum and the footer |
| Packets.PacketRoundTrip | pipebomb/utils.py:87-219 | what is sent under a counter is what is verified under it, compressed or not, with the bytes after it as remainder |
| Packets.ExtractConstructed | pipebomb/utils.py:68-115 | a stream that starts with a constructed packet is cut exactly behind it |
| Deframing.ChunkIndependent | pipebomb/server.py:465-486 | for every split of a stream into chunks, frames, leftover and verdict are those of the whole stream |
| Deframing.DeframeReassembles | pipebomb/utils.py:68-84 | when no header is refused, frames and leftover re-concatenate to the stream |
| Deframing.ReadFrames | pipebomb/client.py:262-288 | the read loop, on chunks as they come, computes the reference framing of all bytes received, and stops only where no further frame is complete |
| Deframing.ReadPacketFrame | pipebomb/server.py:61-77 | returns the first frame of the stream, raises exactly if there is none, and names the bytes it drops |
| Deframing.ReadExact | pipebomb/server.py:48-58 | however reads are granted, exactly the first `size` bytes are taken, or all there are |
| Wire.ConvertToLengthFormat | pipebomb/client.py:31-36 | the length words of all parts, or the exception exactly if one is 4 GiB long |
| Wire.PartsAreSlices | pipebomb/server.py:788-798 | on any bytes, each part of a command is the clamped slice the running offset cuts |
| Wire.CommandRoundTrip | pipebomb/client.py:416-507 | the server parses every command a client can send as the command that was meant |
| Wire.InboxReplyRoundTrip | pipebomb/client.py:467-483 | the GET_INBOX reply is decoded to the very request it was written from |
| Wire.OutboxReplyRoundTripIff | pipebomb/client.py:506-519 | a GET_OUTBOX reply is decoded to its response exactly if key and response are not both empty |
| Clients.WriteSet | pipebomb/client.py:416-422 | the bytes of SET, or the exception on an over-long part |
| Clients.WriteRequest | pipebomb/client.py:453-462 | the bytes of PUT_INBOX, likewise |
| Clients.WriteResponse | pipebomb/client.py:485-501 | the bytes of PUT_OUTBOX, likewise |
| Servers.Server.Set | pipebomb/server.py:529-547 | table and reply after SET |
| Servers.Server.Delete | pipebomb/server.py:574-600 | table and reply after DELETE |
| Servers.Server.Register | pipebomb/server.py:619-646 | client object and book after REGISTER; no connection is touched |
| Servers.Server.Unregister | pipebomb/server.py:647-674 | client object and book after UNREGISTER, or the crash half-way |
| Servers.Server.PutInbox | pipebomb/server.py:733-759 | the target's queue gains the request; an unknown target crashes |
| Servers.Server.GetInbox | pipebomb/server.py:760-785 | the front request leaves the queue and is the reply |
| Servers.Server.PutOutbox | pipebomb/server.py:786-811 | the target's outbox maps the id to the response |
| Servers.Server.GetOutbox | pipebomb/server.py:812-844 | the response leaves the outbox and is the reply |
| Servers.Server.Cleanup | pipebomb/server.py:858-879 | one address at most and the client are deleted, unless dead sessions are kept |
| Servers.Server.Dispatch | pipebomb/server.py:526-856 | every opcode branch: new tables and reply |
| Servers.Server.HandleFrame | pipebomb/server.py:490-522 | verification under the receive counter, which moves exactly when nothing raises, then the command; no other connection is touched, and without a cipher nothing happens |
| Servers.Server.ReplySent | pipebomb/server.py:518 | after a reply the send counter of the handler's own entry moves, if the entry is still there, and no other |
| Servers.Server.AcceptNew | pipebomb/server.py:366-437 | a fresh entry, connected under counters (2, 2), beside the others as they were |
| Servers.Server.AcceptKnown | pipebomb/server.py:392-437 | the old entry, tables untouched, connected under counters (2, 2) |
| Servers.Server.AdmitClient | pipebomb/server.py:881-907 | add_client: the three refusals, or the new entry, which nobody is connected to |
| Servers.Server.DismissClient | pipebomb/server.py:933-946 | remove_client, including the state a missing address leaves |
| Servers.Server.GiveKey | pipebomb/server.py:971-980 | add_key, including the entry a missing client leaves |
| Servers.Server.TakeKey | pipebomb/server.py:992-1002 | remove_key, including the entry it has deleted when it raises |
| Servers.Server.DeleteDb | pipebomb/server.py:1012-1014 | remove_db, or the exception on a missing key |
| Ownership.OwnedInEveryRun | pipebomb/server.py:619-674 | over every run that never reuses a UUID, each client lists, without duplicates, exactly the addresses the book gives it |
| Ownership.NoDanglingDeletes | pipebomb/server.py:663 | in no such run does the `pop` of UNREGISTER fail, or remove_client stop half-way (line 945) |
| Ownership.RemoveKeyOwnedIff | pipebomb/server.py:992-1002 | remove_key keeps that agreement exactly if it names the owner or the owner has left |
| Ownership.CleanDepartureIff | pipebomb/server.py:861-871 | a departing client leaves no entry behind exactly if it owned at most one address |
| Ownership.StepLiveIff | pipebomb/server.py:861-946 | one step of any kind keeps the book free of entries for removed clients exactly if no client leaves that owns two addresses |
| Ownership.LiveRunIff | pipebomb/server.py:861-946 | after any run the book names nobody who has left exactly if no client left that owned two addresses: a stale entry is never removed |
| Ownership.StaleEntryExample | pipebomb/server.py:867 | login, two REGISTERs and BYE leave the book naming a client that is gone |
| Ownership.WhoHasIff | pipebomb/server.py:675-732 | WHOHAS answers what a client's own WHOAMI answers exactly if that client lists the address |
| Ownership.UnregisterUndoesRegister | pipebomb/server.py:619-674 | REGISTER is accepted exactly for a free address, and UNREGISTER then restores the tables, order included |
| InterleavedOwnership.OwnedUnderInterleaving | pipebomb/server.py:619-674 | the same agreement under every interleaving of handlers, crashes, logins and administrators |
| InterleavedOwnership.LiveUnderInterleaving | pipebomb/server.py:861-946 | the same as LiveRunIff under every interleaving; that whoever leaves is present then is proved of the handlers |
| History.DbHoldsLastWrite | pipebomb/server.py:529-600 | a key holds what its last write in the run left |
| History.GetAnswers | pipebomb/server.py:548-573 | GET, sent and parsed as bytes, answers with the last SET not since deleted, an error if there is none, and crashes on an empty value |
| History.ListAnswers | pipebomb/server.py:601-618 | LIST shows each key once, with what its last write left |
| History.InboxConserved | pipebomb/server.py:733-785 | for a client that stays: queued plus accepted equals taken (by GET_INBOX or a checkpoint) plus still queued, as sequences |
| History.GetInboxDelivers | pipebomb/server.py:760-785 | what GET_INBOX takes is what the client's decoder reads from the reply |
| History.OutboxHoldsLastResponse | pipebomb/server.py:786-844 | a slot holds the last response written for its id, and nothing once read |
| Replies.ShortRepliesPass | pipebomb/client.py:320-326 | no error reply and no ACK of the server starts with ERR, so none trips the client's error test |
| Replies.GetReturnsIff | pipebomb/client.py:320-326 | `get` returns the last SET value exactly if it is not empty and not an ERR text; an ERR text ends the client's loop, an empty value the handler |
| Replies.GetOfNothing | pipebomb/client.py:425-427 | a key never set, or deleted since, gets error 5 |
| Replies.SetErrThenGet | pipebomb/client.py:320-326 | SET of ERRx is acknowledged, and the GET that follows ends the client's receive loop |
| Replies.AcknowledgedIsHeard | pipebomb/client.py:416-505 | a command the server answers with a short reply always comes back to its caller |
| Replies.FindReturnsIff | pipebomb/client.py:449-451 | `find` returns the owner's UUID exactly if that does not start with ERR |
| Replies.WhoAmIReturnsIff | pipebomb/client.py:445-447 | `whoami` returns the client's own UUID exactly if that does not start with ERR |
| Replies.GeneratedUuidPasses | pipebomb/server.py:405 | the text of a generated UUID never starts with ERR |
| Replies.FatalIdExists | pipebomb/server.py:746 | sixteen bytes that a request id can be end the client's loop |
| Replies.ReadInboxReturnsIff | pipebomb/client.py:467-483 | `read_inbox` decodes the front request exactly if the length of its return UUID does not start with the bytes ERR |
| Replies.ReadOutboxReturnsIff | pipebomb/client.py:506-519 | `read_outbox` decodes the response exactly if it is not wholly empty and its key length does not start with the bytes ERR; the slot is empty either way |
| Rpc.RequestAccepted | pipebomb/client.py:453-465 | `request` queues exactly one request under the server's id, and returns that id exactly if it does not start with ERR, else the client's loop dies |
| Rpc.QueuedRequestIsTheOneAsked | pipebomb/server.py:733-785 | whatever happens in between, a queued request with that id is the asker's, whole |
| Rpc.ResponseReachesAsker | pipebomb/client.py:485-519 | the owner's exact key and response reach `read_outbox`, once, after any events that do not touch that slot, exactly under those two conditions |
| Rpc.ReadSlotTwice | pipebomb/server.py:812-844 | reading a slot gives the response exactly if key and response are not both empty and the key length does not start with the bytes ERR; a second reading gets the error, which the decoder refuses |
| Rpc.RemoteCall | pipebomb/client.py:453-519 | the whole call: request, any events, read_inbox, any events, respond, any events, read_outbox. The asker is told the id exactly if it passes the ERR test; the owner decodes the request exactly if its connection has lasted; the asker is told the id and decodes the answer exactly if the id passes, its connection has lasted or been renewed, and the decoder's conditions hold |
| InterleavedRpc.InterleavedCall | pipebomb/client.py:453-519 | the same call in any run of any interleaved handlers: the last packet sent to the asker is read as the owner's answer, exactly under the decoder's conditions |
| Interleaving.EveryRunLinearises | pipebomb/server.py:465-856 | however handlers interleave at awaits and queue for locks, the tables are those of one history served one command at a time, each session has been sent exactly the packets that history owes it, and at most one handler holds the database lock |
| Interleaving.CountersAtLoopHead | pipebomb/server.py:465-502 | at the head of the loop rx = tx = 2 + commands completed, with one reply each |
| Interleaving.InterleavedDb | pipebomb/server.py:529-600 | under any interleaving the database is a map with atomic SET and DELETE in history order |
| Interleaving.InterleavedInbox | pipebomb/server.py:1072-1078 | mailbox conservation under any interleaving of handlers and checkpoints |
| Queueing.LineInEveryRun | pipebomb/server.py:531-816 | in every run exactly the handlers that wait for a lock stand in its queue, each once |
| Queueing.AwaitedIff | pipebomb/server.py:800-816 | so a lock is awaited exactly while some handler waits for it |
| Sessions.SessionDelivers | pipebomb/client.py:251-351 | for every run and chunking: each side has verified a prefix of the payloads the other sent, counters count packets, and the i-th reply is the automaton's answer to the i-th request from the tables it met |
| Sessions.AllDelivered | pipebomb/server.py:465-502 | once the bytes have arrived and been framed, everything sent has been verified |
| Sessions.NobodyRefuses | pipebomb/client.py:288-326 | the handler refuses no packet, and the client dies on a reply exactly if it starts with ERR and is not ERR and a zero; what that means for each command's inputs is in `Replies` |
| Sessions.NoncesDistinct | pipebomb/utils.py:111 | no nonce is used twice in a direction of a session |
| EndToEnd.ClientReadsTheHistory | pipebomb/server.py:465-856 | one client down to the bytes among all interleaved handlers: what it has verified is a prefix of what the one atomic history of the server owes it, and each of its commands was served by an event of that history from the tables of that moment |
| Clients.RawClient.Send | pipebomb/client.py:349-351 | the packet is queued under the present counter, which does not move |
| Clients.RawClient.Transmit | pipebomb/client.py:251-260 | with an empty queue, send and one turn of the send loop are one packet under the next counter |
| Clients.RawClient.OnChunk | pipebomb/client.py:262-328 | the receive loop on one chunk: all complete frames verified, counted and queued, or the loop dead |
| Clients.RawClient.Receive | pipebomb/client.py:353-358 | payloads are handed out in the order they were verified |
| Clients.ReadAllReached | pipebomb/client.py:262-328 | what that loop does is a run of the session's read steps |
| Handshake.NothingLost | pipebomb/server.py:61-77 | in no run of the handshake does read_packet_frame throw a byte away |
| Handshake.OneUnreadFrame | pipebomb/server.py:318-352 | at every read of a frame at most one packet is on its way to the reader |
| Handshake.HandshakeLockstep | pipebomb/server.py:277-437 | when both ends are done all four counters are 2, no byte is left over, the passwords agree, and the client was welcomed unless its UUID was unknown |
| Handshake.LoginMeaning | pipebomb/client.py:211-227 | the server takes a login for the kind the client meant |
| CheckpointProofs.LosslessIff | pipebomb/server.py:1028-1311 | restoring a snapshot gives back the state, insertion order and queue order included, exactly if every client is stored under its own UUID and every response under its own |
| CheckpointProofs.RestoredConsistent | pipebomb/server.py:1199-1305 | whatever bytes are restored, the result has that property |
| CheckpointProofs.SnapshotIdempotent | pipebomb/server.py:1038-1120 | a restored state is written to the same tables, byte for byte |
| CheckpointProofs.SnapshotInjective | pipebomb/server.py:1028-1124 | two consistent states that can be written share a snapshot exactly if they are equal |
| CheckpointProofs.ReplayClient | pipebomb/server.py:1054-1109 | the four fields of a client read back to exactly that client |
| CheckpointProofs.TablesRoundTrip | pipebomb/server.py:1111-1165 | the three tables split back into the fields they were joined from |
| CheckpointProofs.AddressesProgress | pipebomb/server.py:1224-1234 | on any bytes, at most one address for every four bytes of a value |
| CheckpointProofs.RequestsProgress | pipebomb/server.py:1240-1274 | on any bytes, at most one request for every sixteen |
| CheckpointProofs.ResponsesProgress | pipebomb/server.py:1280-1305 | on any bytes, at most one response for every twelve |
| CheckpointProofs.RestoredValuesHaveKeys | pipebomb/server.py:1171-1197 | no database value and no address UUID is stored without its own key before it |
| CheckpointQueues.SaveLosesNothingIff | pipebomb/server.py:1069-1092 | a checkpoint leaves the tables as they were exactly if the queues of the clients before the one it fails on are empty, and that one fails before its queue or has none |
| CheckpointQueues.SavedInboxesEmpty | pipebomb/server.py:1069-1078 | one that returns has emptied every queue and changed nothing else |
| CheckpointQueues.RaisingSaveLosesRequest | pipebomb/server.py:1063-1067 | a client queues a request, an administrator adds a client with a non-Latin-1 address: the checkpoint raises and the request is gone |
| CheckpointQueues.SaveIsARun | pipebomb/server.py:1054-1092 | what a checkpoint does to the tables is a run of one drain for each client it reaches |
| CheckpointQueues.SaveTakes | pipebomb/server.py:1069-1078 | what those drains take from a client is what `TakenFrom` counts off the front of its queue |
| CheckpointCode.Serialize | pipebomb/server.py:1028-1124 | with no outbox lock held or awaited: succeeds exactly on the states that can be written, returns their snapshot, and, whether it returns or raises, leaves exactly the tables of `AfterSave` |
| CheckpointCode.SerializeClient | pipebomb/server.py:1054-1109 | one client's four fields, written exactly if the client can be; exactly `TakenFrom` of its requests are gone |
| CheckpointCode.DrainInbox | pipebomb/server.py:1072-1089 | the queue in order, or the exception, and exactly the requests up to the first that cannot be packed are gone |
| CheckpointCode.TableWriter.AddField | pipebomb/server.py:1033-1036 | one more field, or the exception on a value of 4 GiB |
| CheckpointCode.TableWriter.Finish | pipebomb/server.py:1111-1120 | the joined tables behind their lengths, or the exception on an over-long table |
| CheckpointLoader.ParseLengths | pipebomb/server.py:1155-1158 | all length words, or the exception exactly if one is not there in full |
| CheckpointLoader.CutValues | pipebomb/server.py:1160-1165 | successive slices, clamped at the end |
| CheckpointLoader.ParseRequests | pipebomb/server.py:1240-1274 | the cursor loop reads the records the reference reader reads |
| CheckpointLoader.ParseOutbox | pipebomb/server.py:1280-1305 | likewise, each response stored under its own UUID |
| CheckpointLoader.Loader.Load | pipebomb/server.py:1174-1305 | one field: the dictionaries and pending keys after it, or its exception |
| CheckpointLoader.Deserialize | pipebomb/server.py:1127-1311 | on any bytes, the tables of the reference reader with fresh, unconnected clients, or its exception |
| CheckpointLoader.DeserializeInto | pipebomb/server.py:1307-1309 | a given server takes the restored tables over, or keeps its own when reading raises |
| Reachable.WellFormedInEveryRun | pipebomb/server.py:362-421 | every run from an empty server keeps 36-character UUIDs, Latin-1 text and matching keys |
| Reachable.EveryRunIsLossless | pipebomb/server.py:1028-1311 | so a checkpoint of any state reached can fail only on size, and otherwise loses nothing |
| CheckpointExact.SavesItselfIff | pipebomb/server.py:1054-1109 | a checkpoint of tables that can be written ends, in every run from there, with exactly those tables, if and only if no client's outbox lock is held or awaited by anybody when it begins |
| CheckpointMoves.BeginsFree | pipebomb/server.py:1028-1109 | with no outbox lock held or awaited it never waits: snapshot, exception and tables left are those of the moment it began |
| CheckpointExact.RaisesAfterLogin | pipebomb/server.py:1054-1095 | whenever it waits, a login makes it raise once its turn comes |
| CheckpointExact.TurnComes | pipebomb/server.py:1095 | and its turn can always come: the holder's reply goes out, and everybody before it in the queue is served |
| CheckpointMoves.SystemLinearises | pipebomb/server.py:1028-1109 | handlers together with a checkpoint, waiting or not, still linearise |
| CheckpointWaits.FailingSave | pipebomb/server.py:812-844 | the run: login, GET_OUTBOX being answered, checkpoint, another login, and the checkpoint raises |
| CheckpointWaits.QueuedSave | pipebomb/server.py:786-811 | the run in which no lock is held by anybody when the checkpoint begins, but a PUT_OUTBOX is queued for one that has just been released: the checkpoint queues behind it, and a login makes it raise |
| CheckpointWaits.MixedSave | pipebomb/server.py:1095-1109 | the run: while it waits a later client registers an address, and the checkpoint holds tables that never were; restored, UNREGISTER crashes |
| CheckpointContents.SavedContents | pipebomb/server.py:1028-1124 | whatever a checkpoint returns, waited or not, reads back without a fault: database, book and order of clients are those of the moment it began, each client's addresses and queue those of one moment, its outbox that of the same moment or a later one |
| InterleavedOwnership.CheckpointUnderInterleaving | pipebomb/server.py:1028-1311 | at any moment of any run of handlers and checkpoints when no client's outbox lock is held or awaited, a checkpoint can fail on size only, and otherwise loses nothing |
| Restored.RestartIsInvisible | pipebomb/server.py:1022-1025 | a server is saved at a moment when no outbox lock is held or awaited, its connections break, and it is restarted from the bytes: every run from there, waits and crashes included, continues its own run from before, with each new session at the same point, counters and replies, over the same tables |
| Restored.RestartMissesNothing | pipebomb/server.py:1022-1025 | conversely, every run the saved server could have had once its connections had broken is one of the restarted server |
| Restored.OwedAcrossRestart | pipebomb/server.py:1022-1025 | so a session after the restart has been sent what one history, before and after the restart, owes it |
| RestoredServer.Restart | pipebomb/server.py:1199-1217 | the server object read from a checkpoint has the saved tables, and no connections |
| RestoredServer.StartBoth | pipebomb/server.py:462-463 | a handler starts on the restored server only where it would have on the saved one |
| RestoredServer.LoginBoth | pipebomb/server.py:362-437 | a login finds and leaves the two servers alike |
| RestoredServer.FrameBoth | pipebomb/server.py:490-522 | so does a frame for a session begun since, with the same outcome |
| RestoredServer.SentBoth | pipebomb/server.py:518 | and the sending of its reply |
| GoTasks.SameIdIff | pipebomb/gsyncio/gsyncio.go:109-115 | two task ids are equal exactly if a multiple of 2^32 calls lies between them |
| GoTasks.IdsDistinct | pipebomb/gsyncio/gsyncio.go:109-115 | ids are distinct over any 2^32 consecutive calls |
| GoTasks.TablesAgree | pipebomb/gsyncio/gsyncio.go:46-57 | registered ids are in both maps, the other remembered ids are cancelled, and a query is false exactly for registered tasks no cancel has reached |
| GoTasks.RunsAtMostOnce | pipebomb/gsyncio/gsyncio.go:59-106 | each callback runs at most once, and a plain task that is over has run, whatever was cancelled |
| GoTasks.CancelledNeverRuns | pipebomb/gsyncio/gsyncio.go:59-62 | cancelled by either half after the start and before its goroutine reads the flag, a callback never runs |
| GoTasks.LateCancelDoesNotStop | pipebomb/gsyncio/gsyncio.go:64-69 | after that reading no cancel stops it |
| GoTasks.CanceledStays | pipebomb/gsyncio/gsyncio.go:128-137 | after the start, a query that has said true says true for ever |
| GoTasks.CancelBeforeStart | pipebomb/gsyncio/__init__.py:109-132 | a cancel between the making of the flag and the start stops the callback although the query says false |
| GoTasks.GoLibrary.StartWithResult | pipebomb/gsyncio/gsyncio.go:36-49 | both maps and the entry after a start |
| GoTasks.GoLibrary.Cancel | pipebomb/gsyncio/gsyncio.go:118-125 | the one entry pointed at a one, all others untouched, the id remembered |
| GoTasks.GoLibrary.Finish | pipebomb/gsyncio/gsyncio.go:52-57 | both maps after the goroutine's deferred section |
| GoTasks.GoLibrary.GetNextTaskId | pipebomb/gsyncio/gsyncio.go:109-115 | the counter, truncated to a C int, and its next value |

## Left out

- Sockets, address resolution, factories, logging, configuration and the build hook: I/O. A socket is the list of chunks its reads return.
- X25519, HKDF, ChaCha20-Poly1305, zstd, CRC-32 and UUID internals: library code, used through the laws above only. Nothing is claimed about secrecy or collisions.
- JSON: the reply to LIST is a copy of the database; in a session it is rendered by an arbitrary function.
- Event loop, CFFI, GIL and thread bridging, `CancelableTask`, the result events of `run_task_async`: runtime.
- A framing error in `handle_client` sends a raw error, closes the socket and then dies in `verify_packet(None)`; like an end of stream it is one step that stops the handler and changes no table (`Interleaving.Fail`).
- The time limit of `receive`, and pipelined `RawClient.send` calls: a session has one request outstanding, as every method of `Client` keeps it; transmitting and counting a packet are one step.
- Two live handlers under one UUID: a relogin in `Interleaving` needs the old handler to be gone, so the counters kept in the client entry are those of its one handler.
- `apply_client_state` and `get_client`: they replace or copy single fields. `add_client` with addresses, and `add_key` for an unknown client, are modelled but excluded from the ownership runs (`Ownership.Allowed`), since they break ownership by design.
- CheckpointCode.Serialize: the method runs while no `outbox_lock` is held or awaited; checkpoints that wait are in `CheckpointMoves`. Which exception it raises is not stated.
- CheckpointExact.SavesItselfIff: the loop raises as soon as the keys of `client_db` are not those it began with; CPython compares only the number, so a departure and a login that cancel out during one wait may go unnoticed there. One checkpoint at a time.
- Restored.RestartIsInvisible: logins and add_client after the restart do not draw a UUID of an earlier session. The run that is continued is that of the server as it was saved, its queues not yet drained by the save.
- EndToEnd.ClientReadsTheHistory: leaves out the runs in which a PUT_OUTBOX of this client waited for a lock and found its target gone.
- An administrator's `set_db` or `remove_db` happens while nobody holds the database lock; its own place in the queue for that lock is not modelled.
- Servers.Server.AdmitClient: the lists of the ticket are copied, so later changes through the caller's references are not seen.
- A PUT_OUTBOX that waited for a lock writes to the entry it had found. So that this is the entry in the table, or none, a login or add_client never brings back a UUID that some handler has had (`Interleaving.Enabled`).
- Sessions.SessionDelivers: assumes that a compressed payload is at most 2^32-1 bytes, the receiver's own limit.
- Handshake.HandshakeLockstep: both ends already share the session key; the passwords and UUIDs fit the receiver's limit.
- GoTasks.TablesAgree: the counter is an unbounded integer before its truncation, reads and writes of a flag are atomic, and ids are not reused.
