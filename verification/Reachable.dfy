/** Every state a server can reach can be checkpointed, and the checkpoint loses nothing. */
module Reachable {
  import opened Wrappers
  import opened Bytes
  import opened Dicts
  import opened Tables
  import opened Wire
  import opened Commands
  import opened Runs
  import opened Checkpoint
  import opened CheckpointProofs

  predicate AllLatin1(addresses: seq<string>) {
    forall i :: 0 <= i < |addresses| ==> Latin1(addresses[i])
  }

  ghost predicate ClientText(u: string, c: ClientRecord) {
    UuidOk(u) && c.uuid == u && AllLatin1(c.addressesOwned) && OutboxKeyed(c.outbox)
  }

  /** What `serialize` demands of the text in the tables, and what makes the checkpoint lossless. */
  ghost predicate WellFormed(s: State) {
    && (forall u :: u in s.clients.vals ==> ClientText(u, s.clients.vals[u]))
    && (forall k :: k in s.addressBook.vals ==> Latin1(k) && UuidOk(s.addressBook.vals[k]))
  }

  /** Fresh ids are 36 Latin-1 characters, as `str(uuid4())` is; administrators pass Latin-1 text. */
  ghost predicate Textual(e: Event) {
    match e
    case LoggedIn(uuid) => UuidOk(uuid)
    case Admitted(ticket) => Latin1(ticket.uuid) && AllLatin1(ticket.addressesOwned)
    case KeyGiven(key, uuid) => Latin1(key) && Latin1(uuid)
    case _ => true
  }

  lemma WithClientWellFormed(s: State, u: string, c: ClientRecord)
    requires WellFormed(s) && ClientText(u, c)
    ensures WellFormed(WithClient(s, u, c))
  {
  }

  lemma RemoveFirstLatin1(addresses: seq<string>, x: string)
    requires AllLatin1(addresses)
    ensures AllLatin1(RemoveFirst(addresses, x))
  {
    var after := RemoveFirst(addresses, x);
    forall i | 0 <= i < |after|
      ensures Latin1(after[i])
    {
      RemoveFirstMembers(addresses, x, after[i]);
    }
  }

  lemma SameTextWellFormed(s: State, t: State)
    requires WellFormed(s) && t.clients == s.clients && t.addressBook == s.addressBook
    ensures WellFormed(t)
  {
  }

  /** A change of one client's mailboxes. */
  lemma MailWellFormed(s: State, u: string, c: ClientRecord)
    requires u in s.clients.vals && c.uuid == s.clients.vals[u].uuid && c.addressesOwned == s.clients.vals[u].addressesOwned
    requires OutboxKeyed(s.clients.vals[u].outbox) ==> OutboxKeyed(c.outbox)
    requires WellFormed(s)
    ensures WellFormed(WithClient(s, u, c))
  {
    assert ClientText(u, s.clients.vals[u]);
  }

  lemma DepartWellFormed(s: State, uuid: string, keepDead: bool)
    requires WellFormed(s)
    ensures WellFormed(Depart(s, uuid, keepDead))
  {
    hide Latin1, UuidOk;
  }

  lemma RegisterWellFormed(s: State, uuid: string, address: string)
    requires WellFormed(s) && Latin1(address)
    ensures WellFormed(DoRegister(s, uuid, address).0)
    ensures WellFormed(DoUnregister(s, uuid, address).0)
  {
    hide Latin1, UuidOk, RemoveFirst;
    if uuid in s.clients.vals {
      assert ClientText(uuid, s.clients.vals[uuid]);
      RemoveFirstLatin1(s.clients.vals[uuid].addressesOwned, address);
    }
  }

  lemma ServeWellFormed(s: State, uuid: string, command: Command, id: bytes, keepDead: bool)
    requires WellFormed(s)
    ensures WellFormed(Serve(s, uuid, command, id, keepDead).0)
  {
    hide Latin1, UuidOk, WellFormed, DoRegister, DoUnregister, Depart, Answer, Text, Encode, Decode, InboxReply, OutboxReply, WithClient;
    var t := Serve(s, uuid, command, id, keepDead).0;
    match command
    case Register(address) => RegisterWellFormed(s, uuid, Decode(address));
    case Unregister(address) => RegisterWellFormed(s, uuid, Decode(address));
    case Bye => DepartWellFormed(s, uuid, keepDead);
    case PutInbox(target, request, key) =>
      if Decode(target) in s.clients.vals && Latin1(uuid) {
        var c := s.clients.vals[Decode(target)];
        MailWellFormed(s, Decode(target), c.(inbox := c.inbox + [Request(Encode(uuid), key, request, id)]));
      }
    case PutOutbox(target, response, key, requestUuid) =>
      if Decode(target) in s.clients.vals {
        var c := s.clients.vals[Decode(target)];
        MailWellFormed(s, Decode(target), c.(outbox := Put(c.outbox, requestUuid, Response(key, response, requestUuid))));
      }
    case GetInbox =>
      if uuid in s.clients.vals && s.clients.vals[uuid].inbox != [] {
        MailWellFormed(s, uuid, s.clients.vals[uuid].(inbox := s.clients.vals[uuid].inbox[1..]));
      }
    case GetOutbox(requestUuid) =>
      if uuid in s.clients.vals && requestUuid in s.clients.vals[uuid].outbox.vals {
        MailWellFormed(s, uuid, s.clients.vals[uuid].(outbox := Remove(s.clients.vals[uuid].outbox, requestUuid)));
      }
    case _ => SameTextWellFormed(s, t);
  }

  lemma StepWellFormed(s: State, e: Event, keepDead: bool)
    requires WellFormed(s) && Textual(e)
    ensures WellFormed(Step(s, e, keepDead).0)
  {
    hide Serve, Latin1, UuidOk;
    match e
    case Issued(uuid, command, id) => ServeWellFormed(s, uuid, command, id, keepDead);
    case LoggedIn(uuid) => WithClientWellFormed(s, uuid, NewClient(uuid));
    case Admitted(ticket) => AdmittedWellFormed(s, ticket);
    case Dismissed(uuid) =>
      if uuid in s.clients.vals {
        RemoveAllShrinks(s.addressBook, s.clients.vals[uuid].addressesOwned);
      }
    case Drain(uuid, taken) =>
      if uuid in s.clients.vals {
        WithClientWellFormed(s, uuid, s.clients.vals[uuid].(inbox := Drop(s.clients.vals[uuid].inbox, taken)));
      }
    case KeyGiven(key, uuid) => GivenWellFormed(s, key, uuid);
    case KeyTaken(key, uuid) =>
      if uuid in s.clients.vals {
        RemoveFirstLatin1(s.clients.vals[uuid].addressesOwned, key);
      }
    case _ =>
  }

  lemma AdmittedWellFormed(s: State, ticket: ClientRecord)
    requires WellFormed(s) && Textual(Admitted(ticket))
    ensures WellFormed(AddClient(s, ticket).0)
  {
    if AddClient(s, ticket).1 == Done {
      WithClientWellFormed(s, ticket.uuid, ticket);
    }
  }

  lemma GivenWellFormed(s: State, key: string, uuid: string)
    requires WellFormed(s) && Textual(KeyGiven(key, uuid))
    ensures WellFormed(AddKey(s, key, uuid).0)
  {
    if uuid in s.clients.vals {
      assert ClientText(uuid, s.clients.vals[uuid]);
    }
  }

  ghost predicate TextualRun(events: seq<Event>) {
    forall i :: 0 <= i < |events| ==> Textual(events[i])
  }

  lemma {:induction false} WellFormedInEveryRun(s: State, events: seq<Event>, keepDead: bool)
    requires WellFormed(s) && TextualRun(events)
    ensures WellFormed(Run(s, events, keepDead))
  {
    if events != [] {
      hide WellFormed, Textual, Step;
      WellFormedInEveryRun(s, events[..|events| - 1], keepDead);
      StepWellFormed(Run(s, events[..|events| - 1], keepDead), events[|events| - 1], keepDead);
    }
  }

  // ----- Only size can make a well-formed state unserialisable -----

  function AddressesSize(addresses: seq<string>): nat {
    if addresses == [] then 0 else 4 + |addresses[0]| + AddressesSize(addresses[1..])
  }

  predicate Short(addresses: seq<string>) {
    forall i :: 0 <= i < |addresses| ==> |addresses[i]| < U32_LIMIT
  }

  lemma {:induction false} AddressesOkIff(addresses: seq<string>)
    requires AllLatin1(addresses)
    ensures AddressesOk(addresses) <==> Short(addresses)
    ensures AddressesOk(addresses) ==> |AddressesBytes(addresses)| == AddressesSize(addresses)
  {
    if addresses != [] {
      var rest := addresses[1..];
      assert forall i :: 0 <= i < |rest| ==> rest[i] == addresses[i + 1];
      assert Short(addresses) <==> |addresses[0]| < U32_LIMIT && Short(rest) by {
        assert forall i :: 1 <= i < |addresses| ==> addresses[i] == rest[i - 1];
      }
      AddressesOkIff(rest);
    }
  }

  predicate ClientSmall(c: ClientRecord) {
    && Short(c.addressesOwned) && UUID_LENGTH + AddressesSize(c.addressesOwned) < U32_LIMIT
    && RequestsOk(c.inbox) && UUID_LENGTH + |RequestsBytes(c.inbox)| < U32_LIMIT
    && ResponsesOk(Responses(c.outbox)) && UUID_LENGTH + |ResponsesBytes(Responses(c.outbox))| < U32_LIMIT
  }

  /** No field, record or table is 4 GiB long or longer. */
  ghost predicate Small(s: State) {
    && DbOk(s.db)
    && (forall k :: k in s.addressBook.vals ==> |k| + 4 < U32_LIMIT)
    && (forall u :: u in s.clients.vals ==> ClientSmall(s.clients.vals[u]))
    && (BookOk(s.addressBook) && ClientsOk(s.clients) ==> TablesFit(StateFields(s)))
  }

  lemma SerialisableIff(s: State)
    requires WellFormed(s)
    ensures Serialisable(s) <==> Small(s)
    ensures Consistent(s)
  {
    hide DbOk, TablesFit, StateFields, RequestsOk, RequestsBytes, ResponsesOk, ResponsesBytes;
    forall u | u in s.clients.vals
      ensures ClientOk(s.clients.vals[u]) <==> ClientSmall(s.clients.vals[u])
    {
      assert ClientText(u, s.clients.vals[u]);
      AddressesOkIff(s.clients.vals[u].addressesOwned);
    }
  }

  /** From an empty server, whatever happens, a checkpoint can fail only on size and otherwise loses nothing. */
  lemma EveryRunIsLossless(z: Zstd, events: seq<Event>, keepDead: bool)
    requires Inverse(z) && TextualRun(events)
    ensures var s := Run(EMPTY_STATE, events, keepDead);
            (Serialisable(s) <==> Small(s)) && (Small(s) ==> Restore(z, Snapshot(z, s)) == Ok(s))
  {
    hide Small, Consistent, Serialisable;
    var s := Run(EMPTY_STATE, events, keepDead);
    WellFormedInEveryRun(EMPTY_STATE, events, keepDead);
    SerialisableIff(s);
    if Small(s) {
      LosslessIff(z, s);
    }
  }
}
