/** The address book and the clients' own lists agree, in every run. */
module Ownership {
  import opened Wrappers
  import opened Bytes
  import opened Dicts
  import opened Packets
  import opened Tables
  import opened Wire
  import opened Commands
  import opened Runs

  /** A client lists, once each, exactly the addresses the book gives it. */
  ghost predicate Owns(book: map<string, string>, uuid: string, addresses: seq<string>) {
    && Distinct(addresses)
    && (forall k :: k in addresses ==> k in book && book[k] == uuid)
    && (forall k :: k in book && book[k] == uuid ==> k in addresses)
  }

  ghost predicate Owned(s: State) {
    forall u :: u in s.clients.vals ==> Owns(s.addressBook.vals, u, s.clients.vals[u].addressesOwned)
  }

  /** `used` holds every UUID handed out so far, those of removed clients included. */
  ghost predicate Known(s: State, used: set<string>) {
    && (forall u :: u in s.clients.vals ==> u in used)
    && (forall k :: k in s.addressBook.vals ==> s.addressBook.vals[k] in used)
  }

  /** UUIDs are never reused, and keys are given to and taken from the client that has them. */
  ghost predicate Allowed(s: State, used: set<string>, e: Event) {
    match e
    case LoggedIn(uuid) => uuid !in used
    case Admitted(ticket) => ticket.uuid !in used && ticket.addressesOwned == []
    case KeyGiven(_, uuid) => uuid in s.clients.vals
    case KeyTaken(key, uuid) => uuid in s.clients.vals && key in s.clients.vals[uuid].addressesOwned
    case _ => true
  }

  function NowUsed(used: set<string>, e: Event): set<string> {
    match e
    case LoggedIn(uuid) => used + {uuid}
    case Admitted(ticket) => used + {ticket.uuid}
    case _ => used
  }

  // ----- Each kind of change -----

  lemma OwnsGain(book: map<string, string>, uuid: string, addresses: seq<string>, k: string)
    requires Owns(book, uuid, addresses) && k !in book
    ensures Owns(book[k := uuid], uuid, addresses + [k])
  {
  }

  lemma OwnsLose(book: map<string, string>, uuid: string, addresses: seq<string>, k: string)
    requires Owns(book, uuid, addresses)
    ensures Owns(book - {k}, uuid, RemoveFirst(addresses, k))
  {
    RemoveFirstDistinct(addresses, k);
    forall x
      ensures x in RemoveFirst(addresses, k) <==> x in addresses && x != k
    {
      RemoveFirstMembers(addresses, k, x);
    }
  }

  /** A change of other clients' entries does not concern this one. */
  lemma OwnsOther(book: map<string, string>, after: map<string, string>, uuid: string, addresses: seq<string>)
    requires Owns(book, uuid, addresses)
    requires forall k :: k in book && book[k] == uuid ==> k in after && after[k] == uuid
    requires forall k :: k in after && after[k] == uuid ==> k in book && book[k] == uuid
    ensures Owns(after, uuid, addresses)
  {
  }

  lemma RegisterOwned(s: State, uuid: string, address: string)
    requires Owned(s)
    ensures Owned(DoRegister(s, uuid, address).0)
  {
    var t := DoRegister(s, uuid, address).0;
    if uuid in s.clients.vals && address !in s.addressBook.vals {
      forall u | u in t.clients.vals
        ensures Owns(t.addressBook.vals, u, t.clients.vals[u].addressesOwned)
      {
        if u == uuid {
          OwnsGain(s.addressBook.vals, u, s.clients.vals[u].addressesOwned, address);
        } else {
          OwnsOther(s.addressBook.vals, t.addressBook.vals, u, s.clients.vals[u].addressesOwned);
        }
      }
    }
  }

  /** In an owned state UNREGISTER never finds the address missing from the book. */
  lemma UnregisterOwned(s: State, uuid: string, address: string)
    requires Owned(s)
    ensures Owned(DoUnregister(s, uuid, address).0)
    ensures uuid in s.clients.vals ==> DoUnregister(s, uuid, address).1 != Crash
  {
    var t := DoUnregister(s, uuid, address).0;
    if uuid in s.clients.vals && address in s.clients.vals[uuid].addressesOwned {
      assert Owns(s.addressBook.vals, uuid, s.clients.vals[uuid].addressesOwned);
      forall u | u in t.clients.vals
        ensures Owns(t.addressBook.vals, u, t.clients.vals[u].addressesOwned)
      {
        if u == uuid {
          OwnsLose(s.addressBook.vals, u, s.clients.vals[u].addressesOwned, address);
        } else {
          OwnsOther(s.addressBook.vals, t.addressBook.vals, u, s.clients.vals[u].addressesOwned);
        }
      }
    }
  }

  lemma DepartOwned(s: State, uuid: string, keepDead: bool)
    requires Owned(s)
    ensures Owned(Depart(s, uuid, keepDead))
  {
    var t := Depart(s, uuid, keepDead);
    forall u | u in t.clients.vals
      ensures Owns(t.addressBook.vals, u, t.clients.vals[u].addressesOwned)
    {
      OwnsOther(s.addressBook.vals, t.addressBook.vals, u, s.clients.vals[u].addressesOwned);
    }
  }

  lemma {:induction false} RemoveAllIs(book: OrderedDict<string, string>, keys: seq<string>)
    requires Distinct(keys) && forall k :: k in keys ==> k in book.vals
    ensures RemoveAll(book, keys).1
    ensures RemoveAll(book, keys).0.vals == book.vals - (set k | k in keys)
  {
    if keys != [] {
      var init, last := keys[..|keys| - 1], keys[|keys| - 1];
      RemoveAllIs(book, init);
      assert last !in init;
      assert (set k | k in keys) == (set k | k in init) + {last};
    }
  }

  /** In an owned state remove_client never finds one of its addresses missing. */
  lemma RemoveClientOwned(s: State, uuid: string)
    requires Owned(s)
    ensures Owned(RemoveClient(s, uuid).0)
    ensures RemoveClient(s, uuid).1 != Failed(KeyFault)
    ensures RemoveClient(s, uuid).1 == Done ==>
              forall k :: k in RemoveClient(s, uuid).0.addressBook.vals ==> RemoveClient(s, uuid).0.addressBook.vals[k] != uuid
  {
    if |uuid| == UUID_LENGTH && uuid in s.clients.vals {
      var addresses := s.clients.vals[uuid].addressesOwned;
      assert Owns(s.addressBook.vals, uuid, addresses);
      RemoveAllIs(s.addressBook, addresses);
      var t := RemoveClient(s, uuid).0;
      forall u | u in t.clients.vals
        ensures Owns(t.addressBook.vals, u, t.clients.vals[u].addressesOwned)
      {
        OwnsOther(s.addressBook.vals, t.addressBook.vals, u, s.clients.vals[u].addressesOwned);
      }
    }
  }

  lemma AddKeyOwned(s: State, key: string, uuid: string)
    requires Owned(s) && uuid in s.clients.vals
    ensures Owned(AddKey(s, key, uuid).0)
  {
    var t := AddKey(s, key, uuid).0;
    if |uuid| == UUID_LENGTH && key !in s.addressBook.vals {
      forall u | u in t.clients.vals
        ensures Owns(t.addressBook.vals, u, t.clients.vals[u].addressesOwned)
      {
        if u == uuid {
          OwnsGain(s.addressBook.vals, u, s.clients.vals[u].addressesOwned, key);
        } else {
          OwnsOther(s.addressBook.vals, t.addressBook.vals, u, s.clients.vals[u].addressesOwned);
        }
      }
    }
  }

  /** remove_key keeps ownership exactly when it names the owner, or the owner has left. */
  lemma RemoveKeyOwnedIff(s: State, key: string, uuid: string)
    requires Owned(s) && |uuid| == UUID_LENGTH && key in s.addressBook.vals
    ensures Owned(RemoveKey(s, key, uuid).0) <==>
              s.addressBook.vals[key] == uuid || s.addressBook.vals[key] !in s.clients.vals
  {
    var owner := s.addressBook.vals[key];
    var t := RemoveKey(s, key, uuid).0;
    if owner == uuid || owner !in s.clients.vals {
      forall u | u in t.clients.vals
        ensures Owns(t.addressBook.vals, u, t.clients.vals[u].addressesOwned)
      {
        assert Owns(s.addressBook.vals, u, s.clients.vals[u].addressesOwned);
        if u == owner {
          OwnsLose(s.addressBook.vals, u, s.clients.vals[u].addressesOwned, key);
        } else {
          OwnsOther(s.addressBook.vals, t.addressBook.vals, u, s.clients.vals[u].addressesOwned);
        }
      }
    } else {
      assert Owns(s.addressBook.vals, owner, s.clients.vals[owner].addressesOwned);
      if uuid in s.clients.vals {
        assert Owns(s.addressBook.vals, uuid, s.clients.vals[uuid].addressesOwned);
      }
      assert key in t.clients.vals[owner].addressesOwned && key !in t.addressBook.vals;
      assert !Owns(t.addressBook.vals, owner, t.clients.vals[owner].addressesOwned);
    }
  }

  // ----- Every step, every run -----

  lemma SameAddressesOwned(s: State, t: State)
    requires Owned(s) && t.addressBook == s.addressBook
    requires forall u :: u in t.clients.vals ==>
               u in s.clients.vals && t.clients.vals[u].addressesOwned == s.clients.vals[u].addressesOwned
    ensures Owned(t)
  {
  }

  lemma NewcomerOwned(s: State, used: set<string>, c: ClientRecord)
    requires Owned(s) && Known(s, used) && c.uuid !in used && c.addressesOwned == []
    ensures Owned(WithClient(s, c.uuid, c))
  {
    var t := WithClient(s, c.uuid, c);
    forall u | u in t.clients.vals
      ensures Owns(t.addressBook.vals, u, t.clients.vals[u].addressesOwned)
    {
      if u != c.uuid {
        assert Owns(s.addressBook.vals, u, s.clients.vals[u].addressesOwned);
      }
    }
  }

  lemma ServeOwned(s: State, uuid: string, command: Command, id: bytes, keepDead: bool)
    requires Owned(s)
    ensures Owned(Serve(s, uuid, command, id, keepDead).0)
  {
    hide Owned, DoRegister, DoUnregister, Depart, Answer, Text, Encode, Decode, InboxReply, OutboxReply, RemoveFirst;
    match command
    case Register(address) => RegisterOwned(s, uuid, Decode(address));
    case Unregister(address) => UnregisterOwned(s, uuid, Decode(address));
    case Bye => DepartOwned(s, uuid, keepDead);
    case _ => SameAddressesOwned(s, Serve(s, uuid, command, id, keepDead).0);
  }

  lemma StepOwned(s: State, used: set<string>, e: Event, keepDead: bool)
    requires Owned(s) && Known(s, used) && Allowed(s, used, e)
    ensures Owned(Step(s, e, keepDead).0)
  {
    hide Owned, Serve, Depart, RemoveClient, AddKey;
    var t := Step(s, e, keepDead).0;
    match e
    case Issued(uuid, command, id) => ServeOwned(s, uuid, command, id, keepDead);
    case LoggedIn(uuid) => NewcomerOwned(s, used, NewClient(uuid));
    case Refusal(uuid) => DepartOwned(s, uuid, keepDead);
    case Admitted(ticket) =>
      if t != s {
        NewcomerOwned(s, used, ticket);
      }
    case Dismissed(uuid) => RemoveClientOwned(s, uuid);
    case KeyGiven(key, uuid) => AddKeyOwned(s, key, uuid);
    case KeyTaken(key, uuid) => TakenOwned(s, key, uuid);
    case _ => SameAddressesOwned(s, t);
  }

  lemma TakenOwned(s: State, key: string, uuid: string)
    requires Owned(s) && uuid in s.clients.vals && key in s.clients.vals[uuid].addressesOwned
    ensures Owned(RemoveKey(s, key, uuid).0)
  {
    assert Owns(s.addressBook.vals, uuid, s.clients.vals[uuid].addressesOwned);
    if |uuid| == UUID_LENGTH {
      RemoveKeyOwnedIff(s, key, uuid);
    }
  }

  lemma StepKnown(s: State, used: set<string>, e: Event, keepDead: bool)
    requires Known(s, used) && Allowed(s, used, e)
    ensures Known(Step(s, e, keepDead).0, NowUsed(used, e))
  {
    match e
    case Issued(uuid, command, id) => ServeKnown(s, used, uuid, command, id, keepDead);
    case Dismissed(uuid) =>
      if uuid in s.clients.vals {
        RemoveAllShrinks(s.addressBook, s.clients.vals[uuid].addressesOwned);
      }
    case _ =>
  }

  lemma ServeKnown(s: State, used: set<string>, uuid: string, command: Command, id: bytes, keepDead: bool)
    requires Known(s, used)
    ensures Known(Serve(s, uuid, command, id, keepDead).0, used)
  {
    hide Answer, Text, Encode, Decode, InboxReply, OutboxReply, RemoveFirst;
  }

  function UsedAfter(used: set<string>, events: seq<Event>): set<string> {
    if events == [] then used else NowUsed(UsedAfter(used, events[..|events| - 1]), events[|events| - 1])
  }

  ghost predicate AllowedRun(s: State, used: set<string>, events: seq<Event>, keepDead: bool) {
    events == [] ||
    var init := events[..|events| - 1];
    AllowedRun(s, used, init, keepDead) && Allowed(Run(s, init, keepDead), UsedAfter(used, init), events[|events| - 1])
  }

  /** Over every run that never reuses a UUID, book and clients agree. */
  lemma {:induction false} OwnedInEveryRun(s: State, used: set<string>, events: seq<Event>, keepDead: bool)
    requires Owned(s) && Known(s, used) && AllowedRun(s, used, events, keepDead)
    ensures Owned(Run(s, events, keepDead)) && Known(Run(s, events, keepDead), UsedAfter(used, events))
  {
    hide Owned, Known, Allowed, Step, NowUsed;
    if events != [] {
      var init, e := events[..|events| - 1], events[|events| - 1];
      OwnedInEveryRun(s, used, init, keepDead);
      StepOwned(Run(s, init, keepDead), UsedAfter(used, init), e, keepDead);
      StepKnown(Run(s, init, keepDead), UsedAfter(used, init), e, keepDead);
    }
  }

  /** So in no run does UNREGISTER crash a live handler, or remove_client stop half-way. */
  lemma NoDanglingDeletes(used: set<string>, events: seq<Event>, keepDead: bool, uuid: string, address: string)
    requires AllowedRun(EMPTY_STATE, used, events, keepDead)
    ensures var s := Run(EMPTY_STATE, events, keepDead);
            && (uuid in s.clients.vals ==> DoUnregister(s, uuid, address).1 != Crash)
            && RemoveClient(s, uuid).1 != Failed(KeyFault)
  {
    OwnedInEveryRun(EMPTY_STATE, used, events, keepDead);
    var s := Run(EMPTY_STATE, events, keepDead);
    UnregisterOwned(s, uuid, address);
    RemoveClientOwned(s, uuid);
  }

  // ----- What the address commands answer -----

  /**
   In an owned state WHOHAS answers with what a client's own WHOAMI answers
   exactly when that client lists the address.
   */
  lemma WhoHasIff(s: State, asker: string, owner: string, address: bytes, id: bytes, keepDead: bool)
    requires Owned(s) && asker in s.clients.vals && owner in s.clients.vals
    requires Latin1(owner) && |owner| == UUID_LENGTH
    ensures Serve(s, owner, WhoAmI, id, keepDead).1 == Reply(Encode(owner))
    ensures Serve(s, asker, WhoHas(address), id, keepDead).1 == Serve(s, owner, WhoAmI, id, keepDead).1
       <==> Decode(address) in s.clients.vals[owner].addressesOwned
  {
    var text := Decode(address);
    assert Owns(s.addressBook.vals, owner, s.clients.vals[owner].addressesOwned);
    DecodeEncode(owner);
    if text in s.addressBook.vals && Latin1(s.addressBook.vals[text]) {
      DecodeEncode(s.addressBook.vals[text]);
    }
  }

  /** REGISTER is accepted exactly for a free address, and UNREGISTER undoes it, order included. */
  lemma UnregisterUndoesRegister(s: State, uuid: string, address: string)
    requires Owned(s) && uuid in s.clients.vals
    ensures DoRegister(s, uuid, address).1 == Reply(ACK) <==> address !in s.addressBook.vals
    ensures DoRegister(s, uuid, address).1 == Reply(ACK) ==>
              DoUnregister(DoRegister(s, uuid, address).0, uuid, address) == (s, Reply(ACK))
  {
    hide Put, Remove, RemoveFirst;
    if address !in s.addressBook.vals {
      var c := s.clients.vals[uuid];
      assert Owns(s.addressBook.vals, uuid, c.addressesOwned);
      RemoveLast(c.addressesOwned, address);
      RemovePut(s.addressBook, address, uuid);
      PutBack(s.clients, uuid, c.(addressesOwned := c.addressesOwned + [address]));
    }
  }

  // ----- What a departure leaves behind -----

  /** The cleanup deletes one address at most, so nothing is left behind exactly if there was at most one. */
  lemma CleanDepartureIff(s: State, uuid: string)
    requires Owned(s) && uuid in s.clients.vals
    ensures (forall k :: k in Depart(s, uuid, false).addressBook.vals ==> Depart(s, uuid, false).addressBook.vals[k] != uuid)
       <==> |s.clients.vals[uuid].addressesOwned| <= 1
  {
    var addresses, book := s.clients.vals[uuid].addressesOwned, s.addressBook;
    var after := Depart(s, uuid, false).addressBook;
    assert Owns(book.vals, uuid, addresses);
    FirstOwnedFinds(book, uuid);
    if |addresses| >= 2 {
      assert addresses[0] != addresses[1];
      var first := FirstOwned(book.keys, book.vals, uuid);
      var left := if first == Some(addresses[0]) then addresses[1] else addresses[0];
      assert left in addresses && left in book.vals && book.vals[left] == uuid;
      assert left in after.vals && after.vals[left] == uuid;
    }
  }

  /** No entry names a client that is gone. */
  ghost predicate Live(s: State) {
    forall k :: k in s.addressBook.vals ==> s.addressBook.vals[k] in s.clients.vals
  }

  /** The client this event disconnects, if it does. */
  function Leaver(e: Event): Option<string> {
    match e
    case Issued(uuid, Bye, _) => Some(uuid)
    case Refusal(uuid) => Some(uuid)
    case _ => None
  }

  ghost predicate Tidy(s: State, e: Event, keepDead: bool) {
    Leaver(e).Some? && !keepDead && Leaver(e).value in s.clients.vals ==>
      |s.clients.vals[Leaver(e).value].addressesOwned| <= 1
  }

  lemma DepartLive(s: State, uuid: string)
    requires Owned(s) && Live(s)
    ensures Live(Depart(s, uuid, false)) <==> (uuid in s.clients.vals ==> |s.clients.vals[uuid].addressesOwned| <= 1)
  {
    var t := Depart(s, uuid, false);
    if uuid in s.clients.vals {
      CleanDepartureIff(s, uuid);
    }
    assert forall k :: k in t.addressBook.vals ==> k in s.addressBook.vals && t.addressBook.vals[k] == s.addressBook.vals[k];
  }

  /** One step keeps the book free of dead entries exactly when it is tidy. */
  lemma StepLiveIff(s: State, used: set<string>, e: Event, keepDead: bool)
    requires Owned(s) && Live(s) && Known(s, used) && Allowed(s, used, e)
    ensures Live(Step(s, e, keepDead).0) <==> Tidy(s, e, keepDead)
  {
    hide Owned, Depart;
    match e
    case Issued(uuid, command, id) => ServeLiveIff(s, uuid, command, id, keepDead);
    case Refusal(uuid) => DepartOrStay(s, uuid, keepDead);
    case Dismissed(uuid) =>
      RemoveClientOwned(s, uuid);
      if uuid in s.clients.vals {
        RemoveAllShrinks(s.addressBook, s.clients.vals[uuid].addressesOwned);
      }
    case _ =>
  }

  lemma DepartOrStay(s: State, uuid: string, keepDead: bool)
    requires Owned(s) && Live(s)
    ensures Live(Depart(s, uuid, keepDead)) <==>
              keepDead || (uuid in s.clients.vals ==> |s.clients.vals[uuid].addressesOwned| <= 1)
  {
    DepartLive(s, uuid);
  }

  lemma ServeLiveIff(s: State, uuid: string, command: Command, id: bytes, keepDead: bool)
    requires Owned(s) && Live(s)
    ensures Live(Serve(s, uuid, command, id, keepDead).0) <==> Tidy(s, Issued(uuid, command, id), keepDead)
  {
    hide Owned, Depart;
    match command
    case Bye => DepartOrStay(s, uuid, keepDead);
    case _ =>
  }

  // ----- The same over whole runs -----

  /** A handler whose entry is gone dies before it can say goodbye or be refused. */
  predicate Present(s: State, e: Event) {
    Leaver(e).Some? ==> Leaver(e).value in s.clients.vals
  }

  ghost predicate PresentRun(s: State, events: seq<Event>, keepDead: bool) {
    events == [] ||
    var init := events[..|events| - 1];
    PresentRun(s, init, keepDead) && Present(Run(s, init, keepDead), events[|events| - 1])
  }

  /** No client that owned two addresses has left. */
  ghost predicate TidyRun(s: State, events: seq<Event>, keepDead: bool) {
    events == [] ||
    var init := events[..|events| - 1];
    TidyRun(s, init, keepDead) && Tidy(Run(s, init, keepDead), events[|events| - 1], keepDead)
  }

  predicate Stale(s: State, k: string) {
    k in s.addressBook.vals && s.addressBook.vals[k] !in s.clients.vals
  }

  lemma DepartStale(s: State, uuid: string, keepDead: bool, k: string)
    requires Stale(s, k) && uuid in s.clients.vals
    ensures Stale(Depart(s, uuid, keepDead), k)
  {
  }

  lemma ServeStale(s: State, uuid: string, command: Command, id: bytes, keepDead: bool, k: string)
    requires Owned(s) && Stale(s, k) && Present(s, Issued(uuid, command, id))
    ensures Stale(Serve(s, uuid, command, id, keepDead).0, k)
  {
    hide Depart, Answer, Text, Encode, Decode, InboxReply, OutboxReply, RemoveFirst, Owned;
    match command
    case Unregister(address) =>
      if uuid in s.clients.vals {
        OwnedGives(s, uuid);
      }
    case Bye => DepartStale(s, uuid, keepDead, k);
    case _ =>
  }

  lemma OwnedGives(s: State, uuid: string)
    requires Owned(s) && uuid in s.clients.vals
    ensures forall k :: k in s.clients.vals[uuid].addressesOwned ==> k in s.addressBook.vals && s.addressBook.vals[k] == uuid
    ensures Distinct(s.clients.vals[uuid].addressesOwned)
  {
    assert Owns(s.addressBook.vals, uuid, s.clients.vals[uuid].addressesOwned);
  }

  lemma DismissStale(s: State, uuid: string, k: string)
    requires Owned(s) && Stale(s, k)
    ensures Stale(RemoveClient(s, uuid).0, k)
  {
    hide Owned;
    if uuid in s.clients.vals {
      OwnedGives(s, uuid);
      RemoveAllIs(s.addressBook, s.clients.vals[uuid].addressesOwned);
    }
  }

  /** Nothing removes an entry that names nobody, and nobody is given its UUID. */
  lemma StaleStays(s: State, used: set<string>, e: Event, keepDead: bool, k: string)
    requires Owned(s) && Known(s, used) && Allowed(s, used, e) && Present(s, e) && Stale(s, k)
    ensures Stale(Step(s, e, keepDead).0, k)
  {
    hide Owned, Serve, Depart, RemoveClient;
    match e
    case Issued(uuid, command, id) => ServeStale(s, uuid, command, id, keepDead, k);
    case Refusal(uuid) => DepartStale(s, uuid, keepDead, k);
    case Dismissed(uuid) => DismissStale(s, uuid, k);
    case KeyTaken(key, uuid) => OwnedGives(s, uuid);
    case _ =>
  }

  lemma LiveMeans(s: State)
    ensures Live(s) <==> forall k :: !Stale(s, k)
  {
    if forall k :: !Stale(s, k) {
      forall k | k in s.addressBook.vals
        ensures s.addressBook.vals[k] in s.clients.vals
      {
        assert !Stale(s, k);
      }
    }
  }

  /**
   After any run the book names nobody who has left exactly if every client that
   left owned at most one address: an entry left behind once stays for ever.
   */
  lemma {:induction false} LiveRunIff(s: State, used: set<string>, events: seq<Event>, keepDead: bool)
    requires Owned(s) && Known(s, used) && Live(s)
    requires AllowedRun(s, used, events, keepDead) && PresentRun(s, events, keepDead)
    ensures Live(Run(s, events, keepDead)) <==> TidyRun(s, events, keepDead)
  {
    hide Owned, Known, Allowed, Present, Step, Live, Tidy, Stale, UsedAfter;
    if events != [] {
      var init, e := events[..|events| - 1], events[|events| - 1];
      var mid := Run(s, init, keepDead);
      LiveRunIff(s, used, init, keepDead);
      OwnedInEveryRun(s, used, init, keepDead);
      if Live(mid) {
        StepLiveIff(mid, UsedAfter(used, init), e, keepDead);
      } else {
        LiveMeans(mid);
        var k :| Stale(mid, k);
        StaleStays(mid, UsedAfter(used, init), e, keepDead, k);
        LiveMeans(Run(s, events, keepDead));
      }
    }
  }

  lemma {:induction false} FirstOwnedAmong(keys: seq<string>, book: map<string, string>, uuid: string, k: string)
    requires k in keys && k in book && book[k] == uuid
    ensures FirstOwned(keys, book, uuid).Some?
  {
    if !(keys[0] in book && book[keys[0]] == uuid) {
      FirstOwnedAmong(keys[1..], book, uuid, k);
    }
  }

  lemma FirstOwnedFinds(book: OrderedDict<string, string>, uuid: string)
    ensures FirstOwned(book.keys, book.vals, uuid).None? <==> forall k :: k in book.vals ==> book.vals[k] != uuid
  {
    KeysOf(book);
    if k :| k in book.vals && book.vals[k] == uuid {
      FirstOwnedAmong(book.keys, book.vals, uuid, k);
    }
  }

  /** A client that registers two addresses and says goodbye leaves the book naming nobody. */
  lemma StaleEntryExample(uuid: string, a: bytes, b: bytes, id: bytes)
    requires Decode(a) != Decode(b)
    ensures var s := Run(EMPTY_STATE, [LoggedIn(uuid), Issued(uuid, Register(a), id), Issued(uuid, Register(b), id),
                                       Issued(uuid, Bye, id)], false);
            uuid !in s.clients.vals && exists k :: k in s.addressBook.vals && s.addressBook.vals[k] == uuid
  {
    var e0, e1, e2, e3 := LoggedIn(uuid), Issued(uuid, Register(a), id), Issued(uuid, Register(b), id), Issued(uuid, Bye, id);
    RunSnoc(EMPTY_STATE, [], e0, false);
    RunSnoc(EMPTY_STATE, [e0], e1, false);
    RunSnoc(EMPTY_STATE, [e0, e1], e2, false);
    RunSnoc(EMPTY_STATE, [e0, e1, e2], e3, false);
    assert [e0, e1] + [e2] == [e0, e1, e2] && [e0, e1, e2] + [e3] == [e0, e1, e2, e3];
    var s := Run(EMPTY_STATE, [e0, e1, e2], false);
    assert [] + [e0] == [e0] && [e0] + [e1] == [e0, e1];
    TwoAddressesStay(s, uuid, Decode(a), Decode(b));
  }

  lemma TwoAddressesStay(s: State, uuid: string, a: string, b: string)
    requires a != b && a in s.addressBook.vals && b in s.addressBook.vals
    requires s.addressBook.vals[a] == uuid && s.addressBook.vals[b] == uuid
    ensures uuid !in Depart(s, uuid, false).clients.vals
    ensures exists k :: k in Depart(s, uuid, false).addressBook.vals && Depart(s, uuid, false).addressBook.vals[k] == uuid
  {
    var after := Depart(s, uuid, false).addressBook;
    assert a in after.vals || b in after.vals;
  }
}
