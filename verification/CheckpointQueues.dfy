/** What a checkpoint does to the queues, whether it returns or raises. */
module CheckpointQueues {
  import opened Bytes
  import opened Dicts
  import opened Tables
  import opened Wire
  import opened Commands
  import opened Runs
  import opened History
  import opened Checkpoint

  // ----- One client -----

  /** The fields written before the queue is touched. */
  predicate HeadOk(c: ClientRecord) {
    UuidOk(c.uuid) && AddressesOk(c.addressesOwned) && UUID_LENGTH + |AddressesBytes(c.addressesOwned)| < U32_LIMIT
  }

  predicate InboxOk(inbox: seq<Request>) {
    RequestsOk(inbox) && UUID_LENGTH + |RequestsBytes(inbox)| < U32_LIMIT
  }

  predicate OutboxOk(outbox: OrderedDict<bytes, Response>) {
    ResponsesOk(Responses(outbox)) && UUID_LENGTH + |ResponsesBytes(Responses(outbox))| < U32_LIMIT
  }

  lemma ClientOkParts(c: ClientRecord)
    ensures ClientOk(c) <==> HeadOk(c) && InboxOk(c.inbox) && OutboxOk(c.outbox)
  {
  }

  /** How many requests the `get_nowait` loop takes: up to and including the first it cannot pack. */
  function QueueTaken(inbox: seq<Request>): (n: nat)
    ensures n <= |inbox|
  {
    if inbox == [] then 0 else if !RequestOk(inbox[0]) then 1 else 1 + QueueTaken(inbox[1..])
  }

  /** How many requests a checkpoint takes from a client it reaches. */
  function TakenFrom(c: ClientRecord): (n: nat)
    ensures n <= |c.inbox|
  {
    if HeadOk(c) then QueueTaken(c.inbox) else 0
  }

  /** All of them, if all can be packed. */
  lemma {:induction false} QueueTakenAll(inbox: seq<Request>)
    requires RequestsOk(inbox)
    ensures QueueTaken(inbox) == |inbox|
  {
    if inbox != [] {
      QueueTakenAll(inbox[1..]);
    }
  }

  lemma TakenFromWritable(c: ClientRecord)
    requires ClientOk(c)
    ensures TakenFrom(c) == |c.inbox|
  {
    hide AddressesOk, ResponsesOk, RequestOk;
    QueueTakenAll(c.inbox);
  }

  /** Nothing exactly if the client fails before its queue, or the queue is empty. */
  lemma TakenNoneIff(c: ClientRecord)
    ensures TakenFrom(c) == 0 <==> !HeadOk(c) || c.inbox == []
  {
    hide HeadOk;
  }

  // ----- All clients -----

  /** The tables once the checkpoint has been through the first n clients. */
  function Drained(s: State, n: nat): State
    requires n <= |s.clients.keys|
  {
    if n == 0 then s
    else
      NextKey(s.clients, n - 1);
      var u := s.clients.keys[n - 1];
      TakeOff(Drained(s, n - 1), u, TakenFrom(s.clients.vals[u]))
  }

  /** The first client, from position i, that cannot be written. */
  function FirstBad(clients: OrderedDict<string, ClientRecord>, i: nat): (n: nat)
    requires i <= |clients.keys|
    ensures i <= n <= |clients.keys|
    decreases |clients.keys| - i
  {
    if i == |clients.keys| then i
    else
      NextKey(clients, i);
      if ClientOk(clients.vals[clients.keys[i]]) then FirstBad(clients, i + 1) else i
  }

  /** How many clients a checkpoint reaches, the one it fails on included. */
  function Reached(s: State): (n: nat)
    ensures n <= |s.clients.keys|
  {
    if !DbOk(s.db) || !BookOk(s.addressBook) then 0
    else
      var bad := FirstBad(s.clients, 0);
      if bad < |s.clients.keys| then bad + 1 else bad
  }

  /** The tables a checkpoint leaves, whether it returns or raises. */
  function AfterSave(s: State): State {
    Drained(s, Reached(s))
  }

  lemma DrainedNone(s: State)
    ensures Drained(s, 0) == s
  {
  }

  lemma DrainedStep(s: State, n: nat)
    requires n < |s.clients.keys|
    ensures s.clients.keys[n] in s.clients.vals
    ensures Drained(s, n + 1) == TakeOff(Drained(s, n), s.clients.keys[n], TakenFrom(s.clients.vals[s.clients.keys[n]]))
  {
    NextKey(s.clients, n);
    hide TakenFrom, TakeOff;
  }

  lemma TakeOffKeeps(s: State, u: string, n: nat)
    ensures TakeOff(s, u, n).clients.keys == s.clients.keys
    ensures TakeOff(s, u, n).clients.vals.Keys == s.clients.vals.Keys
    ensures forall v :: v in s.clients.vals && v != u ==> TakeOff(s, u, n).clients.vals[v] == s.clients.vals[v]
    ensures u in s.clients.vals ==> TakeOff(s, u, n).clients.vals[u] == s.clients.vals[u].(inbox := Drop(s.clients.vals[u].inbox, n))
    ensures TakeOff(s, u, n).db == s.db && TakeOff(s, u, n).addressBook == s.addressBook
  {
  }

  /** Exactly: the clients reached have lost what was taken from them, the others nothing. */
  lemma {:induction false} DrainedIs(s: State, n: nat, i: nat)
    requires n <= |s.clients.keys| && i < |s.clients.keys|
    ensures var u := s.clients.keys[i];
            && u in s.clients.vals
            && Drained(s, n).clients.keys == s.clients.keys && Drained(s, n).clients.vals.Keys == s.clients.vals.Keys
            && Drained(s, n).db == s.db && Drained(s, n).addressBook == s.addressBook
            && Drained(s, n).clients.vals[u] ==
               (if i < n then s.clients.vals[u].(inbox := Drop(s.clients.vals[u].inbox, TakenFrom(s.clients.vals[u])))
                else s.clients.vals[u])
  {
    hide TakenFrom, TakeOff, Drained, Enumerates;
    KeysOf(s.clients);
    if n == 0 {
      DrainedNone(s);
    } else {
      DrainedIs(s, n - 1, i);
      DrainedIs(s, n - 1, n - 1);
      TakeOffKeeps(Drained(s, n - 1), s.clients.keys[n - 1], TakenFrom(s.clients.vals[s.clients.keys[n - 1]]));
      DrainedStep(s, n - 1);
    }
  }

  lemma {:induction false} DrainedUntouched(s: State, n: nat)
    requires n <= |s.clients.keys|
    requires forall i :: 0 <= i < n ==> s.clients.keys[i] in s.clients.vals && TakenFrom(s.clients.vals[s.clients.keys[i]]) == 0
    ensures Drained(s, n) == s
  {
    if n > 0 {
      DrainedUntouched(s, n - 1);
      DrainedStep(s, n - 1);
      var u := s.clients.keys[n - 1];
      TakeNone(s, u);
    }
  }

  lemma TakeNone(s: State, u: string)
    ensures TakeOff(s, u, 0) == s
  {
    if u in s.clients.vals {
      assert s.clients.vals[u := s.clients.vals[u]] == s.clients.vals;
    }
  }

  /** Every client before the first bad one can be written, that one cannot. */
  lemma {:induction false} FirstBadMeans(clients: OrderedDict<string, ClientRecord>, i: nat, j: nat)
    requires i <= j < |clients.keys|
    ensures clients.keys[j] in clients.vals
    ensures j < FirstBad(clients, i) ==> ClientOk(clients.vals[clients.keys[j]])
    ensures j == FirstBad(clients, i) ==> !ClientOk(clients.vals[clients.keys[j]])
    decreases |clients.keys| - i
  {
    KeysOf(clients);
    hide ClientOk;
    if i < j && ClientOk(clients.vals[clients.keys[i]]) {
      FirstBadMeans(clients, i + 1, j);
    }
  }

  lemma FirstBadStep(clients: OrderedDict<string, ClientRecord>, i: nat)
    requires i < |clients.keys|
    ensures clients.keys[i] in clients.vals
    ensures FirstBad(clients, i) == if ClientOk(clients.vals[clients.keys[i]]) then FirstBad(clients, i + 1) else i
  {
    KeysOf(clients);
  }

  lemma {:induction false} FirstBadNone(clients: OrderedDict<string, ClientRecord>, i: nat)
    requires i <= |clients.keys|
    requires forall j :: 0 <= j < i ==> clients.keys[j] in clients.vals && ClientOk(clients.vals[clients.keys[j]])
    ensures ClientsOk(clients) <==> FirstBad(clients, i) == |clients.keys|
    decreases |clients.keys| - i
  {
    hide ClientOk;
    KeysOf(clients);
    if i < |clients.keys| && ClientOk(clients.vals[clients.keys[i]]) {
      FirstBadNone(clients, i + 1);
    }
  }

  lemma SaveFailsEarly(s: State)
    requires !DbOk(s.db) || !BookOk(s.addressBook)
    ensures AfterSave(s) == s && !Serialisable(s)
  {
    hide DbOk, BookOk, ClientsOk, TablesFit;
  }

  lemma SaveFailsOnClient(s: State)
    requires DbOk(s.db) && BookOk(s.addressBook) && FirstBad(s.clients, 0) < |s.clients.keys|
    ensures AfterSave(s) == Drained(s, FirstBad(s.clients, 0) + 1)
  {
    hide DbOk, BookOk, FirstBad, Drained;
  }

  lemma SaveReachesAll(s: State)
    requires DbOk(s.db) && BookOk(s.addressBook) && FirstBad(s.clients, 0) == |s.clients.keys|
    ensures AfterSave(s) == Drained(s, |s.clients.keys|)
  {
    hide DbOk, BookOk, FirstBad, Drained;
  }

  /** A checkpoint that returns has emptied every inbox, and changed nothing else. */
  lemma SavedInboxesEmpty(s: State, u: string)
    requires Serialisable(s) && u in s.clients.vals
    ensures u in AfterSave(s).clients.vals && AfterSave(s).clients.vals[u] == s.clients.vals[u].(inbox := [])
    ensures AfterSave(s).db == s.db && AfterSave(s).addressBook == s.addressBook && AfterSave(s).clients.keys == s.clients.keys
  {
    hide TablesFit, StateFields, ClientOk, DbOk, BookOk, TakenFrom, Drained, FirstBad;
    FirstBadNone(s.clients, 0);
    SaveReachesAll(s);
    KeysOf(s.clients);
    var i :| 0 <= i < |s.clients.keys| && s.clients.keys[i] == u;
    DrainedIs(s, |s.clients.keys|, i);
    TakenFromWritable(s.clients.vals[u]);
  }

  /** Where a client's queue is kept: the clients not reached, and those nothing is taken from. */
  predicate Harmless(s: State, i: nat)
    requires i < |s.clients.keys|
  {
    NextKey(s.clients, i);
    var c := s.clients.vals[s.clients.keys[i]];
    if i < FirstBad(s.clients, 0) then c.inbox == [] else !HeadOk(c) || c.inbox == []
  }

  /**
   A checkpoint leaves the tables as they were exactly if the queues of the clients before
   the one it fails on are empty, and that one fails before its queue or has none.
   */
  lemma SaveLosesNothingIff(s: State)
    ensures AfterSave(s) == s <==> forall i :: 0 <= i < Reached(s) ==> Harmless(s, i)
  {
    hide HeadOk, ClientOk, DbOk, BookOk, TakenFrom;
    var n := Reached(s);
    forall i | 0 <= i < n
      ensures s.clients.keys[i] in s.clients.vals
      ensures Harmless(s, i) <==> TakenFrom(s.clients.vals[s.clients.keys[i]]) == 0
    {
      FirstBadMeans(s.clients, 0, i);
      var c := s.clients.vals[s.clients.keys[i]];
      TakenNoneIff(c);
      if i < FirstBad(s.clients, 0) {
        TakenFromWritable(c);
      }
    }
    if forall i :: 0 <= i < n ==> Harmless(s, i) {
      DrainedUntouched(s, n);
    } else {
      var i :| 0 <= i < n && !Harmless(s, i);
      DrainedIs(s, n, i);
      var c := s.clients.vals[s.clients.keys[i]];
      assert |Drop(c.inbox, TakenFrom(c))| < |c.inbox|;
    }
  }

  // ----- The same as events of a run -----

  /** One drain for each client reached. */
  function SaveEvents(s: State, n: nat): seq<Event>
    requires n <= |s.clients.keys|
  {
    if n == 0 then []
    else
      NextKey(s.clients, n - 1);
      var u := s.clients.keys[n - 1];
      SaveEvents(s, n - 1) + [Drain(u, TakenFrom(s.clients.vals[u]))]
  }

  lemma {:induction false} SaveIsARun(s: State, n: nat, keepDead: bool)
    requires n <= |s.clients.keys|
    ensures Run(s, SaveEvents(s, n), keepDead) == Drained(s, n)
  {
    hide TakenFrom, TakeOff;
    if n > 0 {
      SaveIsARun(s, n - 1, keepDead);
      SaveEventsStep(s, n - 1);
      DrainedStep(s, n - 1);
      hide Run, SaveEvents, Drained;
      var u := s.clients.keys[n - 1];
      RunSnoc(s, SaveEvents(s, n - 1), Drain(u, TakenFrom(s.clients.vals[u])), keepDead);
    }
  }

  lemma DrainTakes(s: State, n: nat, i: nat)
    requires n < |s.clients.keys| && i < |s.clients.keys|
    ensures s.clients.keys[n] in s.clients.vals && s.clients.keys[i] in s.clients.vals
    ensures var u, v := s.clients.keys[n], s.clients.keys[i];
            Taken(Drained(s, n), Drain(u, TakenFrom(s.clients.vals[u])), v) ==
            if i == n then Take(Inbox(s, v), TakenFrom(s.clients.vals[v])) else []
  {
    KeysOf(s.clients);
    hide TakenFrom, Drained;
    DrainedIs(s, n, n);
  }

  lemma AllTakenSnoc(s: State, events: seq<Event>, e: Event, keepDead: bool, uuid: string)
    ensures AllTaken(s, events + [e], keepDead, uuid) == AllTaken(s, events, keepDead, uuid) + Taken(Run(s, events, keepDead), e, uuid)
  {
    hide Run, Taken;
    assert (events + [e])[..|events|] == events;
  }

  lemma SaveEventsStep(s: State, n: nat)
    requires n < |s.clients.keys|
    ensures s.clients.keys[n] in s.clients.vals
    ensures SaveEvents(s, n + 1) == SaveEvents(s, n) + [Drain(s.clients.keys[n], TakenFrom(s.clients.vals[s.clients.keys[n]]))]
  {
    NextKey(s.clients, n);
    hide TakenFrom;
  }

  lemma NothingTakenYet(s: State, i: nat, keepDead: bool)
    requires i < |s.clients.keys|
    ensures s.clients.keys[i] in s.clients.vals && AllTaken(s, SaveEvents(s, 0), keepDead, s.clients.keys[i]) == []
  {
    NextKey(s.clients, i);
  }

  /** What those events take from a client is what `TakenFrom` counts; on a writable one, its whole queue. */
  lemma {:induction false} SaveTakes(s: State, n: nat, i: nat, keepDead: bool)
    requires n <= |s.clients.keys| && i < |s.clients.keys|
    ensures var u := s.clients.keys[i];
            && u in s.clients.vals
            && AllTaken(s, SaveEvents(s, n), keepDead, u) ==
               (if i < n then Take(Inbox(s, u), TakenFrom(s.clients.vals[u])) else [])
  {
    hide *;
    if n == 0 {
      NothingTakenYet(s, i, keepDead);
    } else {
      SaveTakes(s, n - 1, i, keepDead);
      SaveIsARun(s, n - 1, keepDead);
      SaveEventsStep(s, n - 1);
      DrainTakes(s, n - 1, i);
      AllTakenSnoc(s, SaveEvents(s, n - 1), Drain(s.clients.keys[n - 1], TakenFrom(s.clients.vals[s.clients.keys[n - 1]])),
                   keepDead, s.clients.keys[i]);
    }
  }

  // ----- A checkpoint that raises and loses a request -----

  /**
   A queues a request for itself, an administrator adds B with an address that is not
   Latin-1: the checkpoint raises on B, and A's request is gone.
   */
  lemma RaisingSaveLosesRequest(a: string, b: string, request: bytes, key: bytes, id: bytes, keepDead: bool)
    requires UuidOk(a) && UuidOk(b) && a != b
    requires Fit([Encode(a), request, key]) && Fit([Encode(a), request, key, id])
    requires UUID_LENGTH + 16 + UUID_LENGTH + |key| + |request| + |id| < U32_LIMIT
    ensures var ticket := ClientRecord(b, ["\U{0394}"], [], NO_RESPONSES);
            var s := Run(EMPTY_STATE, [LoggedIn(a), Issued(a, PutInbox(Encode(a), request, key), id), Admitted(ticket)], keepDead);
            && !Serialisable(s)
            && Inbox(s, a) == [Request(Encode(a), key, request, id)]
            && Inbox(AfterSave(s), a) == []
  {
    var ticket := ClientRecord(b, ["\U{0394}"], [], NO_RESPONSES);
    var e0, e1, e2 := LoggedIn(a), Issued(a, PutInbox(Encode(a), request, key), id), Admitted(ticket);
    var r := Request(Encode(a), key, request, id);
    DecodeEncode(a);
    RunSnoc(EMPTY_STATE, [], e0, keepDead);
    assert [] + [e0] == [e0];
    RunSnoc(EMPTY_STATE, [e0], e1, keepDead);
    assert [e0] + [e1] == [e0, e1];
    RunSnoc(EMPTY_STATE, [e0, e1], e2, keepDead);
    assert [e0, e1] + [e2] == [e0, e1, e2];
    var s := Run(EMPTY_STATE, [e0, e1, e2], keepDead);
    assert s.clients.keys == [a, b] && s.clients.vals[a] == NewClient(a).(inbox := [r]) && s.clients.vals[b] == ticket;
    TwoClientsLose(s, a, b, r);
  }

  lemma TwoClientsLose(s: State, a: string, b: string, r: Request)
    requires s.db == Dict([], map[]) && s.addressBook == Dict([], map[]) && s.clients.keys == [a, b]
    requires a in s.clients.vals && s.clients.vals[a] == NewClient(a).(inbox := [r]) && UuidOk(a)
    requires b in s.clients.vals && s.clients.vals[b].addressesOwned == ["\U{0394}"]
    requires RequestOk(r) && UUID_LENGTH + |RequestBytes(r)| < U32_LIMIT
    ensures !Serialisable(s) && Inbox(AfterSave(s), a) == []
  {
    OneRequestOk(a, r);
    assert "\U{0394}"[0] as int == 0x394 && !Latin1("\U{0394}");
    assert !ClientOk(s.clients.vals[b]);
    assert FirstBad(s.clients, 1) == 1;
    assert FirstBad(s.clients, 0) == 1;
    assert Reached(s) == 2;
    hide ClientOk, TakenFrom;
    DrainedIs(s, 2, 0);
    TakenFromWritable(s.clients.vals[a]);
  }

  lemma OneRequestOk(a: string, r: Request)
    requires UuidOk(a) && RequestOk(r) && UUID_LENGTH + |RequestBytes(r)| < U32_LIMIT
    ensures ClientOk(NewClient(a).(inbox := [r]))
  {
    assert RequestsBytes([r]) == RequestBytes(r) + RequestsBytes([]);
    assert Responses(NO_RESPONSES) == [];
  }
}
