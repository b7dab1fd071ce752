/** Checkpoints that had to wait: two that raise, one that returns tables that never were. */
module CheckpointWaits {
  import opened Wrappers
  import opened Bytes
  import opened Dicts
  import opened Tables
  import opened Wire
  import opened Commands
  import opened Runs
  import opened Interleaving
  import opened Queueing
  import opened Ownership
  import opened Checkpoint
  import opened CheckpointProofs
  import opened CheckpointQueues
  import opened CheckpointMoves
  import opened CheckpointExact

  // ----- Single actions -----

  lemma TwoActions(y: System, a: Action, b: Action, keepDead: bool)
    requires CanDo(y, a) && CanDo(Do(y, a, keepDead), b)
    ensures Actions(y, [a, b], Do(Do(y, a, keepDead), b, keepDead), keepDead)
  {
    hide CanDo, Do;
    ActionsOne(y, a, keepDead);
    ActionsSnoc(y, [a], Do(y, a, keepDead), b, keepDead);
    assert [a] + [b] == [a, b];
  }

  lemma ThreeActions(y: System, a: Action, b: Action, c: Action, keepDead: bool)
    requires CanDo(y, a) && CanDo(Do(y, a, keepDead), b) && CanDo(Do(Do(y, a, keepDead), b, keepDead), c)
    ensures Actions(y, [a, b, c], Do(Do(Do(y, a, keepDead), b, keepDead), c, keepDead), keepDead)
  {
    hide CanDo, Do;
    var y2 := Do(Do(y, a, keepDead), b, keepDead);
    TwoActions(y, a, b, keepDead);
    ActionsSnoc(y, [a, b], y2, c, keepDead);
    assert [a, b] + [c] == [a, b, c];
  }

  lemma LoggingIn(y: System, a: string, keepDead: bool)
    requires a !in y.net.handlers && a !in y.net.tables.clients.vals && y.net.line == []
    ensures CanDo(y, NetMove(Connect(a)))
    ensures Do(y, NetMove(Connect(a)), keepDead) ==
              System(Net(Login(y.net.tables, a), y.net.handlers[a := Handler(Idle, 2, 2, [], |y.net.history| + 1)],
                         y.net.history + [LoggedIn(a)], []), y.saving)
  {
  }

  /** A client whose GET_OUTBOX is being answered. */
  lemma AskingOutbox(y: System, a: string, x: bytes, id: bytes, keepDead: bool)
    requires a in y.net.handlers && y.net.handlers[a].phase.Idle? && y.net.line == []
    requires a in y.net.tables.clients.vals && x !in y.net.tables.clients.vals[a].outbox.vals
    ensures CanDo(y, NetMove(Arrive(a, GetOutbox(x), id)))
    ensures var y1 := Do(y, NetMove(Arrive(a, GetOutbox(x), id)), keepDead);
            && y1.saving == y.saving && y1.net.tables == y.net.tables && y1.net.line == []
            && Held(y1.net, Outbox(a)) && y1.net.handlers == y.net.handlers[a := y1.net.handlers[a]]
  {
  }

  /** The answer goes out. */
  lemma OutboxAnswered(y: System, a: string, keepDead: bool)
    requires Held(y.net, Outbox(a)) && a in y.net.tables.clients.vals && forall p :: p in y.net.line ==> p.who != Some(a)
    ensures CanDo(y, NetMove(Sent(a)))
    ensures var y1 := Do(y, NetMove(Sent(a)), keepDead);
            && y1.saving == y.saving && y1.net.tables == y.net.tables && y1.net.line == y.net.line
            && a in y1.net.handlers && y1.net.handlers[a].phase.Idle?
            && y1.net.handlers == y.net.handlers[a := y1.net.handlers[a]]
  {
    WithoutAbsent(y.net.line, Some(a));
    assert y.net.line + [] == y.net.line;
  }

  lemma Starts(y: System, keepDead: bool)
    requires y.saving.Unsaved?
    ensures CanDo(y, SaveStart) && Do(y, SaveStart, keepDead) == Begin(y.net)
  {
  }

  lemma Resumes(y: System, keepDead: bool)
    requires y.saving.Suspended? && y.saving.at < |y.saving.keys|
    requires !Held(y.net, Outbox(y.saving.keys[y.saving.at])) && y.net.line == [SavePlace(y.saving.keys[y.saving.at])]
    ensures CanDo(y, SaveResume)
    ensures Do(y, SaveResume, keepDead) == Proceed(y.net, y.saving.keys, y.saving.at, y.saving.image, y.saving.head)
  {
    assert y.net.line[0] == SavePlace(y.saving.keys[y.saving.at]);
  }

  // ----- Small tables -----

  lemma NewClientOk(a: string)
    requires UuidOk(a)
    ensures ClientOk(NewClient(a)) && HeadOk(NewClient(a)) && InboxOk([]) && OutboxOk(NO_RESPONSES)
    ensures ResponsesBytes(Responses(NO_RESPONSES)) == []
  {
    assert Responses(NO_RESPONSES) == [];
  }

  lemma {:induction false} JoinBound(parts: seq<bytes>, bound: nat)
    requires forall i :: 0 <= i < |parts| ==> |parts[i]| <= bound
    ensures |Join(parts)| <= bound * |parts|
  {
    if parts != [] {
      JoinBound(parts[1..], bound);
    }
  }

  lemma FewFieldsFit(fs: seq<Field>, bound: nat)
    requires |fs| <= 8 && 8 * bound < U32_LIMIT && forall i :: 0 <= i < |fs| ==> |fs[i].value| <= bound
    ensures TablesFit(fs)
  {
    JoinBound(Values(fs), bound);
  }

  /** Its four fields are no longer than this. */
  ghost predicate Bounded(c: ClientRecord, bound: nat) {
    ClientOk(c) && |ClientFields(c)| == 4 && forall f :: f in ClientFields(c) ==> |f.value| <= bound
  }

  lemma NewClientFields(a: string)
    requires UuidOk(a)
    ensures Bounded(NewClient(a), UUID_LENGTH)
  {
    NewClientOk(a);
  }

  lemma OneAddressOk(c: string, address: string)
    requires UuidOk(c) && Latin1(address) && UUID_LENGTH + 4 + |address| < U32_LIMIT
    ensures Bounded(NewClient(c).(addressesOwned := [address]), UUID_LENGTH + 4 + |address|)
  {
    NewClientOk(c);
    assert AddressesBytes([address]) == Chunk(Encode(address)) + AddressesBytes([]);
  }

  lemma OneClientSerialisable(s: State, a: string)
    requires UuidOk(a) && s == Login(EMPTY_STATE, a)
    ensures Serialisable(s)
  {
    hide ClientFields, ClientOk, Encode, Latin1, TablesFit;
    assert s.clients.keys == [a];
    NewClientFields(a);
    ClientsFieldsStep([], s.clients, 1);
    NoClientFields([], s.clients);
    FewFieldsFit(StateFields(s), UUID_LENGTH);
  }

  lemma TwoClientsFields(clients: OrderedDict<string, ClientRecord>, a: string, c: string)
    requires ClientsOk(clients) && clients.keys == [a, c]
    ensures a in clients.vals && c in clients.vals && ClientOk(clients.vals[a]) && ClientOk(clients.vals[c])
    ensures ClientsFields(clients, 2) == ClientFields(clients.vals[a]) + ClientFields(clients.vals[c])
  {
    hide *;
    ClientsFieldsStep([], clients, 1);
    ClientsFieldsStep([], clients, 2);
    NoClientFields([], clients);
    assert [] + ClientsFields(clients, 2) == ClientsFields(clients, 2);
    assert [] + ClientsFields(clients, 0) + ClientFields(clients.vals[a]) == ClientFields(clients.vals[a]);
  }

  lemma TwoClientsSerialisable(s: State, a: string, c: string, bound: nat)
    requires s.db == Dict([], map[]) && s.addressBook == Dict([], map[]) && s.clients.keys == [a, c]
    requires a in s.clients.vals && c in s.clients.vals && s.clients.vals.Keys == {a, c}
    requires Bounded(s.clients.vals[a], bound) && Bounded(s.clients.vals[c], bound) && 8 * bound < U32_LIMIT
    ensures Serialisable(s)
  {
    hide ClientFields, ClientsFields, ClientOk, TablesFit;
    TwoClientsFields(s.clients, a, c);
    FewFieldsFit(StateFields(s), bound);
  }

  // ----- A login while the checkpoint waits -----

  /**
   A client's GET_OUTBOX is being answered when the checkpoint begins, and another
   client logs in before the answer has gone out: the checkpoint raises.
   */
  lemma FailingSave(a: string, v: string, x: bytes, id: bytes, keepDead: bool)
    requires UuidOk(a) && a != v
    ensures exists rest, end ::
              && Actions(FRESH_SYSTEM, [NetMove(Connect(a)), NetMove(Arrive(a, GetOutbox(x), id)), SaveStart, NetMove(Connect(v))] + rest,
                         end, keepDead)
              && end.saving == Raised
  {
    hide CanDo, Do, Actions, Held, Halfway, Serialisable, SystemLine;
    LoggingIn(FRESH_SYSTEM, a, keepDead);
    var y1 := Do(FRESH_SYSTEM, NetMove(Connect(a)), keepDead);
    AskingOutbox(y1, a, x, id, keepDead);
    var y2 := Do(y1, NetMove(Arrive(a, GetOutbox(x), id)), keepDead);
    OneClientSerialisable(y2.net.tables, a);
    TwoActions(FRESH_SYSTEM, NetMove(Connect(a)), NetMove(Arrive(a, GetOutbox(x), id)), keepDead);
    FreshLine(EMPTY_STATE);
    LineInEverySystem(FRESH_SYSTEM, [NetMove(Connect(a)), NetMove(Arrive(a, GetOutbox(x), id))], y2, keepDead);
    SaveRaises(y2, a, v, keepDead);
    var rest, end :| Actions(y2, [SaveStart, NetMove(Connect(v))] + rest, end, keepDead) && end.saving == Raised;
    var first := [NetMove(Connect(a)), NetMove(Arrive(a, GetOutbox(x), id))];
    ActionsAppend(FRESH_SYSTEM, first, y2, [SaveStart, NetMove(Connect(v))] + rest, end, keepDead);
    assert first + ([SaveStart, NetMove(Connect(v))] + rest) == first + [SaveStart, NetMove(Connect(v))] + rest;
    assert first + [SaveStart, NetMove(Connect(v))] ==
           [NetMove(Connect(a)), NetMove(Arrive(a, GetOutbox(x), id)), SaveStart, NetMove(Connect(v))];
  }

  /** Begun while an outbox is busy, it raises if somebody logs in at once. */
  lemma SaveRaises(y: System, a: string, v: string, keepDead: bool)
    requires y.saving.Unsaved? && SystemLine(y) && Serialisable(y.net.tables)
    requires a in y.net.tables.clients.vals && Busy(y.net, Outbox(a))
    requires v !in y.net.handlers && v !in y.net.tables.clients.vals
    ensures exists rest, end :: Actions(y, [SaveStart, NetMove(Connect(v))] + rest, end, keepDead) && end.saving == Raised
  {
    hide CanDo, Do, Actions, Busy, Halfway, Serialisable, LineOk, NoSave, Begin;
    BeginsToWait(y.net);
    BeginsInLine(y.net);
    Starts(y, keepDead);
    var y1 := Begin(y.net);
    RaisesAfterLogin(y1, y.net.tables.clients.keys, v, keepDead);
    var rest, end :| Actions(y1, [NetMove(Connect(v))] + rest, end, keepDead) && end.saving == Raised;
    ActionsOne(y, SaveStart, keepDead);
    ActionsAppend(y, [SaveStart], y1, [NetMove(Connect(v))] + rest, end, keepDead);
    assert [SaveStart] + ([NetMove(Connect(v))] + rest) == [SaveStart, NetMove(Connect(v))] + rest;
  }

  // ----- The same while no lock is held at all -----

  /** A PUT_OUTBOX that finds the lock held queues for it. */
  lemma JoiningLine(y: System, a: string, p: string, command: Command, id: bytes, keepDead: bool)
    requires Held(y.net, Outbox(a)) && a in y.net.tables.clients.vals && y.net.line == []
    requires p in y.net.handlers && y.net.handlers[p].phase.Idle? && p in y.net.tables.clients.vals && p != a
    requires command.PutOutbox? && Decode(command.target) == a
    ensures CanDo(y, NetMove(Arrive(p, command, id)))
    ensures var y1 := Do(y, NetMove(Arrive(p, command, id)), keepDead);
            && y1.saving == y.saving && y1.net.tables == y.net.tables && y1.net.line == [Place(Some(p), Outbox(a))]
            && Held(y1.net, Outbox(a)) && y1.net.handlers == y.net.handlers[p := y1.net.handlers[p]]
            && p in y1.net.handlers && y1.net.handlers[p].phase.Waiting?
  {
  }

  /**
   A response is queued for the outbox lock, which has just been released: no lock is
   held by anybody when the checkpoint begins, and yet it has to queue, and can raise.
   */
  lemma QueuedSave(a: string, p: string, v: string, command: Command, x: bytes, id: bytes, keepDead: bool)
    requires UuidOk(a) && UuidOk(p) && a != p && v != a && v != p
    requires command.PutOutbox? && Decode(command.target) == a
    ensures var first := [NetMove(Connect(a)), NetMove(Connect(p)), NetMove(Arrive(a, GetOutbox(x), id)),
                          NetMove(Arrive(p, command, id)), NetMove(Sent(a))];
            exists y ::
              && Actions(FRESH_SYSTEM, first, y, keepDead) && y.saving.Unsaved? && Serialisable(y.net.tables)
              && (forall u :: !Held(y.net, Outbox(u)))
              && exists rest, end :: Actions(y, [SaveStart, NetMove(Connect(v))] + rest, end, keepDead) && end.saving == Raised
  {
    hide CanDo, Do, Actions, Held, Serialisable, SystemLine, Login, Decode;
    var m0, m1, m2 := NetMove(Connect(a)), NetMove(Connect(p)), NetMove(Arrive(a, GetOutbox(x), id));
    var m3, m4 := NetMove(Arrive(p, command, id)), NetMove(Sent(a));
    TwoLogins(a, p, keepDead);
    var y2 := Do(Do(FRESH_SYSTEM, m0, keepDead), m1, keepDead);
    AskingOutbox(y2, a, x, id, keepDead);
    var y3 := Do(y2, m2, keepDead);
    JoiningLine(y3, a, p, command, id, keepDead);
    var y4 := Do(y3, m3, keepDead);
    OutboxAnswered(y4, a, keepDead);
    var y := Do(y4, m4, keepDead);
    ThreeActions(FRESH_SYSTEM, m0, m1, m2, keepDead);
    TwoActions(y3, m3, m4, keepDead);
    ActionsAppend(FRESH_SYSTEM, [m0, m1, m2], y3, [m3, m4], y, keepDead);
    assert [m0, m1, m2] + [m3, m4] == [m0, m1, m2, m3, m4];
    NobodyHolds(y, a, p);
    FreshLine(EMPTY_STATE);
    LineInEverySystem(FRESH_SYSTEM, [m0, m1, m2, m3, m4], y, keepDead);
    assert Busy(y.net, Outbox(a)) by {
      assert y.net.line[0].what == Outbox(a);
    }
    SaveRaises(y, a, v, keepDead);
  }

  lemma TwoLogins(a: string, p: string, keepDead: bool)
    requires UuidOk(a) && UuidOk(p) && a != p
    ensures var m0, m1 := NetMove(Connect(a)), NetMove(Connect(p));
            && CanDo(FRESH_SYSTEM, m0) && CanDo(Do(FRESH_SYSTEM, m0, keepDead), m1)
            && var y := Do(Do(FRESH_SYSTEM, m0, keepDead), m1, keepDead);
               && y.saving.Unsaved? && y.net.line == [] && y.net.tables == Login(Login(EMPTY_STATE, a), p)
               && y.net.handlers.Keys == {a, p} && y.net.handlers[a].phase.Idle? && y.net.handlers[p].phase.Idle?
               && y.net.tables.clients.keys == [a, p] && y.net.tables.clients.vals == map[a := NewClient(a), p := NewClient(p)]
               && Serialisable(y.net.tables)
  {
    hide CanDo, Do, Serialisable, UuidOk, Bounded;
    LoggingIn(FRESH_SYSTEM, a, keepDead);
    LoggingIn(Do(FRESH_SYSTEM, NetMove(Connect(a)), keepDead), p, keepDead);
    NewClientFields(a);
    NewClientFields(p);
    TwoClientsSerialisable(Login(Login(EMPTY_STATE, a), p), a, p, UUID_LENGTH);
  }

  lemma NobodyHolds(y: System, a: string, p: string)
    requires y.net.handlers.Keys == {a, p} && y.net.handlers[a].phase.Idle? && y.net.handlers[p].phase.Waiting?
    ensures forall u :: !Held(y.net, Outbox(u))
  {
  }

  // ----- A checkpoint of tables that never were -----

  /** Two clients of which the second lists an address, under an empty book. */
  function MixedTables(a: string, c: string, address: string): State {
    EMPTY_STATE.(clients := Put(Put(NO_CLIENTS, a, NewClient(a)), c, NewClient(c).(addressesOwned := [address])))
  }

  lemma MixedOk(a: string, c: string, address: string)
    requires UuidOk(a) && UuidOk(c) && a != c && Latin1(address) && 8 * (UUID_LENGTH + 4 + |address|) < U32_LIMIT
    ensures Serialisable(MixedTables(a, c, address)) && Consistent(MixedTables(a, c, address))
    ensures ClientOk(NewClient(c).(addressesOwned := [address]))
  {
    hide ClientOk, Serialisable, UuidOk, Latin1, Bounded;
    NewClientFields(a);
    OneAddressOk(c, address);
    BoundedOk(NewClient(c).(addressesOwned := [address]), UUID_LENGTH + 4 + |address|);
    BoundedMore(NewClient(a), UUID_LENGTH, UUID_LENGTH + 4 + |address|);
    TwoClientsSerialisable(MixedTables(a, c, address), a, c, UUID_LENGTH + 4 + |address|);
  }

  lemma BoundedOk(c: ClientRecord, bound: nat)
    requires Bounded(c, bound)
    ensures ClientOk(c)
  {
  }

  lemma BoundedMore(c: ClientRecord, small: nat, large: nat)
    requires Bounded(c, small) && small <= large
    ensures Bounded(c, large)
  {
  }

  lemma BeginTwo(n: Net, a: string, c: string)
    requires n.tables == Login(Login(EMPTY_STATE, a), c) && a != c && UuidOk(a) && Held(n, Outbox(a)) && n.line == []
    ensures Begin(n) == System(n.(history := n.history + [Drain(a, 0)], line := [SavePlace(a)]),
                               Suspended([a, c], 0, EMPTY_STATE, NewClient(a)))
  {
    hide HeadOk, InboxOk, OutboxOk, Latin1, TakeOff, TakenFrom;
    NewClientOk(a);
    TakeNone(n.tables, a);
    TakenNoneIff(NewClient(a));
    assert n.tables.clients.keys == [a, c] && n.tables.clients.vals[a] == NewClient(a);
  }

  lemma Registering(y: System, c: string, address: string, id: bytes, keepDead: bool)
    requires c in y.net.handlers && y.net.handlers[c].phase.Idle? && Latin1(address)
    requires c in y.net.tables.clients.vals && address !in y.net.tables.addressBook.vals
    requires forall p :: p in y.net.line ==> p.who != Some(c)
    ensures CanDo(y, NetMove(Arrive(c, Register(Encode(address)), id)))
    ensures var y1 := Do(y, NetMove(Arrive(c, Register(Encode(address)), id)), keepDead);
            && y1.saving == y.saving && y1.net.tables == DoRegister(y.net.tables, c, address).0 && y1.net.line == y.net.line
            && c in y1.net.handlers && !Held(y1.net, Outbox(c)) && y1.net.handlers == y.net.handlers[c := y1.net.handlers[c]]
  {
    DecodeEncode(address);
    WithoutAbsent(y.net.line, Some(c));
    assert y.net.line + [] == y.net.line;
  }

  lemma ProceedTwo(n: Net, a: string, c: string, address: string)
    requires UuidOk(a) && UuidOk(c) && a != c && Latin1(address) && 8 * (UUID_LENGTH + 4 + |address|) < U32_LIMIT
    requires n.tables.clients == MixedTables(a, c, address).clients && !Held(n, Outbox(c)) && n.line == [SavePlace(a)]
    ensures Proceed(n, [a, c], 0, EMPTY_STATE, NewClient(a)).saving == Saved(MixedTables(a, c, address))
  {
    hide OutboxOk, UuidOk, Latin1, TakeOff, TakenFrom, Visit, ClientOk, Serialisable;
    var r := NewClient(c).(addressesOwned := [address]);
    var m := n.(line := []);
    NewClientOk(a);
    MixedOk(a, c, address);
    assert Without(n.line, None) == [] + Without([], None);
    assert n.tables.clients.keys == [a, c] && n.tables.clients.vals[a] == NewClient(a) && n.tables.clients.vals[c] == r;
    VisitFree(m, [a, c], 1, Written(EMPTY_STATE, a, NewClient(a)));
    TakeOffKeeps(m.tables, c, TakenFrom(r));
    VisitEnds(Draining(m, c, TakenFrom(r)), [a, c], MixedTables(a, c, address));
  }

  lemma VisitEnds(n: Net, keys: seq<string>, image: State)
    requires n.tables.clients.keys == keys && Serialisable(image)
    ensures Visit(n, keys, |keys|, image).1 == Saved(image)
  {
    hide Serialisable;
  }

  lemma RegisterAndResume(y: System, a: string, c: string, address: string, id: bytes, keepDead: bool)
    requires UuidOk(a) && UuidOk(c) && a != c && Latin1(address) && 8 * (UUID_LENGTH + 4 + |address|) < U32_LIMIT
    requires y.saving == Suspended([a, c], 0, EMPTY_STATE, NewClient(a)) && y.net.line == [SavePlace(a)]
    requires y.net.tables == Login(Login(EMPTY_STATE, a), c) && Held(y.net, Outbox(a))
    requires c in y.net.handlers && y.net.handlers[c].phase.Idle?
    ensures var m4, m5 := NetMove(Arrive(c, Register(Encode(address)), id)), NetMove(Sent(a));
            && CanDo(y, m4) && CanDo(Do(y, m4, keepDead), m5) && CanDo(Do(Do(y, m4, keepDead), m5, keepDead), SaveResume)
            && var y7 := Do(Do(Do(y, m4, keepDead), m5, keepDead), SaveResume, keepDead);
               Actions(y, [m4, m5, SaveResume], y7, keepDead) && y7.saving == Saved(MixedTables(a, c, address))
  {
    hide CanDo, Do, Actions, Proceed, Latin1, UuidOk;
    var m4, m5 := NetMove(Arrive(c, Register(Encode(address)), id)), NetMove(Sent(a));
    Registering(y, c, address, id, keepDead);
    var y5 := Do(y, m4, keepDead);
    OutboxAnswered(y5, a, keepDead);
    var y6 := Do(y5, m5, keepDead);
    MixedTablesReached(y5.net.tables, a, c, address);
    ProceedTwo(y6.net, a, c, address);
    Resumes(y6, keepDead);
    ThreeActions(y, m4, m5, SaveResume, keepDead);
  }

  lemma MixedTablesReached(s: State, a: string, c: string, address: string)
    requires a != c && s == DoRegister(Login(Login(EMPTY_STATE, a), c), c, address).0
    ensures s.clients == MixedTables(a, c, address).clients
  {
    assert [] + [address] == [address];
    assert s.clients.vals == MixedTables(a, c, address).clients.vals;
  }

  /** The second client registers while the checkpoint waits for the outbox of the first. */
  lemma MixedRun(a: string, c: string, address: string, x: bytes, id: bytes, keepDead: bool)
    requires UuidOk(a) && UuidOk(c) && a != c && Latin1(address) && 8 * (UUID_LENGTH + 4 + |address|) < U32_LIMIT
    ensures exists end ::
              && Actions(FRESH_SYSTEM, [NetMove(Connect(a)), NetMove(Connect(c)), NetMove(Arrive(a, GetOutbox(x), id)), SaveStart,
                                        NetMove(Arrive(c, Register(Encode(address)), id)), NetMove(Sent(a)), SaveResume], end, keepDead)
              && end.saving == Saved(MixedTables(a, c, address))
  {
    hide CanDo, Do, Actions, Held, Serialisable, Begin, Login, Latin1, UuidOk;
    var m0, m1, m2 := NetMove(Connect(a)), NetMove(Connect(c)), NetMove(Arrive(a, GetOutbox(x), id));
    var m4, m5 := NetMove(Arrive(c, Register(Encode(address)), id)), NetMove(Sent(a));
    TwoLogins(a, c, keepDead);
    var y2 := Do(Do(FRESH_SYSTEM, m0, keepDead), m1, keepDead);
    AskingOutbox(y2, a, x, id, keepDead);
    var y3 := Do(y2, m2, keepDead);
    ThreeActions(FRESH_SYSTEM, m0, m1, m2, keepDead);
    BeginTwo(y3.net, a, c);
    Starts(y3, keepDead);
    var y4 := Do(y3, SaveStart, keepDead);
    ActionsSnoc(FRESH_SYSTEM, [m0, m1, m2], y3, SaveStart, keepDead);
    HeldLater(y3.net, y4.net, a);
    RegisterAndResume(y4, a, c, address, id, keepDead);
    var y7 := Do(Do(Do(y4, m4, keepDead), m5, keepDead), SaveResume, keepDead);
    ActionsAppend(FRESH_SYSTEM, [m0, m1, m2] + [SaveStart], y4, [m4, m5, SaveResume], y7, keepDead);
    assert [m0, m1, m2] + [SaveStart] + [m4, m5, SaveResume] == [m0, m1, m2, SaveStart, m4, m5, SaveResume];
  }

  lemma HeldLater(n: Net, m: Net, a: string)
    requires Held(n, Outbox(a)) && m.handlers == n.handlers
    ensures Held(m, Outbox(a))
  {
  }

  lemma MixedBroken(a: string, c: string, address: string)
    requires a != c
    ensures !Owned(MixedTables(a, c, address)) && DoUnregister(MixedTables(a, c, address), c, address).1 == Crash
  {
    var t := MixedTables(a, c, address);
    assert address in t.clients.vals[c].addressesOwned && address !in t.addressBook.vals;
    assert !Owns(t.addressBook.vals, c, t.clients.vals[c].addressesOwned);
  }

  /**
   A checkpoint that had to wait and returns tables that never were. Restored, a client
   lists an address the book does not have, and UNREGISTER ends its handler.
   */
  lemma MixedSave(z: Zstd, a: string, c: string, address: string, x: bytes, id: bytes, keepDead: bool)
    requires Inverse(z) && UuidOk(a) && UuidOk(c) && a != c && Latin1(address) && 8 * (UUID_LENGTH + 4 + |address|) < U32_LIMIT
    ensures var t := MixedTables(a, c, address);
            && Serialisable(t) && Restore(z, Snapshot(z, t)) == Ok(t) && !Owned(t) && DoUnregister(t, c, address).1 == Crash
            && exists end ::
                 && Actions(FRESH_SYSTEM, [NetMove(Connect(a)), NetMove(Connect(c)), NetMove(Arrive(a, GetOutbox(x), id)), SaveStart,
                                           NetMove(Arrive(c, Register(Encode(address)), id)), NetMove(Sent(a)), SaveResume], end, keepDead)
                 && end.saving == Saved(t)
  {
    hide *;
    MixedRun(a, c, address, x, id, keepDead);
    MixedOk(a, c, address);
    LosslessIff(z, MixedTables(a, c, address));
    MixedBroken(a, c, address);
  }
}
