/**
 Many handlers on one event loop. Each await-free stretch of a handler is one
 move; moves of different handlers interleave in any order.
 */
module Interleaving {
  import opened Wrappers
  import opened Bytes
  import opened Tables
  import opened Wire
  import opened Commands
  import opened Runs
  import opened History

  /** The lock a handler holds while its reply is being sent. */
  datatype Lock = NoLock | DbLock | OutboxLock

  datatype Phase =
    | Idle                                      // at the head of the loop
    | Waiting(command: Command, id: bytes)      // suspended on a lock or on an empty inbox
    | Sending(reply: Outcome, lock: Lock)       // suspended in sock_sendall
    | Refusing                                  // likewise, with the error for a rejected packet
    | Halted

  /** `start` is the length of the history when the session began; `replies` are those sent since. */
  datatype Handler = Handler(phase: Phase, rx: nat, tx: nat, replies: seq<Outcome>, start: nat)

  /** What one can queue for: the lock on the database, or on the outbox of one client. */
  datatype Resource = Database | Outbox(owner: string)

  /** A place in the queue for a lock: a handler's, or the checkpoint's. */
  datatype Place = Place(who: Option<string>, what: Resource)

  /** `line` holds the queues of all locks, in order of arrival: `asyncio.Lock` serves first come, first served. */
  datatype Net = Net(tables: State, handlers: map<string, Handler>, history: seq<Event>, line: seq<Place>)

  datatype Move =
    | Arrive(uuid: string, command: Command, id: bytes)    // a packet is verified
    | Resume(uuid: string)                                 // what it waited for has come
    | Sent(uuid: string)                                   // sock_sendall returned
    | Fail(uuid: string)                                   // end of stream, a framing error, an exception
    | Reject(uuid: string)                                 // a packet is refused; once the error is sent, cleanup
    | Connect(uuid: string)                                // a login under a new UUID
    | Reconnect(uuid: string)                              // a relogin, when no handler is left
    | Other(event: Event)                                  // administration, or a checkpoint draining an inbox

  function LockOf(command: Command): Lock {
    match command
    case Set(_, _) => DbLock
    case Get(_) => DbLock
    case Delete(_) => DbLock
    case List => DbLock
    case GetOutbox(_) => OutboxLock
    case _ => NoLock
  }

  predicate Holds(h: Handler, lock: Lock) {
    h.phase.Sending? && h.phase.lock == lock
  }

  /** The lock this command takes before it touches the tables. */
  function Needs(uuid: string, command: Command): Option<Resource> {
    match command
    case PutOutbox(target, _, _, _) => Some(Outbox(Decode(target)))
    case GetOutbox(_) => Some(Outbox(uuid))
    case _ => if LockOf(command) == DbLock then Some(Database) else None
  }

  ghost predicate DbLocked(n: Net) {
    exists u :: u in n.handlers && Holds(n.handlers[u], DbLock)
  }

  /** Only the owner's GET_OUTBOX keeps the lock of an outbox across a wait. */
  ghost predicate Held(n: Net, what: Resource) {
    match what
    case Database => DbLocked(n)
    case Outbox(owner) => owner in n.handlers && Holds(n.handlers[owner], OutboxLock)
  }

  predicate Awaited(line: seq<Place>, what: Resource) {
    exists i :: 0 <= i < |line| && line[i].what == what
  }

  /** `acquire` waits for a lock that is held, and for one that is free but for which others queue. */
  ghost predicate Busy(n: Net, what: Resource) {
    Held(n, what) || Awaited(n.line, what)
  }

  /** Nobody queues for the same lock before this place. */
  predicate First(line: seq<Place>, p: Place) {
    exists i :: 0 <= i < |line| && line[i] == p && forall j :: 0 <= j < i ==> line[j].what != p.what
  }

  predicate NoRequest(n: Net, uuid: string) {
    uuid !in n.tables.clients.vals || n.tables.clients.vals[uuid].inbox == []
  }

  /** A command that has just arrived has to wait. */
  ghost predicate MustWait(n: Net, uuid: string, command: Command) {
    if command.GetInbox? then NoRequest(n, uuid)
    else if command.PutOutbox? && Decode(command.target) !in n.tables.clients.vals then false
    else Needs(uuid, command).Some? && Busy(n, Needs(uuid, command).value)
  }

  /** What a waiting command waited for has come. */
  ghost predicate MayResume(n: Net, uuid: string, command: Command) {
    if command.GetInbox? then !NoRequest(n, uuid)
    else
      Needs(uuid, command).Some? && !Held(n, Needs(uuid, command).value) &&
      First(n.line, Place(Some(uuid), Needs(uuid, command).value))
  }

  /** The line without this one's place. */
  function Without(line: seq<Place>, who: Option<string>): seq<Place> {
    if line == [] then []
    else (if line[0].who == who then [] else [line[0]]) + Without(line[1..], who)
  }

  /** The place a handler has in the line, if it waits for a lock. */
  function PlaceOf(uuid: string, h: Handler): seq<Place> {
    if h.phase.Waiting? && Needs(uuid, h.phase.command).Some? then [Place(Some(uuid), Needs(uuid, h.phase.command).value)]
    else []
  }

  /** Leaving whatever it waited for, and queueing if it now waits. */
  function Requeued(line: seq<Place>, uuid: string, h: Handler): seq<Place> {
    Without(line, Some(uuid)) + PlaceOf(uuid, h)
  }

  /** A PUT_OUTBOX that waited writes to the entry it found before, even if that has left the table. */
  function Turn(n: Net, uuid: string, command: Command, id: bytes, waited: bool): Event {
    if waited && command.PutOutbox? && Decode(command.target) !in n.tables.clients.vals then Detached(uuid)
    else Issued(uuid, command, id)
  }

  function SetHandler(n: Net, uuid: string, h: Handler): Net {
    n.(handlers := n.handlers[uuid := h], line := Requeued(n.line, uuid, h))
  }

  /** One event on the tables, on behalf of this handler. */
  function Serving(n: Net, uuid: string, h: Handler, e: Event, lock: Lock, keepDead: bool): Net {
    var (t, out) := Step(n.tables, e, keepDead);
    var phase := if IsPacket(out) then Sending(out, lock) else Halted;
    SetHandler(n, uuid, h.(phase := phase)).(tables := t, history := n.history + [e])
  }

  function HandlerEvent(n: Net, uuid: string, h: Handler, e: Event, keepDead: bool): Net {
    SetHandler(n, uuid, h).(tables := Step(n.tables, e, keepDead).0, history := n.history + [e])
  }

  function OtherEvent(n: Net, e: Event, keepDead: bool): Net {
    n.(tables := Step(n.tables, e, keepDead).0, history := n.history + [e])
  }

  /** The error has been sent: the counter and the cleanup, or an exception if the entry has gone meanwhile. */
  function Refuse(n: Net, uuid: string, h: Handler, keepDead: bool): Net {
    if uuid in n.tables.clients.vals then HandlerEvent(n, uuid, h.(tx := h.tx + 1, phase := Halted), Refusal(uuid), keepDead)
    else SetHandler(n, uuid, h.(phase := Halted))
  }

  ghost predicate Enabled(n: Net, m: Move) {
    match m
    case Arrive(uuid, _, _) => uuid in n.handlers && n.handlers[uuid].phase.Idle?
    case Resume(uuid) =>
      uuid in n.handlers && n.handlers[uuid].phase.Waiting? && MayResume(n, uuid, n.handlers[uuid].phase.command)
    case Sent(uuid) => uuid in n.handlers && (n.handlers[uuid].phase.Sending? || n.handlers[uuid].phase.Refusing?)
    case Fail(uuid) => uuid in n.handlers && !n.handlers[uuid].phase.Halted?
    case Reject(uuid) => uuid in n.handlers && n.handlers[uuid].phase.Idle? && uuid in n.tables.clients.vals
    case Connect(uuid) => uuid !in n.handlers && uuid !in n.tables.clients.vals
    case Reconnect(uuid) => uuid in n.tables.clients.vals && (uuid in n.handlers ==> n.handlers[uuid].phase.Halted?)
    case Other(e) =>
      && !e.Issued? && !e.Detached? && !e.LoggedIn? && !e.LoggedBack? && !e.Refusal?
      && (e.Admitted? ==> e.ticket.uuid in n.tables.clients.vals || e.ticket.uuid !in n.handlers)
      && (e.DbSet? || e.DbRemoved? ==> !DbLocked(n))
  }

  ghost function Next(n: Net, m: Move, keepDead: bool): Net
    requires Enabled(n, m)
  {
    match m
    case Arrive(uuid, command, id) =>
      var h := n.handlers[uuid];
      if uuid !in n.tables.clients.vals then SetHandler(n, uuid, h.(phase := Halted))
      else if MustWait(n, uuid, command) then SetHandler(n, uuid, h.(rx := h.rx + 1, phase := Waiting(command, id)))
      else Serving(n, uuid, h.(rx := h.rx + 1), Turn(n, uuid, command, id, false), LockOf(command), keepDead)
    case Resume(uuid) =>
      var h := n.handlers[uuid];
      Serving(n, uuid, h, Turn(n, uuid, h.phase.command, h.phase.id, true), LockOf(h.phase.command), keepDead)
    case Sent(uuid) =>
      var h := n.handlers[uuid];
      if h.phase.Refusing? then Refuse(n, uuid, h, keepDead)
      else if uuid in n.tables.clients.vals then
        SetHandler(n, uuid, h.(phase := Idle, tx := h.tx + 1, replies := h.replies + [h.phase.reply]))
      else SetHandler(n, uuid, h.(phase := Halted, replies := h.replies + [h.phase.reply]))
    case Fail(uuid) => SetHandler(n, uuid, n.handlers[uuid].(phase := Halted))
    case Reject(uuid) =>
      var h := n.handlers[uuid];
      SetHandler(n, uuid, h.(rx := h.rx + 1, phase := Refusing))
    case Connect(uuid) => HandlerEvent(n, uuid, Handler(Idle, 2, 2, [], |n.history| + 1), LoggedIn(uuid), keepDead)
    case Reconnect(uuid) => HandlerEvent(n, uuid, Handler(Idle, 2, 2, [], |n.history| + 1), LoggedBack(uuid), keepDead)
    case Other(e) => OtherEvent(n, e, keepDead)
  }

  // ----- What the atomic semantics says each session is answered -----

  /** The packets that serving the history atomically, in order, owes this client since `start`. */
  function Owed(s0: State, history: seq<Event>, start: nat, uuid: string, keepDead: bool): seq<Outcome> {
    if |history| <= start then []
    else
      var init, last := history[..|history| - 1], history[|history| - 1];
      var out := Step(Run(s0, init, keepDead), last, keepDead).1;
      Owed(s0, init, start, uuid, keepDead) + (if By(last, uuid) && IsPacket(out) then [out] else [])
  }

  /** The reply in flight, if there is one. */
  function InFlight(h: Handler): seq<Outcome> {
    if h.phase.Sending? then [h.phase.reply] else []
  }

  ghost predicate Counted(h: Handler) {
    match h.phase
    case Idle => h.rx == h.tx == 2 + |h.replies|
    case Waiting(_, _) => h.rx == h.tx + 1 && h.tx == 2 + |h.replies|
    case Sending(_, _) => h.rx == h.tx + 1 && h.tx == 2 + |h.replies|
    case Refusing => h.rx == h.tx + 1 && h.tx == 2 + |h.replies|
    case Halted => true
  }

  ghost predicate Answered(s0: State, history: seq<Event>, uuid: string, h: Handler, keepDead: bool) {
    && h.start <= |history|
    && (if h.phase.Halted? then h.replies <= Owed(s0, history, h.start, uuid, keepDead)
        else h.replies + InFlight(h) == Owed(s0, history, h.start, uuid, keepDead))
  }

  ghost predicate Inv(s0: State, n: Net, keepDead: bool) {
    && n.tables == Run(s0, n.history, keepDead)
    && (forall u :: u in n.handlers ==> Counted(n.handlers[u]) && Answered(s0, n.history, u, n.handlers[u], keepDead))
    && (forall u, v :: u in n.handlers && v in n.handlers && Holds(n.handlers[u], DbLock) && Holds(n.handlers[v], DbLock) ==> u == v)
  }

  // ----- Each move keeps it -----

  lemma OwedGrows(s0: State, history: seq<Event>, e: Event, start: nat, uuid: string, keepDead: bool)
    requires start <= |history|
    ensures var out := Step(Run(s0, history, keepDead), e, keepDead).1;
            Owed(s0, history + [e], start, uuid, keepDead) ==
            Owed(s0, history, start, uuid, keepDead) + (if By(e, uuid) && IsPacket(out) then [out] else [])
  {
    assert (history + [e])[..|history|] == history;
  }

  /** Events of others do not change what a session is owed. */
  lemma AnsweredByOthers(s0: State, history: seq<Event>, e: Event, uuid: string, h: Handler, keepDead: bool)
    requires Answered(s0, history, uuid, h, keepDead) && !By(e, uuid)
    ensures Answered(s0, history + [e], uuid, h, keepDead)
  {
    OwedGrows(s0, history, e, h.start, uuid, keepDead);
  }

  lemma AnsweredHalted(s0: State, history: seq<Event>, uuid: string, h: Handler, keepDead: bool)
    requires Answered(s0, history, uuid, h, keepDead)
    ensures Answered(s0, history, uuid, h.(phase := Halted), keepDead)
  {
  }

  lemma AnsweredServing(s0: State, history: seq<Event>, e: Event, uuid: string, h: Handler, lock: Lock, keepDead: bool)
    requires Answered(s0, history, uuid, h, keepDead) && By(e, uuid) && (h.phase.Idle? || h.phase.Waiting?)
    ensures var out := Step(Run(s0, history, keepDead), e, keepDead).1;
            Answered(s0, history + [e], uuid, h.(phase := if IsPacket(out) then Sending(out, lock) else Halted), keepDead)
  {
    OwedGrows(s0, history, e, h.start, uuid, keepDead);
    assert h.replies + [] == h.replies;
  }

  lemma ServingKeeps(s0: State, n: Net, uuid: string, h: Handler, e: Event, lock: Lock, keepDead: bool)
    requires Inv(s0, n, keepDead) && uuid in n.handlers && By(e, uuid)
    requires h == n.handlers[uuid].(rx := h.rx) && (h.phase.Idle? || h.phase.Waiting?)
    requires h.rx == h.tx + 1
    requires lock == DbLock ==> !DbLocked(n)
    ensures Inv(s0, Serving(n, uuid, h, e, lock, keepDead), keepDead)
  {
    hide Step, Run, Owed;
    var after := Serving(n, uuid, h, e, lock, keepDead);
    RunSnoc(s0, n.history, e, keepDead);
    forall u | u in after.handlers
      ensures Counted(after.handlers[u]) && Answered(s0, after.history, u, after.handlers[u], keepDead)
    {
      if u == uuid {
        assert Answered(s0, n.history, u, n.handlers[u], keepDead) && Counted(n.handlers[u]);
        assert Answered(s0, n.history, u, h, keepDead);
        AnsweredServing(s0, n.history, e, u, h, lock, keepDead);
      } else {
        AnsweredByOthers(s0, n.history, e, u, n.handlers[u], keepDead);
      }
    }
  }

  lemma SetHandlerKeeps(s0: State, n: Net, uuid: string, h: Handler, keepDead: bool)
    requires Inv(s0, n, keepDead) && !Holds(h, DbLock)
    requires Counted(h) && Answered(s0, n.history, uuid, h, keepDead)
    ensures Inv(s0, SetHandler(n, uuid, h), keepDead)
  {
    hide Run, Answered, Counted;
  }

  lemma EventKeeps(s0: State, n: Net, uuid: string, h: Handler, e: Event, keepDead: bool)
    requires Inv(s0, n, keepDead) && !Holds(h, DbLock)
    requires Counted(h) && Answered(s0, n.history + [e], uuid, h, keepDead)
    requires forall u :: u != uuid ==> !By(e, u)
    ensures Inv(s0, HandlerEvent(n, uuid, h, e, keepDead), keepDead)
  {
    hide Step, Run, Answered, Counted;
    RunSnoc(s0, n.history, e, keepDead);
    var after := HandlerEvent(n, uuid, h, e, keepDead);
    forall u | u in after.handlers
      ensures Counted(after.handlers[u]) && Answered(s0, after.history, u, after.handlers[u], keepDead)
    {
      if u != uuid {
        AnsweredByOthers(s0, n.history, e, u, n.handlers[u], keepDead);
      }
    }
  }

  lemma OtherKeeps(s0: State, n: Net, e: Event, keepDead: bool)
    requires Inv(s0, n, keepDead) && forall u :: !By(e, u)
    ensures Inv(s0, OtherEvent(n, e, keepDead), keepDead)
  {
    hide Step, Run, Answered, Counted;
    RunSnoc(s0, n.history, e, keepDead);
    forall u | u in n.handlers
      ensures Answered(s0, n.history + [e], u, n.handlers[u], keepDead)
    {
      AnsweredByOthers(s0, n.history, e, u, n.handlers[u], keepDead);
    }
  }

  lemma RefuseKeeps(s0: State, n: Net, uuid: string, h: Handler, keepDead: bool)
    requires Inv(s0, n, keepDead) && uuid in n.handlers && h == n.handlers[uuid] && h.phase.Refusing?
    ensures Inv(s0, Refuse(n, uuid, h, keepDead), keepDead)
  {
    hide Run, Owed;
    assert Answered(s0, n.history, uuid, h, keepDead);
    assert h.replies + [] == h.replies;
    AnsweredHalted(s0, n.history, uuid, h, keepDead);
    if uuid in n.tables.clients.vals {
      AnsweredByOthers(s0, n.history, Refusal(uuid), uuid, h.(phase := Halted), keepDead);
      EventKeeps(s0, n, uuid, h.(tx := h.tx + 1, phase := Halted), Refusal(uuid), keepDead);
    } else {
      SetHandlerKeeps(s0, n, uuid, h.(phase := Halted), keepDead);
    }
  }

  lemma SentKeeps(s0: State, n: Net, uuid: string, keepDead: bool)
    requires Inv(s0, n, keepDead) && Enabled(n, Sent(uuid))
    ensures Inv(s0, Next(n, Sent(uuid), keepDead), keepDead)
  {
    hide Run, Owed;
    var h := n.handlers[uuid];
    assert Answered(s0, n.history, uuid, h, keepDead) && Counted(h);
    if h.phase.Refusing? {
      RefuseKeeps(s0, n, uuid, h, keepDead);
      return;
    }
    var replies := h.replies + [h.phase.reply];
    assert replies + [] == replies;
    if uuid in n.tables.clients.vals {
      SetHandlerKeeps(s0, n, uuid, h.(phase := Idle, tx := h.tx + 1, replies := replies), keepDead);
    } else {
      SetHandlerKeeps(s0, n, uuid, h.(phase := Halted, replies := replies), keepDead);
    }
  }

  /** A command that takes the lock on the database is served only while nobody holds it. */
  lemma DbFree(n: Net, uuid: string, command: Command)
    requires !MustWait(n, uuid, command) || MayResume(n, uuid, command)
    ensures LockOf(command) == DbLock ==> !DbLocked(n)
  {
    hide DbLocked, First, Decode;
  }

  lemma ArriveKeeps(s0: State, n: Net, uuid: string, command: Command, id: bytes, keepDead: bool)
    requires Inv(s0, n, keepDead) && Enabled(n, Arrive(uuid, command, id))
    ensures Inv(s0, Next(n, Arrive(uuid, command, id), keepDead), keepDead)
  {
    hide Run, Owed, Step, Serving, MustWait, DbLocked, Requeued;
    var h := n.handlers[uuid];
    assert Answered(s0, n.history, uuid, h, keepDead) && Counted(h);
    if uuid !in n.tables.clients.vals {
      AnsweredHalted(s0, n.history, uuid, h, keepDead);
      SetHandlerKeeps(s0, n, uuid, h.(phase := Halted), keepDead);
    } else if MustWait(n, uuid, command) {
      SetHandlerKeeps(s0, n, uuid, h.(rx := h.rx + 1, phase := Waiting(command, id)), keepDead);
    } else {
      DbFree(n, uuid, command);
      ServingKeeps(s0, n, uuid, h.(rx := h.rx + 1), Turn(n, uuid, command, id, false), LockOf(command), keepDead);
    }
  }

  lemma MoveKeeps(s0: State, n: Net, m: Move, keepDead: bool)
    requires Inv(s0, n, keepDead) && Enabled(n, m)
    ensures Inv(s0, Next(n, m, keepDead), keepDead)
  {
    hide Run, Owed, Step, Serving, MustWait, MayResume, DbLocked, Requeued;
    match m
    case Arrive(uuid, command, id) => ArriveKeeps(s0, n, uuid, command, id, keepDead);
    case Resume(uuid) =>
      var h := n.handlers[uuid];
      assert Counted(h);
      DbFree(n, uuid, h.phase.command);
      ServingKeeps(s0, n, uuid, h, Turn(n, uuid, h.phase.command, h.phase.id, true), LockOf(h.phase.command), keepDead);
    case Sent(uuid) => SentKeeps(s0, n, uuid, keepDead);
    case Fail(uuid) =>
      AnsweredHalted(s0, n.history, uuid, n.handlers[uuid], keepDead);
      SetHandlerKeeps(s0, n, uuid, n.handlers[uuid].(phase := Halted), keepDead);
    case Reject(uuid) =>
      var h := n.handlers[uuid];
      assert Counted(h) && Answered(s0, n.history, uuid, h, keepDead);
      SetHandlerKeeps(s0, n, uuid, h.(rx := h.rx + 1, phase := Refusing), keepDead);
    case Connect(uuid) =>
      NothingOwed(s0, n.history + [LoggedIn(uuid)], uuid, keepDead);
      EventKeeps(s0, n, uuid, Handler(Idle, 2, 2, [], |n.history| + 1), LoggedIn(uuid), keepDead);
    case Reconnect(uuid) =>
      NothingOwed(s0, n.history + [LoggedBack(uuid)], uuid, keepDead);
      EventKeeps(s0, n, uuid, Handler(Idle, 2, 2, [], |n.history| + 1), LoggedBack(uuid), keepDead);
    case Other(e) => OtherKeeps(s0, n, e, keepDead);
  }

  lemma NothingOwed(s0: State, history: seq<Event>, uuid: string, keepDead: bool)
    ensures Answered(s0, history, uuid, Handler(Idle, 2, 2, [], |history|), keepDead)
  {
  }

  // ----- Every run of moves -----

  /** A server with these tables and nobody connected. */
  function Started(tables: State): Net {
    Net(tables, map[], [], [])
  }

  ghost predicate Moves(n: Net, moves: seq<Move>, after: Net, keepDead: bool) {
    if moves == [] then n == after
    else
      var init, last := moves[..|moves| - 1], moves[|moves| - 1];
      exists mid :: Moves(n, init, mid, keepDead) && Enabled(mid, last) && after == Next(mid, last, keepDead)
  }

  /**
   Linearisation: however the handlers interleave, the tables are those of the
   history served one command at a time, and every session has been sent, in order,
   exactly the packets that atomic history owes it, the i-th under nonce 2 + i.
   */
  lemma {:induction false} EveryRunLinearises(s0: State, moves: seq<Move>, n: Net, keepDead: bool)
    requires Moves(Started(s0), moves, n, keepDead)
    ensures Inv(s0, n, keepDead)
  {
    hide Inv, Enabled, Next;
    if moves == [] {
      InitialInv(s0, keepDead);
    } else {
      var mid :| Moves(Started(s0), moves[..|moves| - 1], mid, keepDead) &&
                 Enabled(mid, moves[|moves| - 1]) && n == Next(mid, moves[|moves| - 1], keepDead);
      EveryRunLinearises(s0, moves[..|moves| - 1], mid, keepDead);
      MoveKeeps(s0, mid, moves[|moves| - 1], keepDead);
    }
  }

  lemma InitialInv(s0: State, keepDead: bool)
    ensures Inv(s0, Started(s0), keepDead)
  {
  }

  /** At the head of the loop both counters are two plus the commands completed, each with one reply. */
  lemma CountersAtLoopHead(s0: State, moves: seq<Move>, n: Net, keepDead: bool, uuid: string)
    requires Moves(Started(s0), moves, n, keepDead)
    requires uuid in n.handlers && n.handlers[uuid].phase.Idle?
    ensures var h := n.handlers[uuid];
            h.rx == h.tx == 2 + |h.replies| && h.replies == Owed(s0, n.history, h.start, uuid, keepDead)
  {
    EveryRunLinearises(s0, moves, n, keepDead);
    var h := n.handlers[uuid];
    assert Counted(h) && Answered(s0, n.history, uuid, h, keepDead);
    assert h.replies + [] == h.replies;
  }

  /** Under any interleaving a key holds what the last write of the history left. */
  lemma InterleavedDb(s0: State, moves: seq<Move>, n: Net, keepDead: bool, key: bytes)
    requires Moves(Started(s0), moves, n, keepDead)
    ensures Find(n.tables.db.vals, key) == LastValue(Find(s0.db.vals, key), n.history, key)
  {
    hide Moves, Run, LastValue;
    EveryRunLinearises(s0, moves, n, keepDead);
    DbHoldsLastWrite(s0, n.history, keepDead, key);
  }

  /** Under any interleaving of handlers and checkpoints, a client's requests are taken in the order they were accepted. */
  lemma InterleavedInbox(s0: State, moves: seq<Move>, n: Net, keepDead: bool, uuid: string)
    requires Moves(Started(s0), moves, n, keepDead) && Stays(s0, n.history, keepDead, uuid)
    ensures Inbox(s0, uuid) + AllAccepted(s0, n.history, keepDead, uuid)
         == AllTaken(s0, n.history, keepDead, uuid) + Inbox(n.tables, uuid)
  {
    hide Moves, Run, AllAccepted, AllTaken, Stays;
    EveryRunLinearises(s0, moves, n, keepDead);
    InboxConserved(s0, n.history, keepDead, uuid);
  }
}
