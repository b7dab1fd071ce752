/**
 A restart in the middle of a run: whatever moves a server restored from its
 checkpoint can make, the saved server could have made once its connections
 had broken, with the same effect.
 */
module Restored {
  import opened Wrappers
  import opened Bytes
  import opened Tables
  import opened Wire
  import opened Runs
  import opened Interleaving
  import opened Queueing
  import opened Checkpoint
  import opened CheckpointProofs
  import opened CheckpointMoves
  import opened CheckpointExact
  import Reachable

  /** Nobody is connected. */
  ghost predicate Quiet(n: Net) {
    forall u :: u in n.handlers ==> n.handlers[u].phase.Halted?
  }

  /** The two handlers are at the same point, with the same counters and replies. */
  predicate SameHandler(prior: nat, x: Handler, y: Handler) {
    x.phase == y.phase && x.rx == y.rx && x.tx == y.tx && x.replies == y.replies && x.start == prior + y.start
  }

  /**
   a continues the saved net n as b continues the restored one: same tables, every
   handler of b is in a, and what else a remembers are the halted handlers of n.
   */
  ghost predicate Follows(n: Net, a: Net, b: Net) {
    && a.tables == b.tables
    && a.history == n.history + b.history && a.line == b.line
    && (forall u :: u in b.handlers ==> u in a.handlers && SameHandler(|n.history|, a.handlers[u], b.handlers[u]))
    && (forall u :: u in a.handlers && u !in b.handlers ==> u in n.handlers && a.handlers[u].phase.Halted?)
  }

  /** A login or add_client after the restart does not draw a UUID of an earlier session. */
  predicate NotOfOld(n: Net, m: Move) {
    match m
    case Connect(uuid) => uuid !in n.handlers
    case Other(Admitted(ticket)) => ticket.uuid !in n.handlers
    case _ => true
  }

  lemma LockedAlike(n: Net, a: Net, b: Net)
    requires Follows(n, a, b)
    ensures DbLocked(a) <==> DbLocked(b)
  {
    if DbLocked(a) {
      var u :| u in a.handlers && Holds(a.handlers[u], DbLock);
      assert u in b.handlers && Holds(b.handlers[u], DbLock);
    }
    if DbLocked(b) {
      var u :| u in b.handlers && Holds(b.handlers[u], DbLock);
      assert Holds(a.handlers[u], DbLock);
    }
  }

  lemma HeldAlike(n: Net, a: Net, b: Net, what: Resource)
    requires Follows(n, a, b)
    ensures Held(a, what) <==> Held(b, what)
    ensures Busy(a, what) <==> Busy(b, what)
  {
    hide DbLocked;
    LockedAlike(n, a, b);
  }

  lemma WaitsAlike(n: Net, a: Net, b: Net, uuid: string, command: Command)
    requires Follows(n, a, b)
    ensures MustWait(a, uuid, command) <==> MustWait(b, uuid, command)
    ensures MayResume(a, uuid, command) <==> MayResume(b, uuid, command)
  {
    hide Held, Busy, First, Needs;
    if Needs(uuid, command).Some? {
      HeldAlike(n, a, b, Needs(uuid, command).value);
    }
  }

  lemma EnabledAlike(n: Net, a: Net, b: Net, m: Move)
    requires Follows(n, a, b) && Enabled(b, m) && NotOfOld(n, m)
    ensures Enabled(a, m)
  {
    hide MustWait, MayResume, DbLocked;
    LockedAlike(n, a, b);
    if m.Resume? {
      WaitsAlike(n, a, b, m.uuid, b.handlers[m.uuid].phase.command);
    }
  }

  /** What the saved net can do, the restored one can. */
  lemma EnabledBack(n: Net, a: Net, b: Net, m: Move)
    requires Follows(n, a, b) && Enabled(a, m)
    ensures Enabled(b, m)
  {
    hide MustWait, MayResume, DbLocked;
    LockedAlike(n, a, b);
    if m.Resume? {
      WaitsAlike(n, a, b, m.uuid, a.handlers[m.uuid].phase.command);
    }
  }

  lemma FollowsTables(n: Net, a: Net, b: Net)
    requires Follows(n, a, b)
    ensures a.tables == b.tables && a.history == n.history + b.history && a.line == b.line
  {
  }

  /** One handler changes on both sides, and perhaps one event happens. */
  lemma ChangeAlike(n: Net, a: Net, b: Net, t: State, uuid: string, x: Handler, y: Handler, events: seq<Event>)
    requires Follows(n, a, b) && SameHandler(|n.history|, x, y)
    ensures Follows(n, SetHandler(a, uuid, x).(tables := t, history := a.history + events),
                    SetHandler(b, uuid, y).(tables := t, history := b.history + events))
  {
    hide Requeued;
    assert n.history + b.history + events == n.history + (b.history + events);
    SamePlace(n, a.line, uuid, x, y);
  }

  lemma SamePlace(n: Net, line: seq<Place>, uuid: string, x: Handler, y: Handler)
    requires SameHandler(|n.history|, x, y)
    ensures Requeued(line, uuid, x) == Requeued(line, uuid, y)
  {
    hide Without, Needs;
  }

  lemma ServingAlike(n: Net, a: Net, b: Net, uuid: string, x: Handler, y: Handler, e: Event, lock: Lock, keepDead: bool)
    requires Follows(n, a, b) && SameHandler(|n.history|, x, y)
    ensures Follows(n, Serving(a, uuid, x, e, lock, keepDead), Serving(b, uuid, y, e, lock, keepDead))
  {
    hide Step, Follows, SetHandler;
    FollowsTables(n, a, b);
    var (t, out) := Step(a.tables, e, keepDead);
    var phase := if IsPacket(out) then Sending(out, lock) else Halted;
    ChangeAlike(n, a, b, t, uuid, x.(phase := phase), y.(phase := phase), [e]);
  }

  lemma SetAlike(n: Net, a: Net, b: Net, uuid: string, x: Handler, y: Handler)
    requires Follows(n, a, b) && SameHandler(|n.history|, x, y)
    ensures Follows(n, SetHandler(a, uuid, x), SetHandler(b, uuid, y))
  {
    hide Requeued, Follows;
    FollowsTables(n, a, b);
    ChangeAlike(n, a, b, a.tables, uuid, x, y, []);
    assert a.history + [] == a.history && b.history + [] == b.history;
  }

  lemma EventAlike(n: Net, a: Net, b: Net, uuid: string, x: Handler, y: Handler, e: Event, keepDead: bool)
    requires Follows(n, a, b) && SameHandler(|n.history|, x, y)
    ensures Follows(n, HandlerEvent(a, uuid, x, e, keepDead), HandlerEvent(b, uuid, y, e, keepDead))
  {
    hide Step, Follows, SetHandler;
    FollowsTables(n, a, b);
    ChangeAlike(n, a, b, Step(a.tables, e, keepDead).0, uuid, x, y, [e]);
  }

  lemma OtherAlike(n: Net, a: Net, b: Net, e: Event, keepDead: bool)
    requires Follows(n, a, b)
    ensures Follows(n, OtherEvent(a, e, keepDead), OtherEvent(b, e, keepDead))
  {
    hide Step;
    assert n.history + b.history + [e] == n.history + (b.history + [e]);
  }

  lemma HandlersAlike(n: Net, a: Net, b: Net, uuid: string)
    requires Follows(n, a, b) && uuid in b.handlers
    ensures uuid in a.handlers && SameHandler(|n.history|, a.handlers[uuid], b.handlers[uuid])
  {
  }

  lemma ArriveAlike(n: Net, a: Net, b: Net, uuid: string, command: Command, id: bytes, keepDead: bool)
    requires Follows(n, a, b) && Enabled(a, Arrive(uuid, command, id)) && Enabled(b, Arrive(uuid, command, id))
    ensures Follows(n, Next(a, Arrive(uuid, command, id), keepDead), Next(b, Arrive(uuid, command, id), keepDead))
  {
    hide Follows, Serving, SetHandler, HandlerEvent, OtherEvent, MustWait, MayResume, Step;
    var x, y := a.handlers[uuid], b.handlers[uuid];
    HandlersAlike(n, a, b, uuid);
    FollowsTables(n, a, b);
    WaitsAlike(n, a, b, uuid, command);
    if uuid !in b.tables.clients.vals {
      SetAlike(n, a, b, uuid, x.(phase := Halted), y.(phase := Halted));
    } else if MustWait(b, uuid, command) {
      SetAlike(n, a, b, uuid, x.(rx := x.rx + 1, phase := Waiting(command, id)), y.(rx := y.rx + 1, phase := Waiting(command, id)));
    } else {
      ServingAlike(n, a, b, uuid, x.(rx := x.rx + 1), y.(rx := y.rx + 1), Turn(a, uuid, command, id, false), LockOf(command), keepDead);
    }
  }

  lemma RefuseAlike(n: Net, a: Net, b: Net, uuid: string, x: Handler, y: Handler, keepDead: bool)
    requires Follows(n, a, b) && SameHandler(|n.history|, x, y)
    ensures Follows(n, Refuse(a, uuid, x, keepDead), Refuse(b, uuid, y, keepDead))
  {
    hide Follows, HandlerEvent;
    FollowsTables(n, a, b);
    if uuid in a.tables.clients.vals {
      EventAlike(n, a, b, uuid, x.(tx := x.tx + 1, phase := Halted), y.(tx := y.tx + 1, phase := Halted), Refusal(uuid), keepDead);
    } else {
      SetAlike(n, a, b, uuid, x.(phase := Halted), y.(phase := Halted));
    }
  }

  lemma NextAlike(n: Net, a: Net, b: Net, m: Move, keepDead: bool)
    requires Follows(n, a, b) && Enabled(a, m) && Enabled(b, m)
    ensures Follows(n, Next(a, m, keepDead), Next(b, m, keepDead))
  {
    hide Follows, Serving, SetHandler, HandlerEvent, OtherEvent, MustWait, MayResume, Step;
    FollowsTables(n, a, b);
    match m
    case Arrive(uuid, command, id) => ArriveAlike(n, a, b, uuid, command, id, keepDead);
    case Resume(uuid) =>
      HandlersAlike(n, a, b, uuid);
      var x, y := a.handlers[uuid], b.handlers[uuid];
      ServingAlike(n, a, b, uuid, x, y, Turn(a, uuid, x.phase.command, x.phase.id, true), LockOf(x.phase.command), keepDead);
    case Sent(uuid) =>
      HandlersAlike(n, a, b, uuid);
      var x, y := a.handlers[uuid], b.handlers[uuid];
      if x.phase.Refusing? {
        RefuseAlike(n, a, b, uuid, x, y, keepDead);
      } else if uuid in a.tables.clients.vals {
        SetAlike(n, a, b, uuid, x.(phase := Idle, tx := x.tx + 1, replies := x.replies + [x.phase.reply]),
                 y.(phase := Idle, tx := y.tx + 1, replies := y.replies + [y.phase.reply]));
      } else {
        SetAlike(n, a, b, uuid, x.(phase := Halted, replies := x.replies + [x.phase.reply]),
                 y.(phase := Halted, replies := y.replies + [y.phase.reply]));
      }
    case Fail(uuid) =>
      HandlersAlike(n, a, b, uuid);
      SetAlike(n, a, b, uuid, a.handlers[uuid].(phase := Halted), b.handlers[uuid].(phase := Halted));
    case Reject(uuid) =>
      HandlersAlike(n, a, b, uuid);
      var x, y := a.handlers[uuid], b.handlers[uuid];
      SetAlike(n, a, b, uuid, x.(rx := x.rx + 1, phase := Refusing), y.(rx := y.rx + 1, phase := Refusing));
    case Connect(uuid) =>
      EventAlike(n, a, b, uuid, Handler(Idle, 2, 2, [], |a.history| + 1), Handler(Idle, 2, 2, [], |b.history| + 1),
                 LoggedIn(uuid), keepDead);
    case Reconnect(uuid) =>
      EventAlike(n, a, b, uuid, Handler(Idle, 2, 2, [], |a.history| + 1), Handler(Idle, 2, 2, [], |b.history| + 1),
                 LoggedBack(uuid), keepDead);
    case Other(e) => OtherAlike(n, a, b, e, keepDead);
  }

  /** Every run of the restored net is a run of the saved one. */
  lemma {:induction false} RunsAlike(n: Net, moves: seq<Move>, b: Net, keepDead: bool)
    requires Quiet(n) && n.line == [] && Moves(Started(n.tables), moves, b, keepDead)
    requires forall i :: 0 <= i < |moves| ==> NotOfOld(n, moves[i])
    ensures exists a :: Moves(n, moves, a, keepDead) && Follows(n, a, b)
  {
    hide Enabled, Next, Follows, NotOfOld;
    if moves == [] {
      StartAlike(n);
      assert Moves(n, moves, n, keepDead);
    } else {
      var init, last := moves[..|moves| - 1], moves[|moves| - 1];
      var mid :| Moves(Started(n.tables), init, mid, keepDead) && Enabled(mid, last) && b == Next(mid, last, keepDead);
      RunsAlike(n, init, mid, keepDead);
      var before :| Moves(n, init, before, keepDead) && Follows(n, before, mid);
      EnabledAlike(n, before, mid, last);
      NextAlike(n, before, mid, last, keepDead);
      assert Moves(n, moves, Next(before, last, keepDead), keepDead);
    }
  }

  /** And every run of the saved net is one of the restored net. */
  lemma {:induction false} RunsBack(n: Net, moves: seq<Move>, a: Net, keepDead: bool)
    requires Quiet(n) && n.line == [] && Moves(n, moves, a, keepDead)
    ensures exists b :: Moves(Started(n.tables), moves, b, keepDead) && Follows(n, a, b)
  {
    hide Enabled, Next, Follows;
    if moves == [] {
      StartAlike(n);
      assert Moves(Started(n.tables), moves, Started(n.tables), keepDead);
    } else {
      var init, last := moves[..|moves| - 1], moves[|moves| - 1];
      var mid :| Moves(n, init, mid, keepDead) && Enabled(mid, last) && a == Next(mid, last, keepDead);
      RunsBack(n, init, mid, keepDead);
      var before :| Moves(Started(n.tables), init, before, keepDead) && Follows(n, mid, before);
      EnabledBack(n, mid, before, last);
      NextAlike(n, mid, before, last, keepDead);
      assert Moves(Started(n.tables), moves, Next(before, last, keepDead), keepDead);
    }
  }

  lemma StartAlike(n: Net)
    requires Quiet(n) && n.line == []
    ensures Follows(n, n, Started(n.tables))
  {
    assert n.history + [] == n.history;
  }

  // ----- The connections break -----

  predicate AllFail(moves: seq<Move>) {
    forall i :: 0 <= i < |moves| ==> moves[i].Fail?
  }

  /** Every handler has stopped; nothing else has changed. */
  ghost predicate Stopped(n: Net, q: Net) {
    Quiet(q) && q.tables == n.tables && q.history == n.history && q.handlers.Keys == n.handlers.Keys
  }

  lemma MovesSnoc(n: Net, moves: seq<Move>, mid: Net, last: Move, keepDead: bool)
    requires Moves(n, moves, mid, keepDead) && Enabled(mid, last)
    ensures Moves(n, moves + [last], Next(mid, last, keepDead), keepDead)
  {
    hide Enabled, Next;
    assert (moves + [last])[..|moves|] == moves;
  }

  lemma {:induction false} MovesAppend(n: Net, first: seq<Move>, mid: Net, moves: seq<Move>, after: Net, keepDead: bool)
    requires Moves(n, first, mid, keepDead) && Moves(mid, moves, after, keepDead)
    ensures Moves(n, first + moves, after, keepDead)
  {
    hide Enabled, Next;
    if moves == [] {
      assert first + moves == first;
    } else {
      var init, last := moves[..|moves| - 1], moves[|moves| - 1];
      var before :| Moves(mid, init, before, keepDead) && Enabled(before, last) && after == Next(before, last, keepDead);
      MovesAppend(n, first, mid, init, before, keepDead);
      assert (first + moves)[..|first + moves| - 1] == first + init;
    }
  }

  lemma FailIs(n: Net, u: string, keepDead: bool)
    requires u in n.handlers && !n.handlers[u].phase.Halted?
    ensures Enabled(n, Fail(u)) && Next(n, Fail(u), keepDead) == SetHandler(n, u, n.handlers[u].(phase := Halted))
  {
  }

  lemma NoMoves(n: Net, keepDead: bool)
    ensures Moves(n, [], n, keepDead) && AllFail([])
  {
  }

  lemma OneFails(n: Net, u: string, keepDead: bool)
    requires u in n.handlers && !n.handlers[u].phase.Halted?
    ensures Moves(n, [Fail(u)], SetHandler(n, u, n.handlers[u].(phase := Halted)), keepDead)
  {
    hide Moves, Enabled, Next, SetHandler;
    FailIs(n, u, keepDead);
    NoMoves(n, keepDead);
    MovesSnoc(n, [], n, Fail(u), keepDead);
    assert [] + [Fail(u)] == [Fail(u)];
  }

  lemma FailsAppend(u: string, fails: seq<Move>)
    requires AllFail(fails)
    ensures AllFail([Fail(u)] + fails)
  {
  }

  lemma HaltedSets(n: Net, u: string)
    requires u in n.handlers
    ensures var m := SetHandler(n, u, n.handlers[u].(phase := Halted));
            m.handlers.Keys == n.handlers.Keys && m.tables == n.tables && m.history == n.history
            && m.handlers == n.handlers[u := n.handlers[u].(phase := Halted)]
  {
    hide Requeued;
  }

  lemma {:induction false} HandlersStop(n: Net, todo: set<string>, keepDead: bool)
    requires forall u :: u in n.handlers && !n.handlers[u].phase.Halted? ==> u in todo
    requires todo <= n.handlers.Keys
    ensures exists fails, q :: AllFail(fails) && Moves(n, fails, q, keepDead) && Stopped(n, q)
    decreases |todo|
  {
    hide Next, Enabled, Moves, AllFail, SetHandler;
    if todo == {} {
      NoMoves(n, keepDead);
      assert Stopped(n, n);
    } else {
      var u :| u in todo;
      if n.handlers[u].phase.Halted? {
        HandlersStop(n, todo - {u}, keepDead);
      } else {
        OneFails(n, u, keepDead);
        HaltedSets(n, u);
        var m := SetHandler(n, u, n.handlers[u].(phase := Halted));
        HandlersStop(m, todo - {u}, keepDead);
        var fails, q :| AllFail(fails) && Moves(m, fails, q, keepDead) && Stopped(m, q);
        MovesAppend(n, [Fail(u)], m, fails, q, keepDead);
        FailsAppend(u, fails);
        assert Stopped(n, q);
      }
    }
  }

  /** Failures touch nothing but the handlers, and leave the line in order. */
  lemma {:induction false} FailsOnly(n: Net, fails: seq<Move>, q: Net, keepDead: bool)
    requires AllFail(fails) && Moves(n, fails, q, keepDead) && LineOk(n) && NoSave(n.line)
    ensures q.tables == n.tables && q.history == n.history && q.handlers.Keys == n.handlers.Keys
    ensures LineOk(q) && NoSave(q.line)
  {
    hide Enabled, Next, LineOk, NoSave, SetHandler;
    if fails != [] {
      var init, last := fails[..|fails| - 1], fails[|fails| - 1];
      var mid :| Moves(n, init, mid, keepDead) && Enabled(mid, last) && q == Next(mid, last, keepDead);
      FailsOnly(n, init, mid, keepDead);
      NextLine(mid, last, keepDead);
      FailChanges(mid, last.uuid, keepDead);
    }
  }

  lemma FailChanges(n: Net, u: string, keepDead: bool)
    requires Enabled(n, Fail(u))
    ensures var m := Next(n, Fail(u), keepDead);
            m.handlers.Keys == n.handlers.Keys && m.tables == n.tables && m.history == n.history
  {
    hide Requeued;
  }

  lemma StoppedFollows(n: Net, q: Net, a: Net, b: Net)
    requires Stopped(n, q)
    ensures Follows(q, a, b) <==> Follows(n, a, b)
  {
  }

  lemma StoppedNames(n: Net, q: Net, moves: seq<Move>)
    requires Stopped(n, q) && forall i :: 0 <= i < |moves| ==> NotOfOld(n, moves[i])
    ensures forall i :: 0 <= i < |moves| ==> NotOfOld(q, moves[i])
  {
  }

  lemma StoppedLine(n: Net, fails: seq<Move>, q: Net, keepDead: bool)
    requires AllFail(fails) && Moves(n, fails, q, keepDead) && LineOk(n) && NoSave(n.line) && Quiet(q)
    ensures q.line == [] && Stopped(n, q)
  {
    hide LineOk, NoSave, Moves;
    FailsOnly(n, fails, q, keepDead);
    NobodyInLine(q);
  }

  /** Runs of the net restored from the tables of n: each continues n, once its connections have broken. */
  lemma RestartAfterStop(n: Net, moves: seq<Move>, b: Net, keepDead: bool)
    requires LineOk(n) && NoSave(n.line) && Moves(Started(n.tables), moves, b, keepDead)
    requires forall i :: 0 <= i < |moves| ==> NotOfOld(n, moves[i])
    ensures exists fails, a :: AllFail(fails) && Moves(n, fails + moves, a, keepDead) && Follows(n, a, b)
  {
    hide Moves, NotOfOld, Follows, AllFail, LineOk, NoSave, Started;
    HandlersStop(n, n.handlers.Keys, keepDead);
    var fails, q :| AllFail(fails) && Moves(n, fails, q, keepDead) && Stopped(n, q);
    StoppedLine(n, fails, q, keepDead);
    StoppedNames(n, q, moves);
    RunsAlike(q, moves, b, keepDead);
    var a :| Moves(q, moves, a, keepDead) && Follows(q, a, b);
    StoppedFollows(n, q, a, b);
    MovesAppend(n, fails, q, moves, a, keepDead);
  }

  // ----- The saved server, with its checkpoint -----

  function Lifted(moves: seq<Move>): seq<Action> {
    seq(|moves|, i requires 0 <= i < |moves| => NetMove(moves[i]))
  }

  lemma {:induction false} LiftMoves(y: System, moves: seq<Move>, a: Net, keepDead: bool)
    requires Moves(y.net, moves, a, keepDead)
    ensures Actions(y, Lifted(moves), System(a, y.saving), keepDead)
  {
    hide Enabled, Next, Begin, Proceed;
    if moves == [] {
      assert Lifted(moves) == [];
    } else {
      var init, last := moves[..|moves| - 1], moves[|moves| - 1];
      var mid :| Moves(y.net, init, mid, keepDead) && Enabled(mid, last) && a == Next(mid, last, keepDead);
      LiftMoves(y, init, mid, keepDead);
      assert Lifted(moves) == Lifted(init) + [NetMove(last)];
      ActionsSnoc(y, Lifted(init), System(mid, y.saving), NetMove(last), keepDead);
    }
  }

  /**
   In the run that reached y no checkpoint has been taken; one is begun now, at a moment when
   no outbox lock is held or awaited, and at `end`, at once or later, it has returned `image`.
   */
  ghost predicate SavedAt(earlier: seq<Action>, y: System, later: seq<Action>, end: System, image: State, keepDead: bool) {
    && Actions(FRESH_SYSTEM, earlier, y, keepDead) && y.saving.Unsaved? && NoneBusy(y.net)
    && Reachable.TextualRun(y.net.history)
    && Actions(Begin(y.net), later, end, keepDead) && end.saving == Saved(image)
  }

  /** Such a checkpoint is one of the tables of y, and restores to them. */
  lemma SavedTables(z: Zstd, earlier: seq<Action>, y: System, later: seq<Action>, end: System, image: State, keepDead: bool)
    requires Inverse(z) && SavedAt(earlier, y, later, end, image, keepDead)
    ensures image == y.net.tables && Serialisable(image) && Restore(z, Snapshot(z, image)) == Ok(image)
    ensures LineOk(y.net) && NoSave(y.net.line)
    ensures y.net.tables == Run(EMPTY_STATE, y.net.history, keepDead)
  {
    SavedMeans(earlier, y, later, end, image, keepDead);
    hide *;
    BeginsFree(y.net);
    EndedStays(Begin(y.net), later, end, keepDead);
    TablesOfSystem(earlier, y, keepDead);
    Reachable.WellFormedInEveryRun(EMPTY_STATE, y.net.history, keepDead);
    Reachable.SerialisableIff(y.net.tables);
    LosslessIff(z, y.net.tables);
  }

  lemma SavedMeans(earlier: seq<Action>, y: System, later: seq<Action>, end: System, image: State, keepDead: bool)
    requires SavedAt(earlier, y, later, end, image, keepDead)
    ensures Actions(FRESH_SYSTEM, earlier, y, keepDead) && y.saving.Unsaved? && NoneBusy(y.net)
    ensures Reachable.TextualRun(y.net.history)
    ensures Actions(Begin(y.net), later, end, keepDead) && end.saving == Saved(image)
  {
    hide Actions, Begin, NoneBusy;
  }

  lemma TablesOfSystem(actions: seq<Action>, y: System, keepDead: bool)
    requires Actions(FRESH_SYSTEM, actions, y, keepDead) && y.saving.Unsaved?
    ensures y.net.tables == Run(EMPTY_STATE, y.net.history, keepDead) && Reachable.WellFormed(EMPTY_STATE)
    ensures LineOk(y.net) && NoSave(y.net.line)
  {
    hide Actions, Run, Counted, Answered, Holds, LineOk, NoSave;
    SystemLinearises(EMPTY_STATE, actions, y, keepDead);
    FreshLine(EMPTY_STATE);
    LineInEverySystem(FRESH_SYSTEM, actions, y, keepDead);
  }

  // ----- Main results -----

  /**
   A server is saved, its connections break, and it is restarted from the bytes: whatever
   logins, commands, waits, crashes and administrative calls follow, they continue the run
   of the server as it was saved, every session since then is at the same point of
   that run, under the same nonces and with the same replies, and the tables are the same.
   */
  lemma RestartIsInvisible(z: Zstd, earlier: seq<Action>, y: System, later: seq<Action>, end: System, image: State,
                           moves: seq<Move>, b: Net, keepDead: bool)
    requires Inverse(z) && SavedAt(earlier, y, later, end, image, keepDead)
    requires Serialisable(image) ==> Restore(z, Snapshot(z, image)).Ok? ==>
               Moves(Started(Restore(z, Snapshot(z, image)).value), moves, b, keepDead)
    requires forall i :: 0 <= i < |moves| ==> NotOfOld(y.net, moves[i])
    ensures Serialisable(image) && Restore(z, Snapshot(z, image)) == Ok(y.net.tables)
    ensures exists fails, a ::
              && AllFail(fails) && Actions(FRESH_SYSTEM, earlier + Lifted(fails + moves), System(a, Unsaved), keepDead)
              && Follows(y.net, a, b)
  {
    SavedMeans(earlier, y, later, end, image, keepDead);
    hide *;
    SavedTables(z, earlier, y, later, end, image, keepDead);
    RestartAfterStop(y.net, moves, b, keepDead);
    var fails, a :| AllFail(fails) && Moves(y.net, fails + moves, a, keepDead) && Follows(y.net, a, b);
    LiftMoves(y, fails + moves, a, keepDead);
    ActionsAppend(FRESH_SYSTEM, earlier, y, Lifted(fails + moves), System(a, y.saving), keepDead);
  }

  /** The restarted server misses nothing: what the saved one could do once its connections had broken, it can. */
  lemma RestartMissesNothing(z: Zstd, earlier: seq<Action>, y: System, later: seq<Action>, end: System, image: State,
                             fails: seq<Move>, q: Net, moves: seq<Move>, a: Net, keepDead: bool)
    requires Inverse(z) && SavedAt(earlier, y, later, end, image, keepDead)
    requires AllFail(fails) && Moves(y.net, fails, q, keepDead) && Quiet(q) && Moves(q, moves, a, keepDead)
    ensures Serialisable(image) && Restore(z, Snapshot(z, image)).Ok?
    ensures exists b :: Moves(Started(Restore(z, Snapshot(z, image)).value), moves, b, keepDead) && Follows(y.net, a, b)
  {
    hide *;
    SavedTables(z, earlier, y, later, end, image, keepDead);
    StoppedLine(y.net, fails, q, keepDead);
    StoppedTables(y.net, q);
    RunsBack(q, moves, a, keepDead);
    var b :| Moves(Started(q.tables), moves, b, keepDead) && Follows(q, a, b);
    StoppedFollows(y.net, q, a, b);
  }

  lemma StoppedTables(n: Net, q: Net)
    requires Stopped(n, q)
    ensures q.tables == n.tables
  {
  }

  /** What linearisation says of a session, said of one that began after the restart. */
  lemma OwedAcrossRestart(z: Zstd, earlier: seq<Action>, y: System, later: seq<Action>, end: System, image: State,
                          moves: seq<Move>, b: Net, keepDead: bool, uuid: string)
    requires Inverse(z) && SavedAt(earlier, y, later, end, image, keepDead)
    requires Serialisable(image) ==> Restore(z, Snapshot(z, image)).Ok? ==>
               Moves(Started(Restore(z, Snapshot(z, image)).value), moves, b, keepDead)
    requires forall i :: 0 <= i < |moves| ==> NotOfOld(y.net, moves[i])
    requires uuid in b.handlers && b.handlers[uuid].phase.Idle?
    ensures var h := b.handlers[uuid];
            && h.rx == h.tx == 2 + |h.replies|
            && h.replies == Owed(EMPTY_STATE, y.net.history + b.history, |y.net.history| + h.start, uuid, keepDead)
    ensures b.tables == Run(EMPTY_STATE, y.net.history + b.history, keepDead)
  {
    hide *;
    RestartIsInvisible(z, earlier, y, later, end, image, moves, b, keepDead);
    var fails, a :|
      && AllFail(fails) && Actions(FRESH_SYSTEM, earlier + Lifted(fails + moves), System(a, Unsaved), keepDead)
      && Follows(y.net, a, b);
    OwedAlike(earlier + Lifted(fails + moves), y.net, a, b, keepDead, uuid);
  }

  lemma OwedAlike(actions: seq<Action>, n: Net, a: Net, b: Net, keepDead: bool, uuid: string)
    requires Actions(FRESH_SYSTEM, actions, System(a, Unsaved), keepDead) && Follows(n, a, b)
    requires uuid in b.handlers && b.handlers[uuid].phase.Idle?
    ensures var h := b.handlers[uuid];
            && h.rx == h.tx == 2 + |h.replies|
            && h.replies == Owed(EMPTY_STATE, n.history + b.history, |n.history| + h.start, uuid, keepDead)
    ensures b.tables == Run(EMPTY_STATE, n.history + b.history, keepDead)
  {
    hide Actions, Owed, Run;
    SystemLinearises(EMPTY_STATE, actions, System(a, Unsaved), keepDead);
    var h := a.handlers[uuid];
    assert Counted(h) && Answered(EMPTY_STATE, a.history, uuid, h, keepDead);
    assert h.replies + [] == h.replies;
  }
}
