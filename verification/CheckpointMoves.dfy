/**
 `serialize` among the handlers: it runs without a pause unless it has to queue for
 the lock of an outbox, and then waits with half of the tables already written.
 */
module CheckpointMoves {
  import opened Wrappers
  import opened Dicts
  import opened Tables
  import opened Commands
  import opened Runs
  import opened Interleaving
  import opened Queueing
  import opened Checkpoint
  import opened CheckpointQueues

  /**
   `image` holds what is already written, as the tables it would be restored to;
   `head` the part of the present client that is written before the wait.
   */
  datatype Saving =
    | Unsaved
    | Suspended(keys: seq<string>, at: nat, image: State, head: ClientRecord)    // in line for the outbox of keys[at]
    | Saved(image: State)                                                        // returned the snapshot of this
    | Raised

  datatype System = System(net: Net, saving: Saving)

  datatype Action =
    | NetMove(move: Move)  // a handler, a login, an administrator
    | SaveStart
    | SaveResume           // its turn for the outbox lock has come

  /** The checkpoint's place in line. */
  function SavePlace(uuid: string): Place {
    Place(None, Outbox(uuid))
  }

  /** No client's outbox lock is held by anybody, or awaited by anybody. */
  ghost predicate NoneBusy(n: Net) {
    forall u :: u in n.tables.clients.vals ==> !Busy(n, Outbox(u))
  }

  // ----- One await-free stretch -----

  function Draining(n: Net, uuid: string, taken: nat): Net {
    n.(tables := TakeOff(n.tables, uuid, taken), history := n.history + [Drain(uuid, taken)])
  }

  function Written(image: State, key: string, c: ClientRecord): State {
    image.(clients := Put(image.clients, key, c))
  }

  /**
   The loop over `client_db.values()` from position i on. The iterator raises once
   the dictionary has changed, also when it is asked for one entry too many.
   */
  ghost function Visit(n: Net, keys: seq<string>, i: nat, image: State): (Net, Saving)
    requires i <= |keys|
    decreases |keys| - i
  {
    if n.tables.clients.keys != keys then (n, Raised)
    else if i == |keys| then (n, if Serialisable(image) then Saved(image) else Raised)
    else
      NextKey(n.tables.clients, i);
      var c := n.tables.clients.vals[keys[i]];
      var m := Draining(n, keys[i], TakenFrom(c));
      if !HeadOk(c) || !InboxOk(c.inbox) then (m, Raised)
      else if Busy(n, Outbox(keys[i])) then (m.(line := n.line + [SavePlace(keys[i])]), Suspended(keys, i, image, c))
      else if !OutboxOk(c.outbox) then (m, Raised)
      else Visit(m, keys, i + 1, Written(image, keys[i], c))
  }

  /** From the call to the first wait, or to the end. */
  ghost function Begin(n: Net): System {
    var s := n.tables;
    if !DbOk(s.db) || !BookOk(s.addressBook) then System(n, Raised)
    else
      var (m, saving) := Visit(n, s.clients.keys, 0, s.(clients := NO_CLIENTS));
      System(m, saving)
  }

  /** The outbox is read only now; if the client has left, the iterator raises. */
  ghost function Proceed(n: Net, keys: seq<string>, at: nat, image: State, head: ClientRecord): System
    requires at < |keys|
  {
    var m := n.(line := Without(n.line, None));
    if keys[at] !in n.tables.clients.vals then System(m, Raised)
    else
      var outbox := n.tables.clients.vals[keys[at]].outbox;
      if !OutboxOk(outbox) then System(m, Raised)
      else
        var (after, saving) := Visit(m, keys, at + 1, Written(image, keys[at], head.(outbox := outbox)));
        System(after, saving)
  }

  // ----- Runs -----

  ghost predicate CanDo(y: System, action: Action) {
    match action
    case NetMove(move) => Enabled(y.net, move)
    case SaveStart => y.saving.Unsaved?
    case SaveResume =>
      && y.saving.Suspended? && y.saving.at < |y.saving.keys|
      && var u := y.saving.keys[y.saving.at];
         !Held(y.net, Outbox(u)) && First(y.net.line, SavePlace(u))
  }

  ghost function Do(y: System, action: Action, keepDead: bool): System
    requires CanDo(y, action)
  {
    match action
    case NetMove(move) => System(Next(y.net, move, keepDead), y.saving)
    case SaveStart => Begin(y.net)
    case SaveResume => Proceed(y.net, y.saving.keys, y.saving.at, y.saving.image, y.saving.head)
  }

  const FRESH_SYSTEM: System := System(Started(EMPTY_STATE), Unsaved)

  ghost predicate Actions(y: System, actions: seq<Action>, after: System, keepDead: bool) {
    if actions == [] then y == after
    else
      var init, last := actions[..|actions| - 1], actions[|actions| - 1];
      exists mid :: Actions(y, init, mid, keepDead) && CanDo(mid, last) && after == Do(mid, last, keepDead)
  }

  lemma ActionsSnoc(y: System, actions: seq<Action>, mid: System, last: Action, keepDead: bool)
    requires Actions(y, actions, mid, keepDead) && CanDo(mid, last)
    ensures Actions(y, actions + [last], Do(mid, last, keepDead), keepDead)
  {
    hide CanDo, Do;
    assert (actions + [last])[..|actions|] == actions;
  }

  lemma ActionsOne(y: System, action: Action, keepDead: bool)
    requires CanDo(y, action)
    ensures Actions(y, [action], Do(y, action, keepDead), keepDead)
  {
    hide CanDo, Do;
    assert Actions(y, [], y, keepDead);
    ActionsSnoc(y, [], y, action, keepDead);
    assert [] + [action] == [action];
  }

  lemma {:induction false} ActionsAppend(y: System, first: seq<Action>, mid: System, actions: seq<Action>, after: System,
                                         keepDead: bool)
    requires Actions(y, first, mid, keepDead) && Actions(mid, actions, after, keepDead)
    ensures Actions(y, first + actions, after, keepDead)
  {
    hide CanDo, Do;
    if actions == [] {
      assert first + actions == first;
    } else {
      var init, last := actions[..|actions| - 1], actions[|actions| - 1];
      var before :| Actions(mid, init, before, keepDead) && CanDo(before, last) && after == Do(before, last, keepDead);
      ActionsAppend(y, first, mid, init, before, keepDead);
      assert (first + actions)[..|first + actions| - 1] == first + init;
    }
  }

  // ----- Without a wait -----

  lemma VisitFree(n: Net, keys: seq<string>, i: nat, image: State)
    requires n.tables.clients.keys == keys && i < |keys|
    requires keys[i] in n.tables.clients.vals && !Busy(n, Outbox(keys[i]))
    ensures var c := n.tables.clients.vals[keys[i]];
            var m := Draining(n, keys[i], TakenFrom(c));
            Visit(n, keys, i, image) == if ClientOk(c) then Visit(m, keys, i + 1, Written(image, keys[i], c)) else (m, Raised)
  {
    hide HeadOk, InboxOk, OutboxOk, ClientOk, TakenFrom, Draining, Busy, Serialisable, Written;
    ClientOkParts(n.tables.clients.vals[keys[i]]);
  }

  /** What holds before the i-th client is visited, if none had to be waited for. */
  ghost predicate Visiting(n: Net, i: nat, m: Net, image: State) {
    var s := n.tables;
    && i <= |s.clients.keys|
    && m == n.(tables := Drained(s, i), history := n.history + SaveEvents(s, i))
    && FirstBad(s.clients, 0) == FirstBad(s.clients, i)
    && image == s.(clients := Prefix(s.clients, i))
  }

  lemma VisitingNone(n: Net)
    ensures Visiting(n, 0, n, n.tables.(clients := NO_CLIENTS))
  {
    assert n.history + [] == n.history;
    PrefixNone(n.tables.clients);
  }

  lemma VisitingCurrent(n: Net, i: nat, m: Net, image: State)
    requires Visiting(n, i, m, image) && i < |n.tables.clients.keys|
    ensures var u := n.tables.clients.keys[i];
            && m.tables.clients.keys == n.tables.clients.keys && m.handlers == n.handlers && m.line == n.line
            && u in n.tables.clients.vals && u in m.tables.clients.vals
            && m.tables.clients.vals[u] == n.tables.clients.vals[u]
  {
    hide Drained, TakenFrom, FirstBad, SaveEvents, Prefix;
    DrainedIs(n.tables, i, i);
  }

  lemma VisitingStep(n: Net, i: nat, m: Net, image: State)
    requires Visiting(n, i, m, image) && i < |n.tables.clients.keys|
    ensures n.tables.clients.keys[i] in n.tables.clients.vals
    ensures var u := n.tables.clients.keys[i];
            var c := n.tables.clients.vals[u];
            && Draining(m, u, TakenFrom(c)) ==
               n.(tables := Drained(n.tables, i + 1), history := n.history + SaveEvents(n.tables, i + 1))
            && (ClientOk(c) ==> Visiting(n, i + 1, Draining(m, u, TakenFrom(c)), Written(image, u, c)))
            && (!ClientOk(c) ==> FirstBad(n.tables.clients, 0) == i)
  {
    hide Drained, ClientOk, TakenFrom, SaveEvents, TakeOff, Prefix;
    var s := n.tables;
    DrainedStep(s, i);
    SaveEventsStep(s, i);
    PrefixStep(s.clients, i);
    var e := Drain(s.clients.keys[i], TakenFrom(s.clients.vals[s.clients.keys[i]]));
    assert n.history + SaveEvents(s, i) + [e] == n.history + (SaveEvents(s, i) + [e]);
  }

  /** How a checkpoint that does not wait ends. */
  ghost predicate EndsAt(n: Net, m: Net, saving: Saving) {
    var s := n.tables;
    var bad := FirstBad(s.clients, 0);
    var reached := if bad < |s.clients.keys| then bad + 1 else bad;
    && m == n.(tables := Drained(s, reached), history := n.history + SaveEvents(s, reached))
    && saving == if bad == |s.clients.keys| && Serialisable(s) then Saved(s) else Raised
  }

  lemma EndsWith(n: Net, m: Net, image: State)
    requires Visiting(n, |n.tables.clients.keys|, m, image)
    ensures var saving := if Serialisable(image) then Saved(image) else Raised;
            && Visit(m, n.tables.clients.keys, |n.tables.clients.keys|, image) == (m, saving)
            && EndsAt(n, m, saving)
  {
    hide Serialisable, SaveEvents, Prefix;
    DrainedKeys(n.tables, |n.tables.clients.keys|);
    PrefixAll(n.tables.clients);
  }

  lemma DrainedKeys(s: State, n: nat)
    requires n <= |s.clients.keys|
    ensures Drained(s, n).clients.keys == s.clients.keys
  {
    hide Drained;
    if |s.clients.keys| > 0 {
      DrainedIs(s, n, 0);
    } else {
      DrainedNone(s);
    }
  }

  lemma {:induction false} VisitAllFree(n: Net, i: nat, m: Net, image: State)
    requires Visiting(n, i, m, image) && NoneBusy(n)
    ensures var (after, saving) := Visit(m, n.tables.clients.keys, i, image);
            EndsAt(n, after, saving)
    decreases |n.tables.clients.keys| - i
  {
    hide *;
    var keys := n.tables.clients.keys;
    VisitingBound(n, i, m, image);
    if i == |keys| {
      EndsWith(n, m, image);
    } else {
      VisitingCurrent(n, i, m, image);
      VisitingStep(n, i, m, image);
      FreeAlike(n, m, keys[i]);
      VisitFree(m, keys, i, image);
      var c := n.tables.clients.vals[keys[i]];
      if ClientOk(c) {
        VisitAllFree(n, i + 1, Draining(m, keys[i], TakenFrom(c)), Written(image, keys[i], c));
      } else {
        EndsBadly(n, i, m, image);
      }
    }
  }

  lemma VisitingBound(n: Net, i: nat, m: Net, image: State)
    requires Visiting(n, i, m, image)
    ensures i <= |n.tables.clients.keys|
  {
  }

  lemma FreeAlike(n: Net, m: Net, uuid: string)
    requires NoneBusy(n) && m.handlers == n.handlers && m.line == n.line && uuid in n.tables.clients.vals
    ensures !Busy(m, Outbox(uuid))
  {
    assert !Busy(n, Outbox(uuid));
  }

  lemma EndsBadly(n: Net, i: nat, m: Net, image: State)
    requires Visiting(n, i, m, image) && i < |n.tables.clients.keys|
    requires n.tables.clients.keys[i] in n.tables.clients.vals && !ClientOk(n.tables.clients.vals[n.tables.clients.keys[i]])
    ensures var u := n.tables.clients.keys[i];
            EndsAt(n, Draining(m, u, TakenFrom(n.tables.clients.vals[u])), Raised)
  {
    hide ClientOk, Visiting, Drained, Draining, SaveEvents, FirstBad, Serialisable;
    VisitingStep(n, i, m, image);
  }

  lemma BeginsEnd(n: Net, m: Net, saving: Saving)
    requires EndsAt(n, m, saving) && DbOk(n.tables.db) && BookOk(n.tables.addressBook)
    ensures m == n.(tables := AfterSave(n.tables), history := n.history + SaveEvents(n.tables, Reached(n.tables)))
    ensures saving == if Serialisable(n.tables) then Saved(n.tables) else Raised
  {
    hide FirstBad, Drained, SaveEvents, DbOk, BookOk, ClientsOk, TablesFit, StateFields;
    FirstBadNone(n.tables.clients, 0);
  }

  /**
   While no outbox lock is held or awaited, a checkpoint runs through: it returns the snapshot of
   the present tables exactly if they can be written, and leaves the tables `AfterSave` describes.
   */
  lemma BeginsFree(n: Net)
    requires NoneBusy(n)
    ensures Begin(n).net == n.(tables := AfterSave(n.tables), history := n.history + SaveEvents(n.tables, Reached(n.tables)))
    ensures Begin(n).saving == if Serialisable(n.tables) then Saved(n.tables) else Raised
  {
    hide Visit, DbOk, BookOk, ClientsOk, TablesFit, StateFields, EndsAt, Visiting, Drained, SaveEvents, NoneBusy;
    var s := n.tables;
    if DbOk(s.db) && BookOk(s.addressBook) {
      VisitingNone(n);
      VisitAllFree(n, 0, n, s.(clients := NO_CLIENTS));
      var (m, saving) := Visit(n, s.clients.keys, 0, s.(clients := NO_CLIENTS));
      BeginsEnd(n, m, saving);
    } else {
      NoEvents(n);
    }
  }

  lemma NoEvents(n: Net)
    requires !DbOk(n.tables.db) || !BookOk(n.tables.addressBook)
    ensures n == n.(tables := AfterSave(n.tables), history := n.history + SaveEvents(n.tables, Reached(n.tables)))
    ensures !Serialisable(n.tables)
  {
    hide DbOk, BookOk, ClientsOk, TablesFit;
    SaveFailsEarly(n.tables);
    assert n.history + [] == n.history;
  }

  // ----- The line, with a checkpoint in it -----

  /** A checkpoint stands in line exactly while it waits. */
  ghost predicate SystemLine(y: System) {
    && LineOk(y.net)
    && (if y.saving.Suspended? then y.saving.at < |y.saving.keys| && SavePlace(y.saving.keys[y.saving.at]) in y.net.line
        else NoSave(y.net.line))
  }

  lemma SaveQueues(n: Net, uuid: string)
    requires LineOk(n) && NoSave(n.line)
    ensures LineOk(n.(line := n.line + [SavePlace(uuid)]))
  {
    SingleSnoc(n.line, SavePlace(uuid));
  }

  lemma SaveLeaves(n: Net)
    requires LineOk(n)
    ensures LineOk(n.(line := Without(n.line, None))) && NoSave(Without(n.line, None))
  {
    hide Needs;
    var line := Without(n.line, None);
    WithoutSingle(n.line, None);
    forall p: Place
      ensures p in line <==> p in n.line && p.who.Some?
    {
      WithoutMembers(n.line, None, p);
    }
    forall i | 0 <= i < |line|
      ensures line[i].who.Some?
    {
      assert line[i] in line;
    }
    forall u, p | u in n.handlers && p in PlaceOf(u, n.handlers[u])
      ensures p in line
    {
      assert p in n.line;
    }
  }

  lemma {:induction false} VisitLine(n: Net, keys: seq<string>, i: nat, image: State)
    requires LineOk(n) && NoSave(n.line) && i <= |keys|
    ensures var (m, saving) := Visit(n, keys, i, image);
            SystemLine(System(m, saving))
    decreases |keys| - i
  {
    hide LineOk, NoSave, HeadOk, InboxOk, OutboxOk, TakenFrom, Busy, Serialisable, Written, TakeOff;
    if n.tables.clients.keys == keys && i < |keys| {
      NextKey(n.tables.clients, i);
      var c := n.tables.clients.vals[keys[i]];
      var m := Draining(n, keys[i], TakenFrom(c));
      SameLine(n, m);
      SaveQueues(m, keys[i]);
      VisitLine(m, keys, i + 1, Written(image, keys[i], c));
    }
  }

  lemma DoLine(y: System, action: Action, keepDead: bool)
    requires SystemLine(y) && CanDo(y, action)
    ensures SystemLine(Do(y, action, keepDead))
  {
    hide LineOk, NoSave, Visit, Enabled, Next, DbOk, BookOk, Held, First, Written;
    match action
    case NetMove(move) =>
      NextLine(y.net, move, keepDead);
    case SaveStart =>
      VisitLine(y.net, y.net.tables.clients.keys, 0, y.net.tables.(clients := NO_CLIENTS));
    case SaveResume =>
      ProceedLine(y.net, y.saving.keys, y.saving.at, y.saving.image, y.saving.head);
  }

  lemma ProceedLine(n: Net, keys: seq<string>, at: nat, image: State, head: ClientRecord)
    requires LineOk(n) && at < |keys|
    ensures SystemLine(Proceed(n, keys, at, image, head))
  {
    hide LineOk, NoSave, Visit, OutboxOk, Written;
    SaveLeaves(n);
    if keys[at] in n.tables.clients.vals {
      var outbox := n.tables.clients.vals[keys[at]].outbox;
      VisitLine(n.(line := Without(n.line, None)), keys, at + 1, Written(image, keys[at], head.(outbox := outbox)));
    }
  }

  lemma {:induction false} LineInEverySystem(y: System, actions: seq<Action>, end: System, keepDead: bool)
    requires SystemLine(y) && Actions(y, actions, end, keepDead)
    ensures SystemLine(end)
  {
    hide SystemLine, CanDo, Do;
    if actions != [] {
      var init, last := actions[..|actions| - 1], actions[|actions| - 1];
      var mid :| Actions(y, init, mid, keepDead) && CanDo(mid, last) && end == Do(mid, last, keepDead);
      LineInEverySystem(y, init, mid, keepDead);
      DoLine(mid, last, keepDead);
    }
  }

  lemma FreshLine(tables: State)
    ensures SystemLine(System(Started(tables), Unsaved))
  {
    StartedLine(tables);
  }

  // ----- Handlers and a checkpoint together still linearise -----

  lemma DrainingKeeps(s0: State, n: Net, uuid: string, taken: nat, keepDead: bool)
    requires Inv(s0, n, keepDead)
    ensures Inv(s0, Draining(n, uuid, taken), keepDead)
  {
    hide Inv, TakeOff;
    var move := Other(Drain(uuid, taken));
    assert Next(n, move, keepDead) == Draining(n, uuid, taken);
    MoveKeeps(s0, n, move, keepDead);
  }

  lemma LineAside(s0: State, n: Net, line: seq<Place>, keepDead: bool)
    requires Inv(s0, n, keepDead)
    ensures Inv(s0, n.(line := line), keepDead)
  {
    hide Run, Counted, Answered;
  }

  lemma {:induction false} VisitKeeps(s0: State, n: Net, keys: seq<string>, i: nat, image: State, keepDead: bool)
    requires Inv(s0, n, keepDead) && i <= |keys|
    ensures Inv(s0, Visit(n, keys, i, image).0, keepDead)
    decreases |keys| - i
  {
    hide Inv, HeadOk, InboxOk, OutboxOk, TakenFrom, Draining, Busy, Serialisable, Written;
    if n.tables.clients.keys == keys && i < |keys| {
      NextKey(n.tables.clients, i);
      var c := n.tables.clients.vals[keys[i]];
      var m := Draining(n, keys[i], TakenFrom(c));
      DrainingKeeps(s0, n, keys[i], TakenFrom(c), keepDead);
      LineAside(s0, m, n.line + [SavePlace(keys[i])], keepDead);
      VisitKeeps(s0, m, keys, i + 1, Written(image, keys[i], c), keepDead);
    }
  }

  lemma DoKeeps(s0: State, y: System, action: Action, keepDead: bool)
    requires Inv(s0, y.net, keepDead) && CanDo(y, action)
    ensures Inv(s0, Do(y, action, keepDead).net, keepDead)
  {
    hide Inv, Visit, Enabled, Next, DbOk, BookOk, Held, First;
    match action
    case NetMove(move) => MoveKeeps(s0, y.net, move, keepDead);
    case SaveStart =>
      VisitKeeps(s0, y.net, y.net.tables.clients.keys, 0, y.net.tables.(clients := NO_CLIENTS), keepDead);
    case SaveResume =>
      ProceedKeeps(s0, y.net, y.saving.keys, y.saving.at, y.saving.image, y.saving.head, keepDead);
  }

  lemma ProceedKeeps(s0: State, n: Net, keys: seq<string>, at: nat, image: State, head: ClientRecord, keepDead: bool)
    requires Inv(s0, n, keepDead) && at < |keys|
    ensures Inv(s0, Proceed(n, keys, at, image, head).net, keepDead)
  {
    hide Inv, Visit, OutboxOk, Written;
    var m := n.(line := Without(n.line, None));
    LineAside(s0, n, Without(n.line, None), keepDead);
    if keys[at] in n.tables.clients.vals {
      var outbox := n.tables.clients.vals[keys[at]].outbox;
      VisitKeeps(s0, m, keys, at + 1, Written(image, keys[at], head.(outbox := outbox)), keepDead);
    }
  }

  /** A checkpoint in the middle, waiting or not, changes nothing of what `EveryRunLinearises` says. */
  lemma {:induction false} SystemLinearises(s0: State, actions: seq<Action>, y: System, keepDead: bool)
    requires Actions(System(Started(s0), Unsaved), actions, y, keepDead)
    ensures Inv(s0, y.net, keepDead)
  {
    hide Inv, CanDo, Do, Started;
    if actions == [] {
      InitialInv(s0, keepDead);
    } else {
      var init, last := actions[..|actions| - 1], actions[|actions| - 1];
      var mid :| Actions(System(Started(s0), Unsaved), init, mid, keepDead) && CanDo(mid, last) && y == Do(mid, last, keepDead);
      SystemLinearises(s0, init, mid, keepDead);
      DoKeeps(s0, mid, last, keepDead);
    }
  }
}
