/** Address ownership and checkpoints under interleaving: what holds of histories holds of the network. */
module InterleavedOwnership {
  import opened Wrappers
  import opened Tables
  import opened Runs
  import opened Ownership
  import opened Interleaving
  import opened Checkpoint
  import opened CheckpointQueues
  import opened CheckpointMoves
  import Reachable

  /** Logins draw UUIDs never used before; administrators keep to the rules of `Allowed`. */
  ghost predicate Orderly(n: Net, used: set<string>, m: Move) {
    match m
    case Connect(uuid) => uuid !in UsedAfter(used, n.history)
    case Other(e) => Allowed(n.tables, UsedAfter(used, n.history), e)
    case _ => true
  }

  ghost predicate OrderlyMoves(n: Net, used: set<string>, moves: seq<Move>, after: Net, keepDead: bool) {
    if moves == [] then n == after
    else
      var init, last := moves[..|moves| - 1], moves[|moves| - 1];
      exists mid :: OrderlyMoves(n, used, init, mid, keepDead) && Enabled(mid, last) && Orderly(mid, used, last) &&
                    after == Next(mid, last, keepDead)
  }

  lemma {:induction false} OrderlyAreMoves(n: Net, used: set<string>, moves: seq<Move>, after: Net, keepDead: bool)
    requires OrderlyMoves(n, used, moves, after, keepDead)
    ensures Moves(n, moves, after, keepDead)
  {
    hide Enabled, Orderly, Next;
    if moves != [] {
      var init, last := moves[..|moves| - 1], moves[|moves| - 1];
      var mid :| OrderlyMoves(n, used, init, mid, keepDead) && Enabled(mid, last) && Orderly(mid, used, last) &&
                 after == Next(mid, last, keepDead);
      OrderlyAreMoves(n, used, init, mid, keepDead);
    }
  }

  lemma AllowedSnoc(s: State, used: set<string>, events: seq<Event>, e: Event, keepDead: bool)
    requires AllowedRun(s, used, events, keepDead)
    requires Allowed(Run(s, events, keepDead), UsedAfter(used, events), e)
    ensures AllowedRun(s, used, events + [e], keepDead)
  {
    hide Allowed, Run, UsedAfter;
    assert (events + [e])[..|events|] == events;
  }

  /** A move adds one event to the history, or none, and an allowed one. */
  lemma HistoryGrows(s0: State, n: Net, used: set<string>, m: Move, keepDead: bool)
    requires n.tables == Run(s0, n.history, keepDead)
    requires AllowedRun(s0, used, n.history, keepDead) && Enabled(n, m) && Orderly(n, used, m)
    ensures AllowedRun(s0, used, Next(n, m, keepDead).history, keepDead)
  {
    hide Run, UsedAfter, Step, AllowedRun, MustWait, MayResume, Requeued, DbLocked;
    var after := Next(n, m, keepDead).history;
    if after != n.history {
      var e := after[|after| - 1];
      assert after == n.history + [e];
      AllowedSnoc(s0, used, n.history, e, keepDead);
    }
  }

  lemma {:induction false} OrderlyHistory(s0: State, used: set<string>, moves: seq<Move>, n: Net, keepDead: bool)
    requires OrderlyMoves(Started(s0), used, moves, n, keepDead)
    ensures AllowedRun(s0, used, n.history, keepDead)
  {
    if moves != [] {
      hide Enabled, Orderly, Next, AllowedRun, Inv;
      var init, last := moves[..|moves| - 1], moves[|moves| - 1];
      var mid :| OrderlyMoves(Started(s0), used, init, mid, keepDead) && Enabled(mid, last) && Orderly(mid, used, last) &&
                 n == Next(mid, last, keepDead);
      OrderlyHistory(s0, used, init, mid, keepDead);
      OrderlyAreMoves(Started(s0), used, init, mid, keepDead);
      EveryRunLinearises(s0, init, mid, keepDead);
      InvTables(s0, mid, keepDead);
      HistoryGrows(s0, mid, used, last, keepDead);
    }
  }

  lemma InvTables(s0: State, n: Net, keepDead: bool)
    requires Inv(s0, n, keepDead)
    ensures n.tables == Run(s0, n.history, keepDead)
  {
    hide Run, Counted, Answered, Holds;
  }

  /** However handlers, crashes, logins and administrators interleave, the book and the clients' lists agree. */
  lemma OwnedUnderInterleaving(used: set<string>, moves: seq<Move>, n: Net, keepDead: bool)
    requires OrderlyMoves(Started(EMPTY_STATE), used, moves, n, keepDead)
    ensures Owned(n.tables)
  {
    hide OrderlyMoves, Moves, AllowedRun, Inv, Owned, Known;
    OrderlyHistory(EMPTY_STATE, used, moves, n, keepDead);
    OrderlyAreMoves(Started(EMPTY_STATE), used, moves, n, keepDead);
    EveryRunLinearises(EMPTY_STATE, moves, n, keepDead);
    InvTables(EMPTY_STATE, n, keepDead);
    EmptyOwned(used);
    OwnedInEveryRun(EMPTY_STATE, used, n.history, keepDead);
  }

  lemma EmptyOwned(used: set<string>)
    ensures Owned(EMPTY_STATE) && Known(EMPTY_STATE, used)
  {
  }

  // ----- Departures -----

  /** BYE waits for nothing. */
  ghost predicate NoByeWaits(n: Net) {
    forall u :: u in n.handlers && n.handlers[u].phase.Waiting? ==> !n.handlers[u].phase.command.Bye?
  }

  lemma PresentSnoc(s: State, events: seq<Event>, e: Event, keepDead: bool)
    requires PresentRun(s, events, keepDead) && Present(Run(s, events, keepDead), e)
    ensures PresentRun(s, events + [e], keepDead)
  {
    hide Present, Run;
    assert (events + [e])[..|events|] == events;
  }

  /** Whoever leaves by BYE or on a refused packet is in the table when it does. */
  lemma PresentGrows(s0: State, n: Net, m: Move, keepDead: bool)
    requires n.tables == Run(s0, n.history, keepDead)
    requires PresentRun(s0, n.history, keepDead) && NoByeWaits(n) && Enabled(n, m)
    ensures PresentRun(s0, Next(n, m, keepDead).history, keepDead) && NoByeWaits(Next(n, m, keepDead))
  {
    hide Run, Step, PresentRun, DbLocked, Requeued, MayResume, Busy;
    var after := Next(n, m, keepDead).history;
    if after != n.history {
      var e := after[|after| - 1];
      assert after == n.history + [e];
      PresentSnoc(s0, n.history, e, keepDead);
    }
  }

  lemma {:induction false} PresentHistory(s0: State, moves: seq<Move>, n: Net, keepDead: bool)
    requires Moves(Started(s0), moves, n, keepDead)
    ensures PresentRun(s0, n.history, keepDead) && NoByeWaits(n)
  {
    if moves != [] {
      hide Enabled, Next, PresentRun, NoByeWaits, Inv;
      var init, last := moves[..|moves| - 1], moves[|moves| - 1];
      var mid :| Moves(Started(s0), init, mid, keepDead) && Enabled(mid, last) && n == Next(mid, last, keepDead);
      PresentHistory(s0, init, mid, keepDead);
      EveryRunLinearises(s0, init, mid, keepDead);
      InvTables(s0, mid, keepDead);
      PresentGrows(s0, mid, last, keepDead);
    }
  }

  /** However they interleave, the book names nobody who has left exactly if no client that owned two addresses has. */
  lemma LiveUnderInterleaving(used: set<string>, moves: seq<Move>, n: Net, keepDead: bool)
    requires OrderlyMoves(Started(EMPTY_STATE), used, moves, n, keepDead)
    ensures Live(n.tables) <==> TidyRun(EMPTY_STATE, n.history, keepDead)
  {
    hide OrderlyMoves, Moves, AllowedRun, PresentRun, TidyRun, Inv, Owned, Known, NoByeWaits;
    OrderlyHistory(EMPTY_STATE, used, moves, n, keepDead);
    OrderlyAreMoves(Started(EMPTY_STATE), used, moves, n, keepDead);
    EveryRunLinearises(EMPTY_STATE, moves, n, keepDead);
    InvTables(EMPTY_STATE, n, keepDead);
    PresentHistory(EMPTY_STATE, moves, n, keepDead);
    EmptyOwned(used);
    LiveRunIff(EMPTY_STATE, used, n.history, keepDead);
  }

  // ----- Checkpoints -----

  /**
   In any run of handlers and a checkpoint, at a moment when no client's outbox lock is held
   or awaited by anybody: a checkpoint begun then can fail on size only, and otherwise loses
   nothing. `SavesItselfIff` says why it has to be such a moment.
   */
  lemma CheckpointUnderInterleaving(z: Zstd, actions: seq<Action>, y: System, keepDead: bool)
    requires Inverse(z) && Actions(FRESH_SYSTEM, actions, y, keepDead) && Reachable.TextualRun(y.net.history)
    requires NoneBusy(y.net)
    ensures var s := y.net.tables;
            && Begin(y.net).saving == (if Reachable.Small(s) then Saved(s) else Raised)
            && (Reachable.Small(s) ==> Serialisable(s) && Restore(z, Snapshot(z, s)) == Ok(s))
            && Begin(y.net).net.tables == AfterSave(s)
  {
    hide *;
    FreshSystem();
    SystemLinearises(EMPTY_STATE, actions, y, keepDead);
    InvTables(EMPTY_STATE, y.net, keepDead);
    Reachable.EveryRunIsLossless(z, y.net.history, keepDead);
    BeginsFree(y.net);
  }

  lemma FreshSystem()
    ensures FRESH_SYSTEM == System(Started(EMPTY_STATE), Unsaved)
  {
  }
}
