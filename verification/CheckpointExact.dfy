/** When a checkpoint is one of the present tables, exactly: no outbox lock is held, and none is awaited. */
module CheckpointExact {
  import opened Wrappers
  import opened Bytes
  import opened Dicts
  import opened Tables
  import opened Wire
  import opened Commands
  import opened Runs
  import opened Interleaving
  import opened Queueing
  import opened Checkpoint
  import opened CheckpointQueues
  import opened CheckpointMoves

  // ----- A checkpoint that has to wait does wait -----

  /** Every client from position i on can be written. */
  ghost predicate RestOk(n: Net, keys: seq<string>, i: nat) {
    && n.tables.clients.keys == keys
    && forall k :: i <= k < |keys| ==> keys[k] in n.tables.clients.vals && ClientOk(n.tables.clients.vals[keys[k]])
  }

  /** In line for an outbox, with the table of clients still whole. */
  ghost predicate Halfway(y: System, keys: seq<string>) {
    && y.saving.Suspended? && y.saving.keys == keys == y.net.tables.clients.keys && y.saving.at < |keys|
    && keys[y.saving.at] in y.net.tables.clients.vals
  }

  lemma DrainingKeepsRest(n: Net, keys: seq<string>, i: nat, taken: nat)
    requires RestOk(n, keys, i) && i < |keys|
    ensures RestOk(Draining(n, keys[i], taken), keys, i + 1)
    ensures Draining(n, keys[i], taken).tables.clients.vals.Keys == n.tables.clients.vals.Keys
  {
    hide ClientOk, TakeOff;
    KeysOf(n.tables.clients);
    TakeOffKeeps(n.tables, keys[i], taken);
  }

  lemma DrainingAlike(n: Net, uuid: string, taken: nat, other: string)
    ensures Draining(n, uuid, taken).handlers == n.handlers && Draining(n, uuid, taken).line == n.line
    ensures Busy(Draining(n, uuid, taken), Outbox(other)) <==> Busy(n, Outbox(other))
    ensures Draining(n, uuid, taken).tables.clients.keys == n.tables.clients.keys
  {
  }

  lemma {:induction false} VisitToLock(n: Net, keys: seq<string>, i: nat, image: State, j: nat)
    requires RestOk(n, keys, i) && i <= j < |keys| && Busy(n, Outbox(keys[j]))
    ensures var (m, saving) := Visit(n, keys, i, image);
            m.handlers == n.handlers && m.tables.clients.vals.Keys == n.tables.clients.vals.Keys && Halfway(System(m, saving), keys)
    decreases j - i
  {
    hide HeadOk, InboxOk, OutboxOk, ClientOk, TakenFrom, Draining, Busy, Serialisable, Written;
    var c := n.tables.clients.vals[keys[i]];
    var m := Draining(n, keys[i], TakenFrom(c));
    ClientOkParts(c);
    DrainingKeepsRest(n, keys, i, TakenFrom(c));
    DrainingAlike(n, keys[i], TakenFrom(c), keys[j]);
    if !Busy(n, Outbox(keys[i])) {
      VisitFree(n, keys, i, image);
      VisitToLock(m, keys, i + 1, Written(image, keys[i], c), j);
    }
  }

  lemma BeginsToWait(n: Net)
    requires Serialisable(n.tables) && !NoneBusy(n)
    ensures Halfway(Begin(n), n.tables.clients.keys)
    ensures Begin(n).net.handlers == n.handlers && Begin(n).net.tables.clients.vals.Keys == n.tables.clients.vals.Keys
  {
    hide Visit, TablesFit, DbOk, BookOk, ClientOk, Busy, Halfway;
    KeysOf(n.tables.clients);
    var u :| u in n.tables.clients.vals && Busy(n, Outbox(u));
    var j :| 0 <= j < |n.tables.clients.keys| && n.tables.clients.keys[j] == u;
    VisitToLock(n, n.tables.clients.keys, 0, n.tables.(clients := NO_CLIENTS), j);
  }

  // ----- Its turn can come -----

  /** Everything that matters to a checkpoint in line for the outbox of uuid, at position k. */
  ghost predicate InLine(y: System, uuid: string, k: nat) {
    && SystemLine(y) && y.saving.Suspended? && y.saving.keys[y.saving.at] == uuid
    && uuid in y.net.tables.clients.vals
    && k < |y.net.line| && y.net.line[k] == SavePlace(uuid)
  }

  /** The reply to the owner's GET_OUTBOX goes out: the lock is free. */
  lemma ReplyFrees(y: System, uuid: string, k: nat, keepDead: bool)
    requires InLine(y, uuid, k) && Held(y.net, Outbox(uuid))
    ensures CanDo(y, NetMove(Sent(uuid)))
    ensures var y1 := Do(y, NetMove(Sent(uuid)), keepDead);
            && InLine(y1, uuid, k) && !Held(y1.net, Outbox(uuid))
            && y1.saving == y.saving && y1.net.tables == y.net.tables
  {
    hide LineOk, NoSave, Needs, Without;
    DoLine(y, NetMove(Sent(uuid)), keepDead);
    SendingNotInLine(y.net, uuid);
  }

  lemma SendingNotInLine(n: Net, uuid: string)
    requires LineOk(n) && uuid in n.handlers && !n.handlers[uuid].phase.Waiting?
    ensures Without(n.line, Some(uuid)) == n.line
  {
    WithoutAbsent(n.line, Some(uuid));
  }

  /** The handler first in line for that lock gets it. */
  lemma FirstGoes(y: System, uuid: string, k: nat, i: nat, keepDead: bool)
    requires InLine(y, uuid, k) && !Held(y.net, Outbox(uuid))
    requires i < k && y.net.line[i].what == Outbox(uuid) && forall j :: 0 <= j < i ==> y.net.line[j].what != Outbox(uuid)
    ensures y.net.line[i].who.Some? && CanDo(y, NetMove(Resume(y.net.line[i].who.value)))
    ensures var y1 := Do(y, NetMove(Resume(y.net.line[i].who.value)), keepDead);
            InLine(y1, uuid, k - 1) && y1.saving == y.saving && y1.net.tables.clients.keys == y.net.tables.clients.keys
  {
    hide NoSave, Without, Serve, Next;
    var line := y.net.line;
    assert Single(line) && line[i].who != line[k].who;
    var w := line[i].who.value;
    assert line[i] in line;
    assert w in y.net.handlers && PlaceOf(w, y.net.handlers[w]) == [line[i]];
    var h := y.net.handlers[w];
    assert First(line, Place(Some(w), Outbox(uuid)));
    assert MayResume(y.net, w, h.phase.command);
    DoLine(y, NetMove(Resume(w)), keepDead);
    ResumedLine(y.net, w, keepDead);
    ResumedKeys(y.net, w, uuid, keepDead);
    WithoutOne(line, i);
    assert (line[..i] + line[i + 1..])[k - 1] == line[k];
  }

  lemma ResumedLine(n: Net, w: string, keepDead: bool)
    requires Enabled(n, Resume(w))
    ensures Next(n, Resume(w), keepDead).line == Without(n.line, Some(w))
  {
    hide Step, MayResume, Without;
    assert Without(n.line, Some(w)) + [] == Without(n.line, Some(w));
  }

  /** A mailbox command leaves the table of clients with the same keys. */
  lemma ResumedKeys(n: Net, w: string, owner: string, keepDead: bool)
    requires Enabled(n, Resume(w)) && Needs(w, n.handlers[w].phase.command) == Some(Outbox(owner))
    requires owner in n.tables.clients.vals
    ensures Next(n, Resume(w), keepDead).tables.clients.keys == n.tables.clients.keys
    ensures Next(n, Resume(w), keepDead).tables.clients.vals.Keys == n.tables.clients.vals.Keys
  {
    hide MayResume, Requeued, Answer, OutboxReply, Decode, Encode;
  }

  lemma {:induction false} TurnComes(y: System, uuid: string, k: nat, keepDead: bool)
    requires InLine(y, uuid, k)
    ensures exists actions, z ::
              && Actions(y, actions, z, keepDead) && z.saving == y.saving
              && z.net.tables.clients.keys == y.net.tables.clients.keys && CanDo(z, SaveResume)
    decreases k, if Held(y.net, Outbox(uuid)) then 1 else 0
  {
    hide Do, CanDo, Actions, SystemLine, Held;
    if Held(y.net, Outbox(uuid)) {
      ReplyFrees(y, uuid, k, keepDead);
      var y1 := Do(y, NetMove(Sent(uuid)), keepDead);
      TurnComes(y1, uuid, k, keepDead);
      TurnAfter(y, NetMove(Sent(uuid)), y1, keepDead);
    } else if Queued(y.net.line[..k], Outbox(uuid)) {
      var i := FirstOf(y.net.line[..k], Outbox(uuid));
      FirstGoes(y, uuid, k, i, keepDead);
      var move := NetMove(Resume(y.net.line[i].who.value));
      var y1 := Do(y, move, keepDead);
      TurnComes(y1, uuid, k - 1, keepDead);
      TurnAfter(y, move, y1, keepDead);
    } else {
      TurnIsHere(y, uuid, k);
      assert Actions(y, [], y, keepDead) by {
        NoActions(y, keepDead);
      }
    }
  }

  predicate Queued(line: seq<Place>, what: Resource) {
    exists i :: 0 <= i < |line| && line[i].what == what
  }

  /** The first place for this lock. */
  function FirstOf(line: seq<Place>, what: Resource): (i: nat)
    requires Queued(line, what)
    ensures i < |line| && line[i].what == what && forall j :: 0 <= j < i ==> line[j].what != what
  {
    if line[0].what == what then 0
    else
      assert exists i :: 0 <= i < |line[1..]| && line[1..][i].what == what by {
        var i :| 0 <= i < |line| && line[i].what == what;
        assert line[1..][i - 1] == line[i];
      }
      1 + FirstOf(line[1..], what)
  }

  lemma NoActions(y: System, keepDead: bool)
    ensures Actions(y, [], y, keepDead)
  {
  }

  lemma TurnIsHere(y: System, uuid: string, k: nat)
    requires InLine(y, uuid, k) && !Held(y.net, Outbox(uuid)) && !Queued(y.net.line[..k], Outbox(uuid))
    ensures CanDo(y, SaveResume)
  {
    hide LineOk, Held;
    forall j | 0 <= j < k
      ensures y.net.line[j].what != Outbox(uuid)
    {
      assert y.net.line[..k][j] == y.net.line[j];
    }
  }

  lemma TurnAfter(y: System, action: Action, y1: System, keepDead: bool)
    requires CanDo(y, action) && y1 == Do(y, action, keepDead) && y1.saving == y.saving
    requires y1.net.tables.clients.keys == y.net.tables.clients.keys
    requires exists actions, z ::
              && Actions(y1, actions, z, keepDead) && z.saving == y1.saving
              && z.net.tables.clients.keys == y1.net.tables.clients.keys && CanDo(z, SaveResume)
    ensures exists actions, z ::
              && Actions(y, actions, z, keepDead) && z.saving == y.saving
              && z.net.tables.clients.keys == y.net.tables.clients.keys && CanDo(z, SaveResume)
  {
    hide Do, CanDo, Actions;
    var actions, z :|
      && Actions(y1, actions, z, keepDead) && z.saving == y1.saving
      && z.net.tables.clients.keys == y1.net.tables.clients.keys && CanDo(z, SaveResume);
    ActionsOne(y, action, keepDead);
    ActionsAppend(y, [action], y1, actions, z, keepDead);
  }

  // ----- A login on the way -----

  lemma LoginWhileHalfway(y: System, keys: seq<string>, v: string, keepDead: bool)
    requires Halfway(y, keys) && SystemLine(y) && v !in y.net.handlers && v !in y.net.tables.clients.vals
    ensures CanDo(y, NetMove(Connect(v)))
    ensures var y1 := Do(y, NetMove(Connect(v)), keepDead);
            && y1.saving == y.saving && y1.net.tables.clients.keys == keys + [v]
            && exists k :: InLine(y1, keys[y.saving.at], k)
  {
    hide LineOk, NoSave, Requeued;
    DoLine(y, NetMove(Connect(v)), keepDead);
    var y1 := Do(y, NetMove(Connect(v)), keepDead);
    var u := keys[y.saving.at];
    var k :| 0 <= k < |y1.net.line| && y1.net.line[k] == SavePlace(u);
    assert InLine(y1, u, k);
  }

  lemma ResumeFinds(y: System)
    requires CanDo(y, SaveResume) && y.net.tables.clients.keys != y.saving.keys
    ensures Do(y, SaveResume, true).saving == Raised && Do(y, SaveResume, false).saving == Raised
  {
    hide Serialisable, OutboxOk, HeadOk, InboxOk, Written, Held, First, Without;
  }

  /** Once its turn comes, a checkpoint whose dictionary has changed raises. */
  lemma RaisesAtItsTurn(y: System, uuid: string, k: nat, keepDead: bool)
    requires InLine(y, uuid, k) && y.saving.Suspended? && y.net.tables.clients.keys != y.saving.keys
    ensures exists actions, end :: Actions(y, actions, end, keepDead) && end.saving == Raised
  {
    hide CanDo, Do, Actions, InLine;
    TurnComes(y, uuid, k, keepDead);
    var actions, z :|
      && Actions(y, actions, z, keepDead) && z.saving == y.saving
      && z.net.tables.clients.keys == y.net.tables.clients.keys && CanDo(z, SaveResume);
    ResumeFinds(z);
    ActionsSnoc(y, actions, z, SaveResume, keepDead);
  }

  /** So a checkpoint that waits can be made to raise. */
  lemma RaisesAfterLogin(y: System, keys: seq<string>, v: string, keepDead: bool)
    requires Halfway(y, keys) && SystemLine(y) && v !in y.net.handlers && v !in y.net.tables.clients.vals
    ensures exists rest, end :: Actions(y, [NetMove(Connect(v))] + rest, end, keepDead) && end.saving == Raised
  {
    hide CanDo, Do, Actions, Halfway, SystemLine, InLine;
    HalfwayMeans(y, keys);
    LoginWhileHalfway(y, keys, v, keepDead);
    var y1 := Do(y, NetMove(Connect(v)), keepDead);
    var k :| InLine(y1, keys[y.saving.at], k);
    assert |keys + [v]| != |keys|;
    RaisesAtItsTurn(y1, keys[y.saving.at], k, keepDead);
    var rest, end :| Actions(y1, rest, end, keepDead) && end.saving == Raised;
    ActionsOne(y, NetMove(Connect(v)), keepDead);
    ActionsAppend(y, [NetMove(Connect(v))], y1, rest, end, keepDead);
  }

  lemma HalfwayMeans(y: System, keys: seq<string>)
    requires Halfway(y, keys)
    ensures y.saving.Suspended? && y.saving.keys == keys && y.saving.at < |keys|
  {
  }

  // ----- Main result -----

  /** Once it has ended, a checkpoint does not end differently. */
  lemma {:induction false} EndedStays(y: System, actions: seq<Action>, end: System, keepDead: bool)
    requires Actions(y, actions, end, keepDead) && (y.saving.Saved? || y.saving.Raised?)
    ensures end.saving == y.saving
  {
    hide Begin, Proceed, Next, Enabled;
    if actions != [] {
      var init, last := actions[..|actions| - 1], actions[|actions| - 1];
      var mid :| Actions(y, init, mid, keepDead) && CanDo(mid, last) && end == Do(mid, last, keepDead);
      EndedStays(y, init, mid, keepDead);
    }
  }

  /** However the run goes on, a checkpoint begun now ends, if it ends, with the tables of now. */
  ghost predicate SavesItself(n: Net, keepDead: bool) {
    forall actions, end :: Actions(Begin(n), actions, end, keepDead) && !end.saving.Suspended? ==> end.saving == Saved(n.tables)
  }

  /**
   A checkpoint of tables that can be written returns those tables, in every run from
   here, exactly if no client's outbox lock is held or awaited by anybody when it begins.
   `v` is some UUID nobody has yet; the lines are as they are in every run.
   */
  lemma SavesItselfIff(n: Net, v: string, keepDead: bool)
    requires Serialisable(n.tables) && LineOk(n) && NoSave(n.line)
    requires v !in n.handlers && v !in n.tables.clients.vals
    ensures SavesItself(n, keepDead) <==> NoneBusy(n)
  {
    hide Begin, Serialisable, Actions, Halfway, NoneBusy, LineOk, NoSave;
    if NoneBusy(n) {
      BeginsFree(n);
      forall actions, end | Actions(Begin(n), actions, end, keepDead) && !end.saving.Suspended?
        ensures end.saving == Saved(n.tables)
      {
        EndedStays(Begin(n), actions, end, keepDead);
      }
    } else {
      var y, keys := Begin(n), n.tables.clients.keys;
      BeginsToWait(n);
      BeginsInLine(n);
      RaisesAfterLogin(y, keys, v, keepDead);
      var rest, end :| Actions(y, [NetMove(Connect(v))] + rest, end, keepDead) && end.saving == Raised;
      assert !SavesItself(n, keepDead);
    }
  }

  lemma BeginsInLine(n: Net)
    requires LineOk(n) && NoSave(n.line)
    ensures SystemLine(Begin(n))
  {
    hide LineOk, NoSave, Visit;
    DoLine(System(n, Unsaved), SaveStart, true);
  }
}
