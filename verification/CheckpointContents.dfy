/** What is in a checkpoint that returns, also when it had to wait: which moment each part is from. */
module CheckpointContents {
  import opened Wrappers
  import opened Dicts
  import opened Tables
  import opened Commands
  import opened Runs
  import opened Interleaving
  import opened Checkpoint
  import opened CheckpointProofs
  import opened CheckpointQueues
  import opened CheckpointMoves
  import Reachable

  // ----- Moments of a run -----

  /** p is where the run stands before its i-th action, at which the checkpoint begins or goes on. */
  ghost predicate Moment(y: System, actions: seq<Action>, i: int, p: System, keepDead: bool) {
    0 <= i < |actions| && Actions(y, actions[..i], p, keepDead) && (actions[i].SaveStart? || actions[i].SaveResume?)
  }

  /** Database, book and the order of the clients are those of the moment the checkpoint was begun. */
  ghost predicate FrameOf(y: System, actions: seq<Action>, image: State, keys: seq<string>, keepDead: bool) {
    exists i, p ::
      && Moment(y, actions, i, p, keepDead) && actions[i].SaveStart?
      && image.db == p.net.tables.db && image.addressBook == p.net.tables.addressBook && keys == p.net.tables.clients.keys
  }

  /** UUID, addresses and queue are those of one moment. */
  ghost predicate HeadOf(y: System, actions: seq<Action>, u: string, head: ClientRecord, keepDead: bool) {
    exists i, p :: Moment(y, actions, i, p, keepDead) && u in p.net.tables.clients.vals && head == p.net.tables.clients.vals[u]
  }

  /** They are those of one moment, the outbox is that of the same moment or a later one. */
  ghost predicate PartOf(y: System, actions: seq<Action>, u: string, c: ClientRecord, keepDead: bool) {
    exists i, p, j, q ::
      && Moment(y, actions, i, p, keepDead) && Moment(y, actions, j, q, keepDead) && i <= j
      && u in p.net.tables.clients.vals && u in q.net.tables.clients.vals
      && c == p.net.tables.clients.vals[u].(outbox := q.net.tables.clients.vals[u].outbox)
  }

  ghost predicate PartsOf(y: System, actions: seq<Action>, image: State, keepDead: bool) {
    forall u :: u in image.clients.vals ==> PartOf(y, actions, u, image.clients.vals[u], keepDead)
  }

  /** What a checkpoint has written so far, or has returned. */
  ghost predicate Contents(y: System, actions: seq<Action>, end: System, keepDead: bool) {
    match end.saving
    case Suspended(keys, at, image, head) =>
      && at < |keys| && FrameOf(y, actions, image, keys, keepDead) && Distinct(keys)
      && image.clients.keys == keys[..at] && PartsOf(y, actions, image, keepDead)
      && HeadOf(y, actions, keys[at], head, keepDead)
    case Saved(image) =>
      Serialisable(image) && FrameOf(y, actions, image, image.clients.keys, keepDead) && PartsOf(y, actions, image, keepDead)
    case _ => true
  }

  // ----- Moments stay moments -----

  lemma MomentKeeps(y: System, actions: seq<Action>, last: Action, i: int, p: System, keepDead: bool)
    requires Moment(y, actions, i, p, keepDead)
    ensures Moment(y, actions + [last], i, p, keepDead)
  {
    hide Actions;
    assert (actions + [last])[..i] == actions[..i];
  }

  lemma MomentNow(y: System, actions: seq<Action>, mid: System, last: Action, keepDead: bool)
    requires Actions(y, actions, mid, keepDead) && (last.SaveStart? || last.SaveResume?)
    ensures Moment(y, actions + [last], |actions|, mid, keepDead)
  {
    hide Actions;
    assert (actions + [last])[..|actions|] == actions;
  }

  lemma FrameKeeps(y: System, actions: seq<Action>, last: Action, image: State, keys: seq<string>, keepDead: bool)
    requires FrameOf(y, actions, image, keys, keepDead)
    ensures FrameOf(y, actions + [last], image, keys, keepDead)
  {
    var i, p :|
      && Moment(y, actions, i, p, keepDead) && actions[i].SaveStart?
      && image.db == p.net.tables.db && image.addressBook == p.net.tables.addressBook && keys == p.net.tables.clients.keys;
    MomentKeeps(y, actions, last, i, p, keepDead);
    assert (actions + [last])[i] == actions[i];
  }

  lemma HeadKeeps(y: System, actions: seq<Action>, last: Action, u: string, head: ClientRecord, keepDead: bool)
    requires HeadOf(y, actions, u, head, keepDead)
    ensures HeadOf(y, actions + [last], u, head, keepDead)
  {
    hide Moment;
    var i, p :| Moment(y, actions, i, p, keepDead) && u in p.net.tables.clients.vals && head == p.net.tables.clients.vals[u];
    MomentKeeps(y, actions, last, i, p, keepDead);
  }

  lemma PartKeeps(y: System, actions: seq<Action>, last: Action, u: string, c: ClientRecord, keepDead: bool)
    requires PartOf(y, actions, u, c, keepDead)
    ensures PartOf(y, actions + [last], u, c, keepDead)
  {
    hide Moment;
    var i, p, j, q :|
      && Moment(y, actions, i, p, keepDead) && Moment(y, actions, j, q, keepDead) && i <= j
      && u in p.net.tables.clients.vals && u in q.net.tables.clients.vals
      && c == p.net.tables.clients.vals[u].(outbox := q.net.tables.clients.vals[u].outbox);
    MomentKeeps(y, actions, last, i, p, keepDead);
    MomentKeeps(y, actions, last, j, q, keepDead);
  }

  lemma PartsKeep(y: System, actions: seq<Action>, last: Action, image: State, keepDead: bool)
    requires PartsOf(y, actions, image, keepDead)
    ensures PartsOf(y, actions + [last], image, keepDead)
  {
    hide PartOf;
    forall u | u in image.clients.vals
      ensures PartOf(y, actions + [last], u, image.clients.vals[u], keepDead)
    {
      PartKeeps(y, actions, last, u, image.clients.vals[u], keepDead);
    }
  }

  /** A client read in one stretch. */
  lemma PartNow(y: System, actions: seq<Action>, mid: System, last: Action, u: string, keepDead: bool)
    requires Actions(y, actions, mid, keepDead) && (last.SaveStart? || last.SaveResume?) && u in mid.net.tables.clients.vals
    ensures PartOf(y, actions + [last], u, mid.net.tables.clients.vals[u], keepDead)
    ensures HeadOf(y, actions + [last], u, mid.net.tables.clients.vals[u], keepDead)
  {
    hide Moment;
    MomentNow(y, actions, mid, last, keepDead);
    var c := mid.net.tables.clients.vals[u];
    assert c == c.(outbox := c.outbox);
  }

  /** A client whose outbox is read after a wait. */
  lemma PartLater(y: System, actions: seq<Action>, mid: System, last: Action, u: string, head: ClientRecord, keepDead: bool)
    requires Actions(y, actions, mid, keepDead) && (last.SaveStart? || last.SaveResume?) && u in mid.net.tables.clients.vals
    requires HeadOf(y, actions, u, head, keepDead)
    ensures PartOf(y, actions + [last], u, head.(outbox := mid.net.tables.clients.vals[u].outbox), keepDead)
  {
    var i, p :| Moment(y, actions, i, p, keepDead) && u in p.net.tables.clients.vals && head == p.net.tables.clients.vals[u];
    MomentKeeps(y, actions, last, i, p, keepDead);
    MomentNow(y, actions, mid, last, keepDead);
    assert i <= |actions|;
    hide Moment;
  }

  // ----- One stretch -----

  /** What a stretch over keys[i..at], begun over the tables s, adds to an image. */
  ghost predicate Adds(s: State, keys: seq<string>, i: nat, at: nat, image: State, after: State) {
    && i <= at <= |keys|
    && after.db == image.db && after.addressBook == image.addressBook
    && after.clients.keys == image.clients.keys + keys[i..at]
    && forall u :: u in after.clients.vals ==>
         || (u in image.clients.vals && after.clients.vals[u] == image.clients.vals[u])
         || (u in s.clients.vals && after.clients.vals[u] == s.clients.vals[u])
  }

  lemma AddsNothing(s: State, keys: seq<string>, i: nat, image: State)
    requires i <= |keys|
    ensures Adds(s, keys, i, i, image, image)
  {
  }

  lemma AddsOne(s: State, keys: seq<string>, i: nat, at: nat, image: State, after: State)
    requires i < |keys| && keys[i] in s.clients.vals && keys[i] !in image.clients.vals
    requires Adds(s, keys, i + 1, at, Written(image, keys[i], s.clients.vals[keys[i]]), after)
    ensures Adds(s, keys, i, at, image, after)
  {
    assert keys[i..at] == [keys[i]] + keys[i + 1..at];
  }

  /** Of the clients from position i on, nothing has been taken yet. */
  ghost predicate Ahead(s: State, n: Net, keys: seq<string>, i: nat) {
    forall k :: i <= k < |keys| && n.tables.clients.keys == keys ==>
      keys[k] in s.clients.vals && keys[k] in n.tables.clients.vals && n.tables.clients.vals[keys[k]] == s.clients.vals[keys[k]]
  }

  lemma AheadStep(s: State, n: Net, keys: seq<string>, i: nat, taken: nat)
    requires Ahead(s, n, keys, i) && n.tables.clients.keys == keys && i < |keys|
    ensures Ahead(s, Draining(n, keys[i], taken), keys, i + 1)
  {
    hide TakeOff;
    KeysOf(n.tables.clients);
    TakeOffKeeps(n.tables, keys[i], taken);
  }

  /** The image lists the keys before position i, and nothing else. */
  ghost predicate Behind(image: State, keys: seq<string>, i: nat) {
    i <= |keys| && image.clients.keys == keys[..i] && Distinct(keys)
  }

  lemma BehindStep(image: State, keys: seq<string>, i: nat, c: ClientRecord)
    requires Behind(image, keys, i) && i < |keys|
    ensures keys[i] !in image.clients.vals && Behind(Written(image, keys[i], c), keys, i + 1)
  {
    KeysOf(image.clients);
    assert keys[..i + 1] == keys[..i] + [keys[i]];
  }

  lemma {:induction false} VisitContents(s: State, n: Net, keys: seq<string>, i: nat, image: State)
    requires Ahead(s, n, keys, i) && Behind(image, keys, i)
    ensures var saving := Visit(n, keys, i, image).1;
            match saving {
              case Suspended(ks, at, after, head) =>
                && ks == keys && i <= at < |keys| && Adds(s, keys, i, at, image, after)
                && keys[at] in s.clients.vals && head == s.clients.vals[keys[at]]
              case Saved(after) => Serialisable(after) && Adds(s, keys, i, |keys|, image, after)
              case _ => true
            }
    decreases |keys| - i
  {
    hide HeadOk, InboxOk, OutboxOk, TakenFrom, Draining, Busy, Serialisable, Written, Adds, Ahead, Behind;
    AheadMeans(s, n, keys, i, image);
    if n.tables.clients.keys == keys {
      AddsNothing(s, keys, i, image);
      if i < |keys| {
        NextKey(n.tables.clients, i);
        var c := n.tables.clients.vals[keys[i]];
        var m := Draining(n, keys[i], TakenFrom(c));
        AheadStep(s, n, keys, i, TakenFrom(c));
        BehindStep(image, keys, i, c);
        VisitContents(s, m, keys, i + 1, Written(image, keys[i], c));
        match Visit(m, keys, i + 1, Written(image, keys[i], c)).1
        case Suspended(_, at, after, _) => AddsOne(s, keys, i, at, image, after);
        case Saved(after) => AddsOne(s, keys, i, |keys|, image, after);
        case _ =>
      }
    }
  }

  lemma AheadMeans(s: State, n: Net, keys: seq<string>, i: nat, image: State)
    requires Ahead(s, n, keys, i) && Behind(image, keys, i)
    ensures i <= |keys|
    ensures n.tables.clients.keys == keys && i < |keys| ==>
              keys[i] in s.clients.vals && keys[i] in n.tables.clients.vals && n.tables.clients.vals[keys[i]] == s.clients.vals[keys[i]]
  {
  }

  // ----- Each action -----

  /** After a stretch over the tables of mid, begun with an image that is already accounted for. */
  lemma StretchContents(y: System, actions: seq<Action>, mid: System, last: Action, n: Net, keys: seq<string>, i: nat, image: State,
                        keepDead: bool)
    requires Actions(y, actions, mid, keepDead) && (last.SaveStart? || last.SaveResume?)
    requires Ahead(mid.net.tables, n, keys, i) && Behind(image, keys, i)
    requires FrameOf(y, actions + [last], image, keys, keepDead) && PartsOf(y, actions + [last], image, keepDead)
    ensures var (m, saving) := Visit(n, keys, i, image);
            Contents(y, actions + [last], System(m, saving), keepDead)
  {
    hide Actions, Visit, FrameOf, PartOf, HeadOf, Serialisable, Ahead;
    VisitContents(mid.net.tables, n, keys, i, image);
    var (m, saving) := Visit(n, keys, i, image);
    match saving
    case Suspended(_, at, after, head) =>
      PartsAdded(y, actions, mid, last, keys, i, at, image, after, keepDead);
      FrameSame(y, actions + [last], image, after, keys, keepDead);
      PartNow(y, actions, mid, last, keys[at], keepDead);
      assert keys[..i] + keys[i..at] == keys[..at];
    case Saved(after) =>
      PartsAdded(y, actions, mid, last, keys, i, |keys|, image, after, keepDead);
      FrameSame(y, actions + [last], image, after, keys, keepDead);
      assert keys[..i] + keys[i..|keys|] == keys;
    case _ =>
  }

  lemma FrameSame(y: System, actions: seq<Action>, image: State, after: State, keys: seq<string>, keepDead: bool)
    requires FrameOf(y, actions, image, keys, keepDead) && after.db == image.db && after.addressBook == image.addressBook
    ensures FrameOf(y, actions, after, keys, keepDead)
  {
    hide Moment;
  }

  lemma PartsAdded(y: System, actions: seq<Action>, mid: System, last: Action, keys: seq<string>, i: nat, at: nat, image: State,
                   after: State, keepDead: bool)
    requires Actions(y, actions, mid, keepDead) && (last.SaveStart? || last.SaveResume?)
    requires Adds(mid.net.tables, keys, i, at, image, after) && PartsOf(y, actions + [last], image, keepDead)
    ensures PartsOf(y, actions + [last], after, keepDead)
  {
    hide Actions, PartOf;
    forall u | u in after.clients.vals
      ensures PartOf(y, actions + [last], u, after.clients.vals[u], keepDead)
    {
      if !(u in image.clients.vals && after.clients.vals[u] == image.clients.vals[u]) {
        PartNow(y, actions, mid, last, u, keepDead);
      }
    }
  }

  lemma BeginContents(y: System, actions: seq<Action>, mid: System, keepDead: bool)
    requires Actions(y, actions, mid, keepDead)
    ensures Contents(y, actions + [SaveStart], Begin(mid.net), keepDead)
  {
    var s := mid.net.tables;
    var image := s.(clients := NO_CLIENTS);
    KeysOf(s.clients);
    hide Actions, Visit, DbOk, BookOk, Contents;
    MomentNow(y, actions, mid, SaveStart, keepDead);
    assert (actions + [SaveStart])[|actions|] == SaveStart;
    assert FrameOf(y, actions + [SaveStart], image, s.clients.keys, keepDead);
    if DbOk(s.db) && BookOk(s.addressBook) {
      StretchContents(y, actions, mid, SaveStart, mid.net, s.clients.keys, 0, image, keepDead);
    } else {
      NothingWritten(y, actions + [SaveStart], mid.net, keepDead);
    }
  }

  lemma NothingWritten(y: System, actions: seq<Action>, n: Net, keepDead: bool)
    ensures Contents(y, actions, System(n, Raised), keepDead)
  {
  }

  lemma SameAhead(n: Net, line: seq<Place>, keys: seq<string>, i: nat)
    ensures Ahead(n.tables, n.(line := line), keys, i)
  {
    KeysOf(n.tables.clients);
  }

  lemma PartsWritten(y: System, actions: seq<Action>, image: State, u: string, c: ClientRecord, keepDead: bool)
    requires PartsOf(y, actions, image, keepDead) && PartOf(y, actions, u, c, keepDead)
    ensures PartsOf(y, actions, Written(image, u, c), keepDead)
  {
    hide PartOf;
  }

  lemma ResumeContents(y: System, actions: seq<Action>, mid: System, keys: seq<string>, at: nat, image: State, head: ClientRecord,
                       keepDead: bool)
    requires Actions(y, actions, mid, keepDead) && mid.saving == Suspended(keys, at, image, head) && at < |keys|
    requires Contents(y, actions, mid, keepDead)
    ensures Contents(y, actions + [SaveResume], Proceed(mid.net, keys, at, image, head), keepDead)
  {
    hide Actions, Visit, OutboxOk, Contents, FrameOf, PartOf, PartsOf, HeadOf, Moment, Written, Ahead, Behind;
    ContentsMean(y, actions, mid, keepDead);
    var m := mid.net.(line := Without(mid.net.line, None));
    var u := keys[at];
    if u in mid.net.tables.clients.vals && OutboxOk(mid.net.tables.clients.vals[u].outbox) {
      var c := head.(outbox := mid.net.tables.clients.vals[u].outbox);
      var more := Written(image, u, c);
      BehindStep(image, keys, at, c);
      WrittenFrame(image, u, c);
      FrameKeeps(y, actions, SaveResume, image, keys, keepDead);
      FrameSame(y, actions + [SaveResume], image, more, keys, keepDead);
      PartsKeep(y, actions, SaveResume, image, keepDead);
      PartLater(y, actions, mid, SaveResume, u, head, keepDead);
      PartsWritten(y, actions + [SaveResume], image, u, c, keepDead);
      SameAhead(mid.net, Without(mid.net.line, None), keys, at + 1);
      StretchContents(y, actions, mid, SaveResume, m, keys, at + 1, more, keepDead);
    } else {
      NothingWritten(y, actions + [SaveResume], m, keepDead);
    }
  }

  lemma WrittenFrame(image: State, u: string, c: ClientRecord)
    ensures Written(image, u, c).db == image.db && Written(image, u, c).addressBook == image.addressBook
  {
  }

  lemma ContentsMean(y: System, actions: seq<Action>, mid: System, keepDead: bool)
    requires mid.saving.Suspended? && Contents(y, actions, mid, keepDead)
    ensures var Suspended(keys, at, image, head) := mid.saving;
            && at < |keys| && FrameOf(y, actions, image, keys, keepDead) && Behind(image, keys, at)
            && PartsOf(y, actions, image, keepDead) && HeadOf(y, actions, keys[at], head, keepDead)
  {
    hide FrameOf, PartOf, HeadOf;
  }

  lemma MoveContents(y: System, actions: seq<Action>, mid: System, last: Action, n: Net, keepDead: bool)
    requires Contents(y, actions, mid, keepDead)
    ensures Contents(y, actions + [last], System(n, mid.saving), keepDead)
  {
    hide FrameOf, PartOf, HeadOf, Serialisable;
    match mid.saving
    case Suspended(keys, at, image, head) =>
      FrameKeeps(y, actions, last, image, keys, keepDead);
      PartsKeep(y, actions, last, image, keepDead);
      HeadKeeps(y, actions, last, keys[at], head, keepDead);
    case Saved(image) =>
      FrameKeeps(y, actions, last, image, image.clients.keys, keepDead);
      PartsKeep(y, actions, last, image, keepDead);
    case _ =>
  }

  /** In every run, what a checkpoint has written is accounted for. */
  lemma {:induction false} ContentsInEveryRun(n: Net, actions: seq<Action>, end: System, keepDead: bool)
    requires Actions(System(n, Unsaved), actions, end, keepDead)
    ensures Contents(System(n, Unsaved), actions, end, keepDead)
  {
    hide Contents, CanDo, Do;
    var y := System(n, Unsaved);
    if actions == [] {
      NothingYet(n, keepDead);
    } else {
      var init, last := actions[..|actions| - 1], actions[|actions| - 1];
      var mid :| Actions(y, init, mid, keepDead) && CanDo(mid, last) && end == Do(mid, last, keepDead);
      assert actions == init + [last];
      ContentsInEveryRun(n, init, mid, keepDead);
      DoContents(y, init, mid, last, keepDead);
    }
  }

  lemma NothingYet(n: Net, keepDead: bool)
    ensures Contents(System(n, Unsaved), [], System(n, Unsaved), keepDead)
  {
  }

  lemma DoContents(y: System, actions: seq<Action>, mid: System, last: Action, keepDead: bool)
    requires Actions(y, actions, mid, keepDead) && CanDo(mid, last) && Contents(y, actions, mid, keepDead)
    ensures Contents(y, actions + [last], Do(mid, last, keepDead), keepDead)
  {
    hide Contents, Actions, Begin, Proceed, Next, Enabled, Held, First;
    match last
    case NetMove(move) => MoveContents(y, actions, mid, last, Next(mid.net, move, keepDead), keepDead);
    case SaveStart => BeginContents(y, actions, mid, keepDead);
    case SaveResume =>
      ResumeContents(y, actions, mid, mid.saving.keys, mid.saving.at, mid.saving.image, mid.saving.head, keepDead);
  }

  // ----- Main result -----

  lemma {:induction false} ActionsUnique(y: System, actions: seq<Action>, p: System, q: System, keepDead: bool)
    requires Actions(y, actions, p, keepDead) && Actions(y, actions, q, keepDead)
    ensures p == q
  {
    hide CanDo, Do;
    if actions != [] {
      var init, last := actions[..|actions| - 1], actions[|actions| - 1];
      var before :| Actions(y, init, before, keepDead) && CanDo(before, last) && p == Do(before, last, keepDead);
      var other :| Actions(y, init, other, keepDead) && CanDo(other, last) && q == Do(other, last, keepDead);
      ActionsUnique(y, init, before, other, keepDead);
    }
  }

  lemma {:induction false} VisitHistory(n: Net, keys: seq<string>, i: nat, image: State)
    requires i <= |keys|
    ensures n.history <= Visit(n, keys, i, image).0.history
    decreases |keys| - i
  {
    hide HeadOk, InboxOk, OutboxOk, TakenFrom, TakeOff, Busy, Serialisable, Written;
    if n.tables.clients.keys == keys && i < |keys| {
      NextKey(n.tables.clients, i);
      var c := n.tables.clients.vals[keys[i]];
      VisitHistory(Draining(n, keys[i], TakenFrom(c)), keys, i + 1, Written(image, keys[i], c));
    }
  }

  lemma DoHistory(y: System, action: Action, keepDead: bool)
    requires CanDo(y, action)
    ensures y.net.history <= Do(y, action, keepDead).net.history
  {
    hide Visit, DbOk, BookOk, OutboxOk, Held, First, Without, Requeued, Step, MustWait, MayResume, Written;
    match action
    case NetMove(move) =>
    case SaveStart =>
      VisitHistory(y.net, y.net.tables.clients.keys, 0, y.net.tables.(clients := NO_CLIENTS));
    case SaveResume =>
      var Suspended(keys, at, image, head) := y.saving;
      if keys[at] in y.net.tables.clients.vals {
        var c := head.(outbox := y.net.tables.clients.vals[keys[at]].outbox);
        VisitHistory(y.net.(line := Without(y.net.line, None)), keys, at + 1, Written(image, keys[at], c));
      }
  }

  /** A history only grows. */
  lemma {:induction false} HistoryPrefix(y: System, actions: seq<Action>, i: nat, p: System, end: System, keepDead: bool)
    requires i <= |actions| && Actions(y, actions[..i], p, keepDead) && Actions(y, actions, end, keepDead)
    ensures p.net.history <= end.net.history
    decreases |actions|
  {
    hide CanDo, Do;
    if i == |actions| {
      assert actions[..i] == actions;
      ActionsUnique(y, actions, p, end, keepDead);
    } else {
      var init, last := actions[..|actions| - 1], actions[|actions| - 1];
      var mid :| Actions(y, init, mid, keepDead) && CanDo(mid, last) && end == Do(mid, last, keepDead);
      assert init[..i] == actions[..i];
      HistoryPrefix(y, init, i, p, mid, keepDead);
      DoHistory(mid, last, keepDead);
    }
  }

  lemma MomentWellFormed(actions: seq<Action>, end: System, i: nat, p: System, keepDead: bool)
    requires Actions(FRESH_SYSTEM, actions, end, keepDead) && Reachable.TextualRun(end.net.history)
    requires Moment(FRESH_SYSTEM, actions, i, p, keepDead)
    ensures Reachable.WellFormed(p.net.tables)
  {
    hide Actions, Run, Counted, Answered, Holds, Reachable.WellFormed;
    HistoryPrefix(FRESH_SYSTEM, actions, i, p, end, keepDead);
    SystemLinearises(EMPTY_STATE, actions[..i], p, keepDead);
    assert forall k :: 0 <= k < |p.net.history| ==> p.net.history[k] == end.net.history[k];
    EmptyWellFormed();
    Reachable.WellFormedInEveryRun(EMPTY_STATE, p.net.history, keepDead);
  }

  lemma EmptyWellFormed()
    ensures Reachable.WellFormed(EMPTY_STATE)
  {
  }

  lemma PartConsistent(actions: seq<Action>, end: System, u: string, c: ClientRecord, keepDead: bool)
    requires Actions(FRESH_SYSTEM, actions, end, keepDead) && Reachable.TextualRun(end.net.history)
    requires PartOf(FRESH_SYSTEM, actions, u, c, keepDead)
    ensures c.uuid == u && OutboxKeyed(c.outbox)
  {
    hide Moment, Actions;
    var i, p, j, q :|
      && Moment(FRESH_SYSTEM, actions, i, p, keepDead) && Moment(FRESH_SYSTEM, actions, j, q, keepDead) && i <= j
      && u in p.net.tables.clients.vals && u in q.net.tables.clients.vals
      && c == p.net.tables.clients.vals[u].(outbox := q.net.tables.clients.vals[u].outbox);
    MomentIndex(FRESH_SYSTEM, actions, i, p, keepDead);
    MomentWellFormed(actions, end, i, p, keepDead);
    MomentWellFormed(actions, end, j, q, keepDead);
    assert Reachable.ClientText(u, p.net.tables.clients.vals[u]) && Reachable.ClientText(u, q.net.tables.clients.vals[u]);
  }

  lemma MomentIndex(y: System, actions: seq<Action>, i: int, p: System, keepDead: bool)
    requires Moment(y, actions, i, p, keepDead)
    ensures i >= 0
  {
  }

  /**
   Whatever a checkpoint returns, waited or not, reads back without a fault to: the database,
   the book and the order of clients of the moment it was begun; and of each client the
   addresses and the queue of one moment, and the outbox of that or of a later one.
   */
  lemma SavedContents(z: Zstd, actions: seq<Action>, end: System, image: State, keepDead: bool)
    requires Inverse(z) && Actions(FRESH_SYSTEM, actions, end, keepDead) && Reachable.TextualRun(end.net.history)
    requires end.saving == Saved(image)
    ensures Serialisable(image) && Restore(z, Snapshot(z, image)) == Ok(image)
    ensures FrameOf(FRESH_SYSTEM, actions, image, image.clients.keys, keepDead) && PartsOf(FRESH_SYSTEM, actions, image, keepDead)
  {
    hide Actions, FrameOf, PartOf, Serialisable, Restore, Snapshot, Inverse, Reachable.TextualRun;
    ContentsInEveryRun(Started(EMPTY_STATE), actions, end, keepDead);
    forall u | u in image.clients.vals
      ensures image.clients.vals[u].uuid == u && OutboxKeyed(image.clients.vals[u].outbox)
    {
      PartConsistent(actions, end, u, image.clients.vals[u], keepDead);
    }
    LosslessIff(z, image);
  }
}
