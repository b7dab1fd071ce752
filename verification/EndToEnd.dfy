/**
 One client, down to the bytes, among all the handlers: what it reads is what the
 atomic history of the whole server owes it.
 */
module EndToEnd {
  import opened Wrappers
  import opened Bytes
  import opened Packets
  import opened Tables
  import opened Wire
  import opened Commands
  import opened Runs
  import opened Interleaving
  import S = Sessions

  /** The handler this move is about, unless it is somebody else's business. */
  function Mover(m: Move): Option<string> {
    match m
    case Arrive(uuid, _, _) => Some(uuid)
    case Resume(uuid) => Some(uuid)
    case Sent(uuid) => Some(uuid)
    case Fail(uuid) => Some(uuid)
    case Reject(uuid) => Some(uuid)
    case Connect(uuid) => Some(uuid)
    case Reconnect(uuid) => Some(uuid)
    case Other(_) => None
  }

  /** Bytes travel, or the client acts. */
  predicate OnTheWire(e: S.Happening) {
    e.Ask? || e.CarryUp? || e.CarryDown? || e.Read? || e.ClientDies?
  }

  predicate Says(payload: bytes, command: Command) {
    payload != [] && ParseCommand(payload) == command
  }

  predicate Serves(e: Event, uuid: string, x: S.Exchange) {
    e.Issued? && e.uuid == uuid && Says(x.request, e.command) && e.id == x.id
  }

  function Dead(s: S.Session, tables: State): S.Session {
    s.(tables := tables, server := s.server.(alive := false))
  }

  /** The session once the handler has gone from s to the phase it has in n. */
  ghost function Settled(w: S.Setting, s: S.Session, n: Net, id: bytes): S.Session
    requires w.uuid in n.handlers
  {
    if n.handlers[w.uuid].phase.Waiting? then s
    else if n.handlers[w.uuid].phase.Sending? && S.Possible(w, s, S.Reply(id)) then S.After(w, s, S.Reply(id))
    else Dead(s, n.tables)
  }

  datatype Both = Both(net: Net, session: S.Session)

  datatype Joint =
    | Wire(happening: S.Happening)    // bytes travel, or the client acts
    | Handlers(move: Move)            // one await-free stretch of a handler, of this client or another

  /** The move of this client's own handler, and what it means for the session. A refused packet cannot happen: `NobodyRefuses`. */
  ghost predicate OwnMove(w: S.Setting, b: Both, m: Move, c: Both)
    requires w.uuid in c.net.handlers
  {
    match m
    case Arrive(_, command, id) =>
      && S.Possible(w, b.session, S.Fetch)
      && var fetched := S.After(w, b.session, S.Fetch);
         fetched.busy.Some? && Says(fetched.busy.value, command) && c.session == Settled(w, fetched, c.net, id)
    case Resume(uuid) =>
      uuid in b.net.handlers && b.net.handlers[uuid].phase.Waiting? &&
      var Waiting(command, id) := b.net.handlers[uuid].phase;
      !Turn(b.net, uuid, command, id, true).Detached? && c.session == Settled(w, b.session, c.net, id)
    case Sent(uuid) => c.session == if c.net.handlers[w.uuid].phase.Halted? then Dead(b.session, c.net.tables) else b.session
    case Fail(_) => c.session == Dead(b.session, c.net.tables)
    case _ => false
  }

  ghost predicate Goes(w: S.Setting, b: Both, step: Joint, c: Both) {
    match step
    case Wire(e) => OnTheWire(e) && S.Possible(w, b.session, e) && c == Both(b.net, S.After(w, b.session, e))
    case Handlers(m) =>
      && Enabled(b.net, m) && c.net == Next(b.net, m, w.keepDead) && w.uuid in c.net.handlers
      && if Mover(m) == Some(w.uuid) then OwnMove(w, b, m, c) else c.session == b.session.(tables := c.net.tables)
  }

  ghost predicate GoesOn(w: S.Setting, b: Both, steps: seq<Joint>, c: Both) {
    if steps == [] then b == c
    else
      var init, last := steps[..|steps| - 1], steps[|steps| - 1];
      exists mid :: GoesOn(w, b, init, mid) && Goes(w, mid, last, c)
  }

  // ----- What always holds -----

  function RenderAll(w: S.Setting, outs: seq<Outcome>): seq<bytes> {
    if outs == [] then []
    else
      var reply := S.Rendered(w, outs[|outs| - 1]);
      RenderAll(w, outs[..|outs| - 1]) + [if reply.Some? then reply.value else []]
  }

  lemma {:induction false} RenderAppend(w: S.Setting, a: seq<Outcome>, b: seq<Outcome>)
    ensures RenderAll(w, a + b) == RenderAll(w, a) + RenderAll(w, b)
  {
    if b == [] {
      assert a + b == a;
    } else {
      assert (a + b)[..|a + b| - 1] == a + b[..|b| - 1];
      RenderAppend(w, a, b[..|b| - 1]);
    }
  }

  /** The packets the whole history owes this client since its session began. */
  ghost function Due(w: S.Setting, s0: State, start: nat, n: Net): seq<bytes> {
    RenderAll(w, Owed(s0, n.history, start, w.uuid, w.keepDead))
  }

  /** This command was served by one event of the history, from the tables the history had made by then. */
  ghost predicate FromHistory(w: S.Setting, s0: State, start: nat, history: seq<Event>, x: S.Exchange) {
    exists k :: start <= k < |history| && Serves(history[k], w.uuid, x) &&
                x.tables == Run(s0, history[..k], w.keepDead)
  }

  ghost predicate Joined(w: S.Setting, s0: State, start: nat, b: Both) {
    var n, s := b.net, b.session;
    && w.uuid in n.handlers && start <= |n.history| && s.tables == n.tables
    && s.server.sent <= Due(w, s0, start, n)
    && (s.server.alive ==>
          && s.server.sent == Due(w, s0, start, n)
          && (s.busy.Some? <==> n.handlers[w.uuid].phase.Waiting?)
          && (s.busy.Some? ==> Says(s.busy.value, n.handlers[w.uuid].phase.command)))
    && forall i :: 0 <= i < |s.served| ==> FromHistory(w, s0, start, n.history, s.served[i])
  }

  // ----- The history grows -----

  lemma HistoryLater(w: S.Setting, s0: State, start: nat, history: seq<Event>, e: Event, x: S.Exchange)
    requires FromHistory(w, s0, start, history, x)
    ensures FromHistory(w, s0, start, history + [e], x)
  {
    hide Run;
    var k :| start <= k < |history| && Serves(history[k], w.uuid, x) &&
             x.tables == Run(s0, history[..k], w.keepDead);
    assert (history + [e])[..k] == history[..k] && (history + [e])[k] == history[k];
  }

  lemma DueGrows(w: S.Setting, s0: State, start: nat, n: Net, m: Net, e: Event)
    requires start <= |n.history| && m.history == n.history + [e]
    ensures var out := Step(Run(s0, n.history, w.keepDead), e, w.keepDead).1;
            Due(w, s0, start, m) == Due(w, s0, start, n) + RenderAll(w, if By(e, w.uuid) && IsPacket(out) then [out] else [])
  {
    hide Owed, Run, Step;
    var out := Step(Run(s0, n.history, w.keepDead), e, w.keepDead).1;
    OwedGrows(s0, n.history, e, start, w.uuid, w.keepDead);
    RenderAppend(w, Owed(s0, n.history, start, w.uuid, w.keepDead), if By(e, w.uuid) && IsPacket(out) then [out] else []);
  }

  /** Moves of others leave this handler alone, and are not its events. */
  lemma OthersMove(n: Net, m: Move, uuid: string, keepDead: bool)
    requires Enabled(n, m) && uuid in n.handlers && Mover(m) != Some(uuid)
    ensures var after := Next(n, m, keepDead);
            && uuid in after.handlers && after.handlers[uuid] == n.handlers[uuid]
            && (after.history == n.history || exists e :: after.history == n.history + [e] && !By(e, uuid))
  {
    hide Step, MustWait, MayResume, Requeued, DbLocked;
    var after := Next(n, m, keepDead);
    if after.history != n.history {
      var e := after.history[|after.history| - 1];
      assert after.history == n.history + [e];
    }
  }

  lemma JoinedOther(w: S.Setting, s0: State, start: nat, b: Both, m: Move, c: Both)
    requires Joined(w, s0, start, b) && Goes(w, b, Handlers(m), c) && Mover(m) != Some(w.uuid)
    ensures Joined(w, s0, start, c)
  {
    hide Due, FromHistory, Next, Enabled;
    OthersMove(b.net, m, w.uuid, w.keepDead);
    if c.net.history == b.net.history {
      DueSame(w, s0, start, b.net, c.net);
    } else {
      var e :| c.net.history == b.net.history + [e] && !By(e, w.uuid);
      DueGrows(w, s0, start, b.net, c.net, e);
      ServedLater(w, s0, start, b.net.history, e, b.session.served);
    }
  }

  lemma DueSame(w: S.Setting, s0: State, start: nat, n: Net, m: Net)
    requires m.history == n.history
    ensures Due(w, s0, start, m) == Due(w, s0, start, n)
  {
  }

  lemma ServedLater(w: S.Setting, s0: State, start: nat, history: seq<Event>, e: Event, served: seq<S.Exchange>)
    requires forall i :: 0 <= i < |served| ==> FromHistory(w, s0, start, history, served[i])
    ensures forall i :: 0 <= i < |served| ==> FromHistory(w, s0, start, history + [e], served[i])
  {
    hide FromHistory;
    forall i | 0 <= i < |served|
      ensures FromHistory(w, s0, start, history + [e], served[i])
    {
      HistoryLater(w, s0, start, history, e, served[i]);
    }
  }

  /** The handler serves its command: reply sent, or session over. */
  lemma JoinedServing(w: S.Setting, s0: State, start: nat, n: Net, s: S.Session, h: Handler, command: Command, id: bytes, lock: Lock)
    requires n.tables == Run(s0, n.history, w.keepDead) && s.tables == n.tables && start <= |n.history|
    requires s.server.sent <= Due(w, s0, start, n) && (s.server.alive ==> s.server.sent == Due(w, s0, start, n))
    requires s.server.alive ==> s.busy.Some? && Says(s.busy.value, command)
    requires forall i :: 0 <= i < |s.served| ==> FromHistory(w, s0, start, n.history, s.served[i])
    ensures var after := Serving(n, w.uuid, h, Issued(w.uuid, command, id), lock, w.keepDead);
            Joined(w, s0, start, Both(after, Settled(w, s, after, id)))
  {
    hide Run, Serve, Due, FromHistory, Requeued, ConstructPacket, Deliverable, ParseCommand;
    var e := Issued(w.uuid, command, id);
    var after := Serving(n, w.uuid, h, e, lock, w.keepDead);
    var out := Step(n.tables, e, w.keepDead).1;
    DueGrows(w, s0, start, n, after, e);
    ServedLater(w, s0, start, n.history, e, s.served);
    RenderOne(w, out);
    if IsPacket(out) && S.Possible(w, s, S.Reply(id)) {
      ServedNow(w, s0, start, n, s, e, S.Exchange(s.tables, id, s.busy.value, S.ReplyTo(w, s.tables, s.busy.value, id).value));
    }
  }

  lemma RenderOne(w: S.Setting, out: Outcome)
    ensures RenderAll(w, [out]) == [if S.Rendered(w, out).Some? then S.Rendered(w, out).value else []]
  {
    assert [out][..0] == [];
  }

  lemma ServedNow(w: S.Setting, s0: State, start: nat, n: Net, s: S.Session, e: Event, x: S.Exchange)
    requires n.tables == Run(s0, n.history, w.keepDead) && x.tables == n.tables && start <= |n.history|
    requires Serves(e, w.uuid, x)
    ensures FromHistory(w, s0, start, n.history + [e], x)
  {
    hide Run, ParseCommand;
    assert (n.history + [e])[..|n.history|] == n.history && (n.history + [e])[|n.history|] == e;
  }

  // ----- Each step keeps it -----

  lemma JoinedWire(w: S.Setting, s0: State, start: nat, b: Both, e: S.Happening)
    requires Joined(w, s0, start, b) && OnTheWire(e) && S.Possible(w, b.session, e)
    ensures Joined(w, s0, start, Both(b.net, S.After(w, b.session, e)))
  {
    hide Due, FromHistory, ExtractPacketFrame, VerifyPacket, ConstructPacket, Deliverable, ParseCommand;
  }

  /** Taking a frame changes neither the tables nor what has been sent. */
  lemma FetchTakes(w: S.Setting, s: S.Session)
    requires S.Possible(w, s, S.Fetch)
    ensures var f := S.After(w, s, S.Fetch);
            && f.tables == s.tables && f.server.sent == s.server.sent && f.served == s.served
            && (f.busy.Some? ==> f.server.alive)
  {
    hide ExtractPacketFrame, VerifyPacket;
  }

  lemma DeadJoined(w: S.Setting, s0: State, start: nat, b: Both, n: Net)
    requires Joined(w, s0, start, b) && w.uuid in n.handlers
    requires n.history == b.net.history || exists e :: n.history == b.net.history + [e] && !By(e, w.uuid)
    ensures Joined(w, s0, start, Both(n, Dead(b.session, n.tables)))
  {
    hide Due, FromHistory;
    if n.history == b.net.history {
      DueSame(w, s0, start, b.net, n);
    } else {
      var e :| n.history == b.net.history + [e] && !By(e, w.uuid);
      DueGrows(w, s0, start, b.net, n, e);
      ServedLater(w, s0, start, b.net.history, e, b.session.served);
    }
  }

  lemma JoinedArrive(w: S.Setting, s0: State, start: nat, b: Both, command: Command, id: bytes, c: Both)
    requires Joined(w, s0, start, b) && Goes(w, b, Handlers(Arrive(w.uuid, command, id)), c)
    requires b.net.tables == Run(s0, b.net.history, w.keepDead)
    ensures Joined(w, s0, start, c)
  {
    hide Run, Due, FromHistory, Serving, MustWait, Requeued, S.After, S.Possible, Says;
    var n, u, h := b.net, w.uuid, b.net.handlers[w.uuid];
    var f := S.After(w, b.session, S.Fetch);
    FetchTakes(w, b.session);
    AliveBefore(w, b.session);
    if u !in n.tables.clients.vals {
      DueSame(w, s0, start, n, c.net);
    } else if MustWait(n, u, command) {
      DueSame(w, s0, start, n, c.net);
    } else {
      JoinedServing(w, s0, start, n, f, h.(rx := h.rx + 1), command, id, LockOf(command));
    }
  }

  lemma AliveBefore(w: S.Setting, s: S.Session)
    requires S.Possible(w, s, S.Fetch)
    ensures s.server.alive
  {
  }

  lemma JoinedResume(w: S.Setting, s0: State, start: nat, b: Both, c: Both)
    requires Joined(w, s0, start, b) && Goes(w, b, Handlers(Resume(w.uuid)), c)
    requires b.net.tables == Run(s0, b.net.history, w.keepDead)
    ensures Joined(w, s0, start, c)
  {
    hide Run, Due, FromHistory, Serving, MayResume, S.After, S.Possible, Says;
    var h := b.net.handlers[w.uuid];
    JoinedServing(w, s0, start, b.net, b.session, h, h.phase.command, h.phase.id, LockOf(h.phase.command));
  }

  lemma JoinedSent(w: S.Setting, s0: State, start: nat, b: Both, c: Both)
    requires Joined(w, s0, start, b) && Goes(w, b, Handlers(Sent(w.uuid)), c)
    ensures Joined(w, s0, start, c)
  {
    hide Due, FromHistory, Requeued, Step, Says;
    if c.net.history == b.net.history {
      DueSame(w, s0, start, b.net, c.net);
    } else {
      assert c.net.history == b.net.history + [Refusal(w.uuid)];
    }
    if c.net.handlers[w.uuid].phase.Halted? {
      DeadJoined(w, s0, start, b, c.net);
    }
  }

  lemma JoinedFail(w: S.Setting, s0: State, start: nat, b: Both, c: Both)
    requires Joined(w, s0, start, b) && Goes(w, b, Handlers(Fail(w.uuid)), c)
    ensures Joined(w, s0, start, c)
  {
    hide Due, FromHistory, Requeued;
    DeadJoined(w, s0, start, b, c.net);
  }

  lemma JoinedStep(w: S.Setting, s0: State, start: nat, b: Both, step: Joint, c: Both)
    requires Joined(w, s0, start, b) && Goes(w, b, step, c)
    requires b.net.tables == Run(s0, b.net.history, w.keepDead)
    ensures Joined(w, s0, start, c)
  {
    hide Run, Joined, Enabled, Next, S.After, S.Possible, Settled;
    match step
    case Wire(e) => JoinedWire(w, s0, start, b, e);
    case Handlers(m) =>
      if Mover(m) != Some(w.uuid) {
        JoinedOther(w, s0, start, b, m, c);
      } else {
        match m
        case Arrive(_, command, id) => JoinedArrive(w, s0, start, b, command, id, c);
        case Resume(_) => JoinedResume(w, s0, start, b, c);
        case Sent(_) => JoinedSent(w, s0, start, b, c);
        case Fail(_) => JoinedFail(w, s0, start, b, c);
        case _ =>
      }
  }

  // ----- The two projections -----

  /** The session part of a joint run is a run of the session. */
  ghost predicate SessionRuns(w: S.Setting, tables: State, s: S.Session) {
    exists happenings :: S.Reaches(w, tables, happenings, s)
  }

  lemma Reached(w: S.Setting, tables: State, s: S.Session, e: S.Happening)
    requires SessionRuns(w, tables, s) && S.Possible(w, s, e)
    ensures SessionRuns(w, tables, S.After(w, s, e))
  {
    hide S.Possible, S.After;
    var happenings :| S.Reaches(w, tables, happenings, s);
    assert (happenings + [e])[..|happenings|] == happenings;
    assert S.Reaches(w, tables, happenings + [e], S.After(w, s, e));
  }

  lemma ReachedTables(w: S.Setting, tables: State, s: S.Session, now: State)
    requires SessionRuns(w, tables, s)
    ensures SessionRuns(w, tables, s.(tables := now)) && SessionRuns(w, tables, Dead(s, now))
  {
    hide SessionRuns;
    Reached(w, tables, s, S.Meanwhile(now));
    Reached(w, tables, s.(tables := now), S.ServerDies);
  }

  lemma ReachedSettled(w: S.Setting, tables: State, s: S.Session, n: Net, id: bytes)
    requires SessionRuns(w, tables, s) && w.uuid in n.handlers
    ensures SessionRuns(w, tables, Settled(w, s, n, id))
  {
    hide SessionRuns, S.Possible, S.After;
    ReachedTables(w, tables, s, n.tables);
    if S.Possible(w, s, S.Reply(id)) {
      Reached(w, tables, s, S.Reply(id));
    }
  }

  lemma ReachedStep(w: S.Setting, tables: State, b: Both, step: Joint, c: Both)
    requires SessionRuns(w, tables, b.session) && Goes(w, b, step, c)
    ensures SessionRuns(w, tables, c.session)
  {
    hide SessionRuns, S.Possible, S.After, Enabled, Next, Settled, Dead;
    match step
    case Wire(e) => Reached(w, tables, b.session, e);
    case Handlers(m) =>
      ReachedTables(w, tables, b.session, c.net.tables);
      if Mover(m) == Some(w.uuid) {
        match m
        case Arrive(_, _, id) =>
          Reached(w, tables, b.session, S.Fetch);
          ReachedSettled(w, tables, S.After(w, b.session, S.Fetch), c.net, id);
        case Resume(_) => ReachedSettled(w, tables, b.session, c.net, b.net.handlers[m.uuid].phase.id);
        case _ =>
      }
  }

  /** What holds of both, of the net, and of the session, at every moment of a joint run. */
  ghost predicate Together(w: S.Setting, s0: State, start: nat, tables: State, b: Both) {
    Joined(w, s0, start, b) && Inv(s0, b.net, w.keepDead) && SessionRuns(w, tables, b.session)
  }

  lemma TogetherStep(w: S.Setting, s0: State, start: nat, tables: State, b: Both, step: Joint, c: Both)
    requires Together(w, s0, start, tables, b) && Goes(w, b, step, c)
    ensures Together(w, s0, start, tables, c)
  {
    InvTables(s0, b.net, w.keepDead);
    hide Joined, Inv, SessionRuns, Run, S.Possible, S.After, Enabled, Next, Settled, OwnMove;
    JoinedStep(w, s0, start, b, step, c);
    ReachedStep(w, tables, b, step, c);
    if step.Handlers? {
      MoveKeeps(s0, b.net, step.move, w.keepDead);
    }
  }

  lemma InvTables(s0: State, n: Net, keepDead: bool)
    requires Inv(s0, n, keepDead)
    ensures n.tables == Run(s0, n.history, keepDead)
  {
    hide Run, Counted, Answered, Holds;
  }

  lemma {:induction false} TogetherInEveryRun(w: S.Setting, s0: State, start: nat, tables: State, b: Both, steps: seq<Joint>, c: Both)
    requires Together(w, s0, start, tables, b) && GoesOn(w, b, steps, c)
    ensures Together(w, s0, start, tables, c)
  {
    hide Together, Goes;
    if steps != [] {
      var init, last := steps[..|steps| - 1], steps[|steps| - 1];
      var mid :| GoesOn(w, b, init, mid) && Goes(w, mid, last, c);
      TogetherInEveryRun(w, s0, start, tables, b, init, mid);
      TogetherStep(w, s0, start, tables, mid, last, c);
    }
  }

  lemma SessionStarts(w: S.Setting, s0: State, n: Net)
    requires Inv(s0, n, w.keepDead) && w.uuid in n.handlers && n.handlers[w.uuid].phase.Idle?
    ensures Together(w, s0, |n.history|, n.tables, Both(n, S.Begin(n.tables)))
  {
    hide Inv;
    assert Owed(s0, n.history, |n.history|, w.uuid, w.keepDead) == [];
    assert S.Reaches(w, n.tables, [], S.Begin(n.tables));
  }

  // ----- Main result -----

  /**
   A client that has just logged in, among any other handlers, with its bytes cut into any
   chunks: what it has verified is a prefix of what the one atomic history of the whole
   server owes it, and each of its commands was served by an event of that history, from
   the tables of that moment.
   */
  lemma ClientReadsTheHistory(w: S.Setting, s0: State, earlier: seq<Move>, n: Net, steps: seq<Joint>, c: Both)
    requires Lawful(w.l) && Moves(Started(s0), earlier, n, w.keepDead)
    requires w.uuid in n.handlers && n.handlers[w.uuid].phase.Idle?
    requires GoesOn(w, Both(n, S.Begin(n.tables)), steps, c)
    ensures var owed := RenderAll(w, Owed(s0, c.net.history, |n.history|, w.uuid, w.keepDead));
            && c.session.client.got <= c.session.server.sent <= owed
            && (c.session.server.alive ==> c.session.server.sent == owed)
    ensures c.session.server.got <= c.session.client.sent
    ensures c.net.tables == Run(s0, c.net.history, w.keepDead) == c.session.tables
    ensures |c.session.client.got| <= |c.session.served| <= |c.session.client.sent|
    ensures forall i :: 0 <= i < |c.session.served| ==> FromHistory(w, s0, |n.history|, c.net.history, c.session.served[i])
    ensures forall i :: 0 <= i < |c.session.client.got| ==>
              c.session.served[i].request == c.session.client.sent[i] && c.session.served[i].reply == c.session.client.got[i]
  {
    hide *;
    EveryRunLinearises(s0, earlier, n, w.keepDead);
    SessionStarts(w, s0, n);
    TogetherInEveryRun(w, s0, |n.history|, n.tables, Both(n, S.Begin(n.tables)), steps, c);
    TogetherMeans(w, s0, |n.history|, n.tables, c);
    var happenings :| S.Reaches(w, n.tables, happenings, c.session);
    S.SessionDelivers(w, n.tables, happenings, c.session);
  }

  lemma TogetherMeans(w: S.Setting, s0: State, start: nat, tables: State, c: Both)
    requires Together(w, s0, start, tables, c)
    ensures var owed := RenderAll(w, Owed(s0, c.net.history, start, w.uuid, w.keepDead));
            c.session.server.sent <= owed && (c.session.server.alive ==> c.session.server.sent == owed)
    ensures c.net.tables == Run(s0, c.net.history, w.keepDead) == c.session.tables
    ensures forall i :: 0 <= i < |c.session.served| ==> FromHistory(w, s0, start, c.net.history, c.session.served[i])
    ensures exists happenings :: S.Reaches(w, tables, happenings, c.session)
  {
    hide Inv, RenderAll, Owed, Run, FromHistory, S.Reaches, Says;
    InvTables(s0, c.net, w.keepDead);
  }
}
