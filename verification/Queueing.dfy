/** The queues for the locks: who stands in them, in every run. */
module Queueing {
  import opened Wrappers
  import opened Tables
  import opened Runs
  import opened Interleaving

  // ----- Lists of places -----

  /** Nobody stands in line twice. */
  predicate Single(line: seq<Place>) {
    forall i, j :: 0 <= i < j < |line| ==> line[i].who != line[j].who
  }

  lemma {:induction false} WithoutMembers(line: seq<Place>, who: Option<string>, p: Place)
    ensures p in Without(line, who) <==> p in line && p.who != who
  {
    if line != [] {
      WithoutMembers(line[1..], who, p);
    }
  }

  lemma {:induction false} WithoutAbsent(line: seq<Place>, who: Option<string>)
    requires forall p :: p in line ==> p.who != who
    ensures Without(line, who) == line
  {
    if line != [] {
      WithoutAbsent(line[1..], who);
    }
  }

  lemma {:induction false} WithoutSingle(line: seq<Place>, who: Option<string>)
    requires Single(line)
    ensures Single(Without(line, who))
  {
    if line != [] {
      var rest := Without(line[1..], who);
      WithoutSingle(line[1..], who);
      forall j | 0 <= j < |rest|
        ensures rest[j].who != line[0].who
      {
        WithoutMembers(line[1..], who, rest[j]);
      }
    }
  }

  /** Taking the one at position i out of the line. */
  lemma {:induction false} WithoutOne(line: seq<Place>, i: nat)
    requires Single(line) && i < |line|
    ensures Without(line, line[i].who) == line[..i] + line[i + 1..]
  {
    if i == 0 {
      assert forall p :: p in line[1..] ==> p.who != line[0].who;
      WithoutAbsent(line[1..], line[0].who);
    } else {
      WithoutOne(line[1..], i - 1);
      assert line[..i] == [line[0]] + line[1..][..i - 1];
    }
  }

  lemma SingleSnoc(line: seq<Place>, p: Place)
    requires Single(line) && forall q :: q in line ==> q.who != p.who
    ensures Single(line + [p])
  {
  }

  // ----- The line of a net -----

  /** The handlers in line are exactly those that wait for a lock, each with its place. */
  ghost predicate LineOk(n: Net) {
    && Single(n.line)
    && (forall p :: p in n.line && p.who.Some? ==> p.who.value in n.handlers && PlaceOf(p.who.value, n.handlers[p.who.value]) == [p])
    && (forall u :: u in n.handlers ==> forall p :: p in PlaceOf(u, n.handlers[u]) ==> p in n.line)
  }

  /** No checkpoint stands in line. */
  predicate NoSave(line: seq<Place>) {
    forall i :: 0 <= i < |line| ==> line[i].who.Some?
  }

  lemma RequeuedMembers(line: seq<Place>, uuid: string, h: Handler, p: Place)
    ensures p in Requeued(line, uuid, h) <==> (p in line && p.who != Some(uuid)) || p in PlaceOf(uuid, h)
  {
    WithoutMembers(line, Some(uuid), p);
  }

  lemma RequeuedSingle(line: seq<Place>, uuid: string, h: Handler)
    requires Single(line)
    ensures Single(Requeued(line, uuid, h))
  {
    var rest := Without(line, Some(uuid));
    WithoutSingle(line, Some(uuid));
    if PlaceOf(uuid, h) != [] {
      forall q | q in rest
        ensures q.who != Some(uuid)
      {
        WithoutMembers(line, Some(uuid), q);
      }
      SingleSnoc(rest, PlaceOf(uuid, h)[0]);
    }
  }

  lemma SetHandlerLine(n: Net, uuid: string, h: Handler)
    requires LineOk(n)
    ensures LineOk(SetHandler(n, uuid, h))
  {
    hide Requeued, Needs;
    var after := SetHandler(n, uuid, h);
    RequeuedSingle(n.line, uuid, h);
    forall p | p in after.line && p.who.Some?
      ensures p.who.value in after.handlers && PlaceOf(p.who.value, after.handlers[p.who.value]) == [p]
    {
      RequeuedMembers(n.line, uuid, h, p);
    }
    forall u, p | u in after.handlers && p in PlaceOf(u, after.handlers[u])
      ensures p in after.line
    {
      RequeuedMembers(n.line, uuid, h, p);
    }
  }

  lemma SameLine(n: Net, m: Net)
    requires LineOk(n) && m.handlers == n.handlers && m.line == n.line
    ensures LineOk(m)
  {
  }

  lemma SetHandlerNoSave(n: Net, uuid: string, h: Handler)
    ensures NoSave(n.line) ==> NoSave(SetHandler(n, uuid, h).line)
    ensures forall p: Place :: p.who.None? ==> (p in SetHandler(n, uuid, h).line <==> p in n.line)
  {
    forall p: Place
      ensures p.who.None? ==> (p in SetHandler(n, uuid, h).line <==> p in n.line)
    {
      RequeuedMembers(n.line, uuid, h, p);
    }
    forall i | 0 <= i < |SetHandler(n, uuid, h).line| && NoSave(n.line)
      ensures SetHandler(n, uuid, h).line[i].who.Some?
    {
      assert SetHandler(n, uuid, h).line[i] in SetHandler(n, uuid, h).line;
    }
  }

  /** A move either changes one handler and its place in line, or neither. */
  lemma MoveLine(n: Net, m: Move, keepDead: bool)
    requires Enabled(n, m)
    ensures var after := Next(n, m, keepDead);
            || (after.handlers == n.handlers && after.line == n.line)
            || exists uuid, h :: after.handlers == SetHandler(n, uuid, h).handlers && after.line == SetHandler(n, uuid, h).line
  {
    hide Step, MustWait, MayResume, DbLocked, Requeued;
    var after := Next(n, m, keepDead);
    if !m.Other? {
      var uuid := m.uuid;
      var h := after.handlers[uuid];
      assert after.handlers == SetHandler(n, uuid, h).handlers && after.line == SetHandler(n, uuid, h).line;
    }
  }

  lemma NextLine(n: Net, m: Move, keepDead: bool)
    requires LineOk(n) && Enabled(n, m)
    ensures LineOk(Next(n, m, keepDead))
    ensures NoSave(n.line) ==> NoSave(Next(n, m, keepDead).line)
    ensures forall p: Place :: p.who.None? ==> (p in Next(n, m, keepDead).line <==> p in n.line)
  {
    hide LineOk, Next, Enabled, SetHandler, NoSave;
    MoveLine(n, m, keepDead);
    var after := Next(n, m, keepDead);
    if after.handlers == n.handlers && after.line == n.line {
      SameLine(n, after);
    } else {
      var uuid, h :| after.handlers == SetHandler(n, uuid, h).handlers && after.line == SetHandler(n, uuid, h).line;
      SetHandlerLine(n, uuid, h);
      SetHandlerNoSave(n, uuid, h);
      SameLine(SetHandler(n, uuid, h), after);
    }
  }

  lemma StartedLine(tables: State)
    ensures LineOk(Started(tables)) && NoSave(Started(tables).line)
  {
  }

  /** Without a checkpoint, exactly the handlers that wait for a lock are in line, in every run. */
  lemma {:induction false} LineInEveryRun(tables: State, moves: seq<Move>, n: Net, keepDead: bool)
    requires Moves(Started(tables), moves, n, keepDead)
    ensures LineOk(n) && NoSave(n.line)
  {
    hide LineOk, NoSave, Enabled, Next, Started;
    StartedLine(tables);
    if moves != [] {
      var init, last := moves[..|moves| - 1], moves[|moves| - 1];
      var mid :| Moves(Started(tables), init, mid, keepDead) && Enabled(mid, last) && n == Next(mid, last, keepDead);
      LineInEveryRun(tables, init, mid, keepDead);
      NextLine(mid, last, keepDead);
    }
  }

  /** So a lock is awaited exactly while some handler waits for it. */
  lemma AwaitedIff(n: Net, what: Resource)
    requires LineOk(n) && NoSave(n.line)
    ensures Awaited(n.line, what) <==>
              exists u :: u in n.handlers && n.handlers[u].phase.Waiting? && Needs(u, n.handlers[u].phase.command) == Some(what)
  {
    hide Needs;
    if Awaited(n.line, what) {
      var i :| 0 <= i < |n.line| && n.line[i].what == what;
      assert n.line[i] in n.line;
    }
    if u :| u in n.handlers && n.handlers[u].phase.Waiting? && Needs(u, n.handlers[u].phase.command) == Some(what) {
      assert PlaceOf(u, n.handlers[u]) == [Place(Some(u), what)];
      assert Place(Some(u), what) in n.line;
    }
  }

  lemma SomebodyWaits(n: Net)
    requires LineOk(n) && NoSave(n.line)
    ensures n.line != [] ==> exists u :: u in n.handlers && n.handlers[u].phase.Waiting?
  {
    if n.line != [] {
      var p := n.line[0];
      assert p in n.line;
      assert p.who.value in n.handlers && PlaceOf(p.who.value, n.handlers[p.who.value]) == [p];
    }
  }

  /** When every handler has stopped, nobody is in line. */
  lemma NobodyInLine(n: Net)
    requires LineOk(n) && NoSave(n.line)
    requires forall u :: u in n.handlers ==> n.handlers[u].phase.Halted?
    ensures n.line == []
  {
    hide LineOk, NoSave;
    SomebodyWaits(n);
  }
}
