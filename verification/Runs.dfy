/** Runs of a server: sequences of the await-free stretches that touch its tables. */
module Runs {
  import opened Bytes
  import opened Dicts
  import opened Packets
  import opened Tables
  import opened Wire
  import opened Commands

  datatype Event =
    | Issued(uuid: string, command: Command, id: bytes)    // a handler serves a command
    | Detached(uuid: string)                               // a response written to an entry that has left the table
    | LoggedIn(uuid: string)                               // a login under a new UUID
    | LoggedBack(uuid: string)                             // a relogin: a new connection, the tables as they were
    | Refusal(uuid: string)                                // a rejected packet ends the session
    | Drain(uuid: string, taken: nat)                      // a checkpoint takes requests off an inbox
    | Admitted(ticket: ClientRecord)                       // add_client
    | Dismissed(uuid: string)                              // remove_client
    | KeyGiven(key: string, uuid: string)                  // add_key
    | KeyTaken(key: string, uuid: string)                  // remove_key
    | DbSet(dbKey: bytes, value: bytes)                      // set_db
    | DbRemoved(dbKey: bytes)                                // remove_db

  function Step(s: State, e: Event, keepDead: bool): (State, Outcome) {
    match e
    case Issued(uuid, command, id) => Serve(s, uuid, command, id, keepDead)
    case Detached(uuid) => (s, Answer(s, uuid, ACK))
    case LoggedIn(uuid) => (Login(s, uuid), Done)
    case LoggedBack(_) => (s, Done)
    case Refusal(uuid) => (Depart(s, uuid, keepDead), Done)
    case Drain(uuid, taken) => (TakeOff(s, uuid, taken), Done)
    case Admitted(ticket) => AddClient(s, ticket)
    case Dismissed(uuid) => RemoveClient(s, uuid)
    case KeyGiven(key, uuid) => AddKey(s, key, uuid)
    case KeyTaken(key, uuid) => RemoveKey(s, key, uuid)
    case DbSet(key, value) => (s.(db := Put(s.db, key, value)), Done)
    case DbRemoved(key) => RemoveDb(s, key)
  }

  /** This event serves a command of this client. */
  predicate By(e: Event, uuid: string) {
    (e.Issued? || e.Detached?) && e.uuid == uuid
  }

  predicate IsPacket(out: Outcome) {
    out.Reply? || out.Listing?
  }

  /** The tables after the events, in order. Handlers that crash or wait leave no further event. */
  function Run(s: State, events: seq<Event>, keepDead: bool): State {
    if events == [] then s
    else Step(Run(s, events[..|events| - 1], keepDead), events[|events| - 1], keepDead).0
  }

  lemma RunSnoc(s: State, events: seq<Event>, e: Event, keepDead: bool)
    ensures Run(s, events + [e], keepDead) == Step(Run(s, events, keepDead), e, keepDead).0
  {
    assert (events + [e])[..|events|] == events;
  }

  lemma RunOne(s: State, e: Event, keepDead: bool)
    ensures Run(s, [e], keepDead) == Step(s, e, keepDead).0
  {
    assert [e][..0] == [];
  }

  lemma {:induction false} RunAppend(s: State, a: seq<Event>, b: seq<Event>, keepDead: bool)
    ensures Run(s, a + b, keepDead) == Run(Run(s, a, keepDead), b, keepDead)
  {
    hide Step;
    if b == [] {
      assert a + b == a;
    } else {
      var init := b[..|b| - 1];
      RunAppend(s, a, init, keepDead);
      assert (a + b)[..|a + b| - 1] == a + init;
    }
  }
}
