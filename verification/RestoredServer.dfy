/**
 The saved server and one restored from its checkpoint, as two objects side by
 side: every login and every frame finds them alike and leaves them alike.
 */
module RestoredServer {
  import opened Wrappers
  import opened Bytes
  import opened Packets
  import opened Tables
  import opened Commands
  import opened Servers
  import opened Checkpoint
  import opened CheckpointProofs
  import opened CheckpointLoader

  /** Every connection in b is one in a, at the same counters. */
  predicate Within(b: map<string, Link>, a: map<string, Link>) {
    forall u :: u in b && b[u].hasCipher ==> u in a && a[u] == b[u]
  }

  /**
   Same tables; and whoever is connected to the restored server `b` has the same
   connection to `a`. What `a` remembers of connections from before the restart is not compared.
   */
  ghost predicate Twins(a: Server, b: Server)
    reads a, b, a.Clients(), b.Clients()
  {
    && a != b && a.Valid() && b.Valid() && a.Clients() !! b.Clients()
    && a.keepDeadSessions == b.keepDeadSessions
    && a.View() == b.View()
    && Within(b.Links(), a.Links())
  }

  lemma TwinsMean(a: Server, b: Server)
    ensures Twins(a, b) <==>
              && a != b && a.Valid() && b.Valid() && a.Clients() !! b.Clients()
              && a.keepDeadSessions == b.keepDeadSessions && a.View() == b.View() && Within(b.Links(), a.Links())
    ensures Twins(a, b) ==> forall u :: u in a.clientDb.vals <==> u in b.clientDb.vals
  {
    assert a.View().clients.vals.Keys == a.clientDb.vals.Keys;
    assert b.View().clients.vals.Keys == b.clientDb.vals.Keys;
  }

  lemma WithinPut(b: map<string, Link>, a: map<string, Link>, uuid: string, link: Link)
    requires Within(b, a)
    ensures Within(b[uuid := link], a[uuid := link])
  {
  }

  lemma WithinStill(b: map<string, Link>, a: map<string, Link>, s: State)
    requires Within(b, a)
    ensures Within(Still(b, s), Still(a, s))
  {
  }

  lemma WithinNobody(b: map<string, Link>, a: map<string, Link>)
    requires forall u :: u in b ==> b[u] == NOBODY
    ensures Within(b, a)
  {
  }

  lemma DetachedLinks(b: Server)
    requires forall c :: c in b.Clients() ==> Detached(c)
    ensures forall u :: u in b.Links() ==> b.Links()[u] == NOBODY
  {
    forall u | u in b.Links()
      ensures b.Links()[u] == NOBODY
    {
      assert b.clientDb.vals[u] in b.Clients();
    }
  }

  /** The restart: a new process reads the checkpoint into an empty server, and nobody is connected. */
  method Restart(z: Zstd, a: Server, data: bytes) returns (b: Server)
    requires a.Valid() && Inverse(z) && Serialisable(a.View()) && Consistent(a.View())
    requires data == Snapshot(z, a.View())
    ensures fresh(b) && fresh(b.Clients()) && Twins(a, b)
    ensures forall u :: u in b.Links() ==> b.Links()[u] == NOBODY
  {
    hide a.View, a.Links, a.Valid, Twins, Within, Still, Login, Arrive, Consistent, Serialisable, Restore, Snapshot, Inverse;
    ghost var s, clients := a.View(), a.Clients();
    LosslessIff(z, s);
    b := new Server(a.keepDeadSessions);
    var _ := DeserializeInto(z, data, b);
    DetachedLinks(b);
    WithinNobody(b.Links(), a.Links());
    TwinsMean(a, b);
  }

  /** `handle_client` starts on the restored server only where it would have started on the saved one. */
  method StartBoth(a: Server, b: Server, uuid: string) returns (x: Option<Fault>, y: Option<Fault>)
    requires Twins(a, b)
    ensures y.None? ==> x.None?
    ensures x == Some(KeyFault) <==> y == Some(KeyFault)
  {
    TwinsMean(a, b);
    a.LinkOf(uuid);
    b.LinkOf(uuid);
    x := a.StartHandler(uuid);
    y := b.StartHandler(uuid);
  }

  /** A login that asks for a UUID: the old entry if there is one, else a new one under `newUuid`. */
  method LoginBoth(a: Server, b: Server, asked: string, newUuid: string) returns (x: string, y: string)
    requires Twins(a, b)
    modifies a, b, a.Clients(), b.Clients()
    ensures Twins(a, b) && x == y
    ensures x in b.Links() && b.Links()[x] == CONNECTED
  {
    hide a.View, a.Links, a.Valid, Twins, Within, Still, Login, Arrive, Consistent, Serialisable, Restore, Snapshot, Inverse;
    TwinsMean(a, b);
    ghost var s, la, lb := a.View(), a.Links(), b.Links();
    if asked in a.clientDb.vals {
      x, y := asked, asked;
      a.AcceptKnown(x);
      b.AcceptKnown(y);
    } else {
      x, y := newUuid, newUuid;
      a.AcceptNew(x);
      b.AcceptNew(y);
    }
    WithinPut(lb, la, x, CONNECTED);
    TwinsMean(a, b);
  }

  /** A frame for a handler that was started on the restored server. */
  method FrameBoth(a: Server, b: Server, uuid: string, l: Libs, frame: bytes, id: bytes) returns (x: Arrival, y: Arrival)
    requires Twins(a, b)
    requires uuid in b.Links() ==> b.Links()[uuid].hasCipher
    modifies a, b, a.Clients(), b.Clients()
    ensures Twins(a, b) && x == y
  {
    hide a.View, a.Links, a.Valid, Twins, Within, Still, Login, Arrive, Consistent, Serialisable, Restore, Snapshot, Inverse;
    TwinsMean(a, b);
    SameLink(a, b, uuid);
    ghost var la, lb := a.Links(), b.Links();
    x := a.HandleFrame(uuid, l, frame, id);
    y := b.HandleFrame(uuid, l, frame, id);
    if uuid in lb {
      ghost var link := lb[uuid].(rx := lb[uuid].rx + 1);
      WithinPut(lb, la, uuid, link);
      WithinStill(lb, la, a.View());
      WithinStill(lb[uuid := link], la[uuid := link], a.View());
    }
    TwinsMean(a, b);
  }

  method SentBoth(a: Server, b: Server, uuid: string) returns (x: bool, y: bool)
    requires Twins(a, b)
    requires uuid in b.Links() ==> b.Links()[uuid].hasCipher
    modifies a.Clients(), b.Clients()
    ensures Twins(a, b) && x == y
  {
    hide a.View, a.Links, a.Valid, Twins, Within, Still, Login, Arrive, Consistent, Serialisable, Restore, Snapshot, Inverse;
    TwinsMean(a, b);
    SameLink(a, b, uuid);
    ghost var s, la, lb := a.View(), a.Links(), b.Links();
    x := a.ReplySent(uuid);
    y := b.ReplySent(uuid);
    if x {
      WithinPut(lb, la, uuid, lb[uuid].(tx := lb[uuid].tx + 1));
    }
    TwinsMean(a, b);
  }

  lemma SameLink(a: Server, b: Server, uuid: string)
    requires Twins(a, b) && (uuid in b.Links() ==> b.Links()[uuid].hasCipher)
    ensures uuid in b.Links() <==> uuid in a.Links()
    ensures uuid in b.Links() ==> b.Links()[uuid] == a.Links()[uuid]
  {
    TwinsMean(a, b);
  }
}
