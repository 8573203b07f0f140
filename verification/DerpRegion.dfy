/**
 Every run of a DERP relay's registry: connections come, are replaced and go,
 watchers are kept informed, sends are noted and forwarders come and go, in any
 order. The histories kept beside the server's fields say what happened.
 */
module DerpRegion {
  import opened DerpServer

  /**
   `conns` are the connections by number, `waiting` those not yet registered,
   `used` those ever registered, `live` those not yet unregistered. `written` are
   the mesh updates written to a connection, and `noted` the connections each
   key was noted to send to since it last left the region. `latest` is the last
   connection registered for each key, `asked` are the connections that asked to
   watch, and `wish` is what each connection last said of being at home here.
   */
  datatype World = World(
    s: State,
    conns: map<nat, Conn>,
    waiting: set<Conn>,
    used: set<Conn>,
    live: set<Conn>,
    written: map<Conn, seq<PeerChange>>,
    noted: map<Key, set<Conn>>,
    latest: map<Key, Conn>,
    asked: set<Conn>,
    wish: map<Conn, bool>)

  function Init(publicKey: Key): World { World(InitState(publicKey), map[], {}, {}, {}, map[], map[], map[], {}, map[]) }

  datatype Step =
    | Accept(key: Key, canMesh: bool)
    | RegisterConn(c: Conn)
    | UnregisterConn(c: Conn)
    | Watch(c: Conn, order: seq<Key>)
    | Drain(c: Conn, avail: nat)
    | Send(src: Key, dst: Key)
    | Prefer(c: Conn, v: bool)
    | AddFwd(dst: Key, f: Fwd)
    | RemoveFwd(dst: Key, f: Fwd)

  ghost predicate Enabled(w: World, step: Step) {
    match step
    case Accept(_, _) | AddFwd(_, _) | RemoveFwd(_, _) => true
    case RegisterConn(c) => c in w.waiting
    case UnregisterConn(c) => c in w.live
    case Watch(c, order) => c in w.live && c.canMesh && Enumerates(order, w.s.clients.Keys)
    case Drain(c, _) => c in w.live
    case Send(_, dst) => dst in w.s.clients
    case Prefer(c, _) => c in w.live
  }

  function Noted(w: World, src: Key): set<Conn> { if src in w.noted then w.noted[src] else {} }

  /** The key is in the region before and not after. */
  predicate Leaves(before: State, after: State, key: Key) { key in before.clientsMesh && key !in after.clientsMesh }

  /** The history of sends without those of keys that left. */
  function NotedAfter(w: World, after: State): map<Key, set<Conn>> {
    map k | k in w.noted && !Leaves(w.s, after, k) :: w.noted[k]
  }

  ghost function Apply(w: World, step: Step): World {
    match step
    case Accept(key, canMesh) =>
      var c := Conn(w.s.accepts + 1, key, canMesh);
      w.(s := w.s.(accepts := c.num), conns := w.conns[c.num := c], waiting := w.waiting + {c})
    case RegisterConn(c) =>
      w.(s := Register(w.s, c), waiting := w.waiting - {c}, used := w.used + {c}, live := w.live + {c},
         latest := w.latest[c.key := c])
    case UnregisterConn(c) =>
      w.(s := Unregister(w.s, c), live := w.live - {c}, noted := NotedAfter(w, Unregister(w.s, c)))
    case Watch(c, order) => w.(s := AddWatcher(w.s, c, order), asked := w.asked + {c})
    case Drain(c, avail) =>
      w.(s := DrainUpdates(w.s, c, avail),
         written := w.written[c := Changes(w.written, c) + Changes(w.s.peerStateChange, c)[..Drained(w.s, c, avail)]])
    case Send(src, dst) =>
      if dst !in w.s.clients then w
      else w.(s := NoteSend(w.s, src, w.s.clients[dst]), noted := w.noted[src := Noted(w, src) + {w.s.clients[dst]}])
    case Prefer(c, v) => w.(s := SetPreferred(w.s, c, v), wish := w.wish[c := v])
    case AddFwd(dst, f) => w.(s := w.s.(clientsMesh := AddForwarder(w.s.clientsMesh, dst, f)))
    case RemoveFwd(dst, f) =>
      w.(s := RemoveForwarder(w.s, dst, f), noted := NotedAfter(w, RemoveForwarder(w.s, dst, f)))
  }

  ghost predicate ValidRun(w: World, steps: seq<Step>)
    decreases steps
  {
    steps == [] || (Enabled(w, steps[0]) && ValidRun(Apply(w, steps[0]), steps[1..]))
  }

  ghost function Exec(w: World, steps: seq<Step>): World
    requires ValidRun(w, steps)
    decreases steps
  {
    if steps == [] then w else Exec(Apply(w, steps[0]), steps[1..])
  }

  // ---------------------------------------------------------------------
  // Connections and counters
  // ---------------------------------------------------------------------

  /** A number names one connection. */
  predicate Known(w: World, c: Conn) { c.num in w.conns && w.conns[c.num] == c }

  /** Connection numbers name connections, and no connection is registered twice. */
  ghost predicate ConnsOk(w: World) {
    && w.waiting !! w.used && w.live <= w.used
    && (forall n :: n in w.conns ==> n <= w.s.accepts)
    && (forall c :: c in w.waiting ==> Known(w, c))
    && (forall c :: c in w.used ==> Known(w, c))
    && (forall k :: k in w.s.clients ==> w.s.clients[k].key == k && w.s.clients[k] in w.live)
    && w.s.watchers <= w.live
    && (forall c :: c in w.s.watchers ==> c.canMesh)
  }

  ghost predicate CountersOk(w: World) {
    && w.s.curClients == |w.live|
    && w.s.preferred <= w.live && w.s.curHomeClients == |w.s.preferred|
  }

  /** A member of clientsMesh is local or has forwarders; a multiForwarder has exactly two, with byte ranks. */
  ghost predicate EntryOk(e: MeshEntry) {
    e.Multi? ==> |e.ranks| == 2 && forall f :: f in e.ranks ==> e.ranks[f] < 256
  }

  ghost predicate MeshOk(clients: map<Key, Conn>, mesh: map<Key, MeshEntry>) {
    && (forall k :: k in clients ==> k in mesh)
    && (forall k :: k in mesh ==> EntryOk(mesh[k]) && (mesh[k].LocalOnly? ==> k in clients))
  }

  lemma RemoveFromPair(m: map<Fwd, nat>, f: Fwd)
    requires EntryOk(Multi(m))
    ensures f in m ==> WithoutMember(m, f).One? && m.Keys == {f, WithoutMember(m, f).f} && WithoutMember(m, f).f != f
    ensures f !in m ==> WithoutMember(m, f) == Multi(m)
    ensures EntryOk(WithoutMember(m, f)) && !WithoutMember(m, f).LocalOnly?
  {
    var rest := m - {f};
    assert rest.Keys == m.Keys - {f};
    if f in m {
      assert |rest| == 1;
      var g := WithoutMember(m, f).f;
      OnlyMember(rest, g);
      assert forall h :: h in m ==> h == f || h in rest;
    } else {
      assert rest == m;
    }
  }

  lemma AddKeepsEntry(e: MeshEntry, f: Fwd)
    requires EntryOk(e)
    ensures EntryOk(AddToEntry(e, f)) && !AddToEntry(e, f).LocalOnly?
  {
    var after := AddToEntry(e, f);
    if e.Multi? && f in e.ranks {
      assert after.ranks.Keys == e.ranks.Keys;
      assert |after.ranks| == |after.ranks.Keys|;
    } else if after.Multi? && e.One? {
      assert after.ranks.Keys == {e.f, f};
      assert |after.ranks| == |after.ranks.Keys|;
    }
  }

  lemma AddKeepsMesh(clients: map<Key, Conn>, mesh: map<Key, MeshEntry>, dst: Key, f: Fwd)
    requires MeshOk(clients, mesh)
    ensures MeshOk(clients, AddForwarder(mesh, dst, f))
  {
    AddKeepsEntry(Entry(mesh, dst), f);
  }

  lemma RemoveKeepsMesh(clients: map<Key, Conn>, mesh: map<Key, MeshEntry>, dst: Key, f: Fwd)
    requires MeshOk(clients, mesh)
    ensures MeshOk(clients, RemoveFrom(mesh, dst in clients, dst, f))
  {
    if dst in mesh && mesh[dst].Multi? {
      RemoveFromPair(mesh[dst].ranks, f);
      ReplaceKeepsMesh(clients, mesh, dst, WithoutMember(mesh[dst].ranks, f));
    } else if dst in mesh && mesh[dst] == One(f) && dst in clients {
      ReplaceKeepsMesh(clients, mesh, dst, LocalOnly);
    }
  }

  lemma ReplaceKeepsMesh(clients: map<Key, Conn>, mesh: map<Key, MeshEntry>, dst: Key, e: MeshEntry)
    requires MeshOk(clients, mesh) && dst in mesh && EntryOk(e) && (e.LocalOnly? ==> dst in clients)
    ensures MeshOk(clients, mesh[dst := e])
  {
  }

  lemma MeshFrame(w: World, step: Step)
    requires step.Accept? || step.Watch? || step.Drain? || step.Send? || step.Prefer?
    ensures Apply(w, step).s.clients == w.s.clients && Apply(w, step).s.clientsMesh == w.s.clientsMesh
  {
  }

  lemma StepKeepsMesh(w: World, step: Step)
    requires ConnsOk(w) && MeshOk(w.s.clients, w.s.clientsMesh) && Enabled(w, step)
    ensures MeshOk(Apply(w, step).s.clients, Apply(w, step).s.clientsMesh)
  {
    match step
    case RegisterConn(c) =>
    case UnregisterConn(c) =>
    case AddFwd(dst, f) => AddKeepsMesh(w.s.clients, w.s.clientsMesh, dst, f);
    case RemoveFwd(dst, f) => RemoveKeepsMesh(w.s.clients, w.s.clientsMesh, dst, f);
    case Accept(_, _) | Watch(_, _) | Drain(_, _) | Send(_, _) | Prefer(_, _) => MeshFrame(w, step);
  }

  lemma AcceptKeepsConns(w: World, key: Key, canMesh: bool)
    requires ConnsOk(w)
    ensures ConnsOk(Apply(w, Accept(key, canMesh)))
  {
  }

  lemma RegisterKeepsConns(w: World, c: Conn)
    requires ConnsOk(w) && c in w.waiting
    ensures ConnsOk(Apply(w, RegisterConn(c)))
  {
  }

  lemma UnregisterKeepsConns(w: World, c: Conn)
    requires ConnsOk(w) && c in w.live
    ensures ConnsOk(Apply(w, UnregisterConn(c)))
  {
    assert Apply(w, UnregisterConn(c)).s.watchers <= w.live - {c};
  }

  /** What the steps that neither make nor end connections leave alone. */
  lemma ConnsFrame(w: World, step: Step)
    requires Enabled(w, step) && !step.Accept? && !step.RegisterConn? && !step.UnregisterConn?
    ensures var t := Apply(w, step);
            && t.conns == w.conns && t.waiting == w.waiting && t.used == w.used && t.live == w.live
            && t.s.accepts == w.s.accepts && t.s.clients == w.s.clients && t.s.curClients == w.s.curClients
  {
  }

  lemma StepKeepsConns(w: World, step: Step)
    requires ConnsOk(w) && Enabled(w, step)
    ensures ConnsOk(Apply(w, step))
  {
    match step
    case Accept(key, canMesh) => AcceptKeepsConns(w, key, canMesh);
    case RegisterConn(c) => RegisterKeepsConns(w, c);
    case UnregisterConn(c) => UnregisterKeepsConns(w, c);
    case Watch(_, _) | Drain(_, _) | Send(_, _) | Prefer(_, _) | AddFwd(_, _) | RemoveFwd(_, _) =>
      ConnsFrame(w, step);
      WatchersAfter(w, step);
      SameConns(w, Apply(w, step));
  }

  lemma WatchersAfter(w: World, step: Step)
    requires Enabled(w, step) && !step.Accept? && !step.RegisterConn? && !step.UnregisterConn?
    ensures forall c :: c in Apply(w, step).s.watchers ==> c in w.s.watchers || (c in w.live && c.canMesh)
  {
  }

  lemma SameConns(w: World, t: World)
    requires ConnsOk(w)
    requires t.conns == w.conns && t.waiting == w.waiting && t.used == w.used && t.live == w.live
    requires t.s.accepts == w.s.accepts && t.s.clients == w.s.clients
    requires forall c :: c in t.s.watchers ==> c in w.s.watchers || (c in w.live && c.canMesh)
    ensures ConnsOk(t)
  {
  }

  lemma StepKeepsCounters(w: World, step: Step)
    requires ConnsOk(w) && CountersOk(w) && Enabled(w, step)
    ensures CountersOk(Apply(w, step))
  {
    match step
    case RegisterConn(c) => assert c !in w.live;
    case UnregisterConn(c) => UnregisterKeepsCounters(w, c);
    case Prefer(c, v) =>
    case Accept(_, _) | Watch(_, _) | Drain(_, _) | Send(_, _) | AddFwd(_, _) | RemoveFwd(_, _) => CountersFrame(w, step);
  }

  lemma UnregisterKeepsCounters(w: World, c: Conn)
    requires CountersOk(w) && c in w.live
    ensures CountersOk(Apply(w, UnregisterConn(c)))
  {
    var t := Apply(w, UnregisterConn(c));
    assert t.s.preferred == w.s.preferred - {c} && t.s.curClients == w.s.curClients - 1;
  }

  lemma CountersFrame(w: World, step: Step)
    requires !step.RegisterConn? && !step.UnregisterConn? && !step.Prefer?
    ensures var t := Apply(w, step);
            && t.live == w.live && t.s.curClients == w.s.curClients
            && t.s.preferred == w.s.preferred && t.s.curHomeClients == w.s.curHomeClients
  {
  }

  // ---------------------------------------------------------------------
  // What watchers are told
  // ---------------------------------------------------------------------

  /** The keys that a reader of these updates believes present. */
  function View(updates: seq<PeerChange>): set<Key> {
    if updates == [] then {}
    else
      var last := updates[|updates| - 1];
      var v := View(updates[..|updates| - 1]);
      if last.present then v + {last.peer} else v - {last.peer}
  }

  lemma ViewAppend(updates: seq<PeerChange>, u: PeerChange)
    ensures View(updates + [u]) == if u.present then View(updates) + {u.peer} else View(updates) - {u.peer}
  {
    assert (updates + [u])[..|updates|] == updates;
  }

  lemma {:induction false} ViewPresents(updates: seq<PeerChange>, order: seq<Key>)
    ensures View(updates + Presents(order)) == View(updates) + (set k | k in order)
  {
    if order == [] {
      assert updates + Presents(order) == updates;
    } else {
      var pre, k := order[..|order| - 1], order[|order| - 1];
      ViewPresents(updates, pre);
      assert updates + Presents(order) == (updates + Presents(pre)) + [PeerChange(k, true)];
      ViewAppend(updates + Presents(pre), PeerChange(k, true));
      assert order == pre + [k];
    }
  }

  /** Everything written to c and everything still queued for it. */
  function Told(w: World, c: Conn): seq<PeerChange> {
    Changes(w.written, c) + Changes(w.s.peerStateChange, c)
  }

  ghost predicate ViewsOk(w: World) {
    && (forall c :: c in w.s.watchers ==> View(Told(w, c)) == w.s.clients.Keys)
    && (forall c :: c in w.live && c !in w.s.watchers ==> Told(w, c) == [])
    && (forall c :: c in w.written ==> c in w.used)
    && (forall c :: c in w.s.peerStateChange ==> c in w.used)
  }

  /** A broadcast adds its news to what every watcher is told and to nothing else. */
  lemma BroadcastTells(w: World, t: World, peer: Key, present: bool)
    requires t.written == w.written
    requires t.s.peerStateChange == Broadcast(w.s.peerStateChange, w.s.watchers, PeerChange(peer, present))
    ensures forall c :: c in w.s.watchers ==> Told(t, c) == Told(w, c) + [PeerChange(peer, present)]
    ensures forall c :: c in w.s.watchers ==>
              View(Told(t, c)) == if present then View(Told(w, c)) + {peer} else View(Told(w, c)) - {peer}
    ensures forall c :: c !in w.s.watchers ==> Told(t, c) == Told(w, c)
  {
    forall c | c in w.s.watchers
      ensures Told(t, c) == Told(w, c) + [PeerChange(peer, present)]
      ensures View(Told(t, c)) == if present then View(Told(w, c)) + {peer} else View(Told(w, c)) - {peer}
    {
      assert Told(t, c) == Told(w, c) + [PeerChange(peer, present)];
      ViewAppend(Told(w, c), PeerChange(peer, present));
    }
  }

  lemma RegisterKeepsViews(w: World, c: Conn)
    requires ConnsOk(w) && ViewsOk(w) && c in w.waiting
    ensures ViewsOk(Apply(w, RegisterConn(c)))
  {
    var t := Apply(w, RegisterConn(c));
    BroadcastTells(w, t, c.key, true);
    assert c !in w.used && Told(w, c) == [];
    RegisterFrame(w, c);
  }

  lemma RegisterFrame(w: World, c: Conn)
    ensures var t := Apply(w, RegisterConn(c));
            && t.s.watchers == w.s.watchers && t.s.clients.Keys == w.s.clients.Keys + {c.key}
            && t.live == w.live + {c} && t.used == w.used + {c} && t.written == w.written
            && t.s.peerStateChange.Keys == w.s.peerStateChange.Keys + w.s.watchers
  {
  }

  lemma UnregisterKeepsViews(w: World, c: Conn)
    requires ConnsOk(w) && ViewsOk(w) && c in w.live
    ensures ViewsOk(Apply(w, UnregisterConn(c)))
  {
    var t := Apply(w, UnregisterConn(c));
    if c.key in w.s.clients && w.s.clients[c.key] == c {
      BroadcastTells(w, t, c.key, false);
      assert t.s.clients.Keys == w.s.clients.Keys - {c.key};
    } else {
      assert forall d :: Told(t, d) == Told(w, d);
      assert t.s.clients == w.s.clients;
    }
  }

  /** Telling one connection more, and no other anything, keeps the views if that one's view is right. */
  lemma OneToldKeepsViews(w: World, t: World, c: Conn)
    requires ViewsOk(w) && c in w.live && w.live <= w.used
    requires t.live == w.live && t.used == w.used && t.s.clients == w.s.clients
    requires t.s.watchers == w.s.watchers || t.s.watchers == w.s.watchers + {c}
    requires t.written.Keys <= w.written.Keys + {c} && t.s.peerStateChange.Keys <= w.s.peerStateChange.Keys + {c}
    requires forall d :: d != c ==> Told(t, d) == Told(w, d)
    requires if c in t.s.watchers then View(Told(t, c)) == t.s.clients.Keys else Told(t, c) == []
    ensures ViewsOk(t)
  {
  }

  lemma WatchKeepsViews(w: World, c: Conn, order: seq<Key>)
    requires ConnsOk(w) && ViewsOk(w) && Enabled(w, Watch(c, order))
    ensures ViewsOk(Apply(w, Watch(c, order)))
  {
    var t := Apply(w, Watch(c, order));
    if c.key != w.s.publicKey {
      WatchTells(w, c, order);
      ToldAll(Told(w, c), order, w.s.clients.Keys);
      OneToldKeepsViews(w, t, c);
    }
  }

  lemma ToldAll(told: seq<PeerChange>, order: seq<Key>, keys: set<Key>)
    requires View(told) <= keys && Enumerates(order, keys)
    ensures View(told + Presents(order)) == keys
  {
    ViewPresents(told, order);
  }

  lemma WatchTells(w: World, c: Conn, order: seq<Key>)
    requires c.key != w.s.publicKey
    ensures var t := Apply(w, Watch(c, order));
            && Told(t, c) == Told(w, c) + Presents(order) && (forall d :: d != c ==> Told(t, d) == Told(w, d))
            && t.live == w.live && t.used == w.used && t.s.clients == w.s.clients && t.written == w.written
            && t.s.watchers == w.s.watchers + {c} && t.s.peerStateChange.Keys == w.s.peerStateChange.Keys + {c}
  {
    var t := Apply(w, Watch(c, order));
    var m, n := w.s.peerStateChange, t.s.peerStateChange;
    assert n == m[c := Changes(m, c) + Presents(order)] && t.written == w.written;
    assert Changes(w.written, c) + (Changes(m, c) + Presents(order)) == Told(w, c) + Presents(order);
  }

  lemma MoveKeepsTold(a: seq<PeerChange>, b: seq<PeerChange>, n: nat)
    requires n <= |b|
    ensures (a + b[..n]) + b[n..] == a + b
  {
  }

  lemma DrainKeepsViews(w: World, c: Conn, avail: nat)
    requires ConnsOk(w) && ViewsOk(w) && c in w.live
    ensures ViewsOk(Apply(w, Drain(c, avail)))
  {
    var t, n := Apply(w, Drain(c, avail)), Drained(w.s, c, avail);
    MoveKeepsTold(Changes(w.written, c), Changes(w.s.peerStateChange, c), n);
    assert Told(t, c) == Told(w, c);
    OneToldKeepsViews(w, t, c);
  }

  lemma ViewsFrame(w: World, step: Step)
    requires step.Accept? || step.Send? || step.Prefer? || step.AddFwd? || step.RemoveFwd?
    ensures var t := Apply(w, step);
            && t.live == w.live && t.used == w.used && t.s.clients == w.s.clients && t.s.watchers == w.s.watchers
            && t.written == w.written && t.s.peerStateChange == w.s.peerStateChange
  {
  }

  lemma StepKeepsViews(w: World, step: Step)
    requires ConnsOk(w) && ViewsOk(w) && Enabled(w, step)
    ensures ViewsOk(Apply(w, step))
  {
    match step
    case RegisterConn(c) => RegisterKeepsViews(w, c);
    case UnregisterConn(c) => UnregisterKeepsViews(w, c);
    case Watch(c, order) => WatchKeepsViews(w, c, order);
    case Drain(c, avail) => DrainKeepsViews(w, c, avail);
    case Accept(_, _) | Send(_, _) | Prefer(_, _) | AddFwd(_, _) | RemoveFwd(_, _) =>
      ViewsFrame(w, step);
      assert forall c :: Told(Apply(w, step), c) == Told(w, c);
  }

  // ---------------------------------------------------------------------
  // Who is told that a key has left
  // ---------------------------------------------------------------------

  ghost predicate RecordsSend(s: State, src: Key, d: Key, num: nat) {
    src in s.sentTo && d in s.sentTo[src] && s.sentTo[src][d] == num
  }

  /** The record names a current connection exactly when a send to that connection was noted. */
  ghost predicate SendsOk(w: World) {
    && (forall src, d :: d in w.s.clients ==>
          (RecordsSend(w.s, src, d, w.s.clients[d].num) <==> w.s.clients[d] in Noted(w, src)))
    && (forall src :: Noted(w, src) <= w.used)
    && (forall src, d :: src in w.s.sentTo && d in w.s.sentTo[src] ==>
          w.s.sentTo[src][d] in w.conns && w.conns[w.s.sentTo[src][d]] in w.used)
  }

  lemma RegisterKeepsSends(w: World, c: Conn)
    requires ConnsOk(w) && SendsOk(w) && c in w.waiting
    ensures SendsOk(Apply(w, RegisterConn(c)))
  {
    var t := Apply(w, RegisterConn(c));
    forall src, d | d in t.s.clients
      ensures RecordsSend(t.s, src, d, t.s.clients[d].num) <==> t.s.clients[d] in Noted(t, src)
    {
      if d == c.key {
        assert Noted(w, src) <= w.used && c !in Noted(w, src);
        assert !RecordsSend(w.s, src, d, c.num);
      } else {
        assert RecordsSend(w.s, src, d, w.s.clients[d].num) <==> w.s.clients[d] in Noted(w, src);
      }
    }
    assert forall src :: Noted(t, src) == Noted(w, src);
  }

  /** Forgetting a key on both sides keeps the record and the history in step. */
  lemma ForgetKeepsSends(w: World, t: World, key: Key)
    requires SendsOk(w) && t.used == w.used && (forall n :: n in w.conns ==> n in t.conns && t.conns[n] == w.conns[n])
    requires forall d :: d in t.s.clients ==> d in w.s.clients && t.s.clients[d] == w.s.clients[d]
    requires (t.s.sentTo == w.s.sentTo && t.noted == w.noted) ||
             (t.s.sentTo == w.s.sentTo - {key} && t.noted == w.noted - {key})
    ensures SendsOk(t)
  {
    forall src, d | d in t.s.clients
      ensures RecordsSend(t.s, src, d, t.s.clients[d].num) <==> t.s.clients[d] in Noted(t, src)
    {
      assert RecordsSend(w.s, src, d, w.s.clients[d].num) <==> w.s.clients[d] in Noted(w, src);
    }
    assert forall src :: Noted(t, src) <= Noted(w, src);
  }

  lemma SendKeepsSends(w: World, src: Key, dst: Key)
    requires ConnsOk(w) && SendsOk(w) && dst in w.s.clients
    ensures SendsOk(Apply(w, Send(src, dst)))
  {
    var t := Apply(w, Send(src, dst));
    assert t.s.clients == w.s.clients && t.used == w.used && t.conns == w.conns;
    forall x, d | d in t.s.clients
      ensures RecordsSend(t.s, x, d, t.s.clients[d].num) <==> t.s.clients[d] in Noted(t, x)
    {
      OneSendNoted(w, src, dst, x, d);
    }
    assert forall x :: Noted(t, x) <= Noted(w, x) + {w.s.clients[dst]};
    assert Known(w, w.s.clients[dst]);
  }

  lemma OneSendNoted(w: World, src: Key, dst: Key, x: Key, d: Key)
    requires ConnsOk(w) && SendsOk(w) && dst in w.s.clients && d in w.s.clients
    ensures var t := Apply(w, Send(src, dst));
            RecordsSend(t.s, x, d, w.s.clients[d].num) <==> w.s.clients[d] in Noted(t, x)
  {
    assert RecordsSend(w.s, x, d, w.s.clients[d].num) <==> w.s.clients[d] in Noted(w, x);
    assert w.s.clients[d].key == d && w.s.clients[dst].key == dst;
  }

  lemma UnregisterKeepsSends(w: World, c: Conn)
    requires SendsOk(w)
    ensures SendsOk(Apply(w, UnregisterConn(c)))
  {
    var t := Apply(w, UnregisterConn(c));
    assert t.noted == if LeavesOnUnregister(w.s, c) then w.noted - {c.key} else w.noted;
    ForgetKeepsSends(w, t, c.key);
  }

  lemma RemoveLeaves(s: State, dst: Key, f: Fwd, k: Key)
    ensures Leaves(s, RemoveForwarder(s, dst, f), k) <==> k == dst && LeavesOnRemove(s, dst, f)
  {
  }

  lemma RemoveKeepsSends(w: World, dst: Key, f: Fwd)
    requires SendsOk(w)
    ensures SendsOk(Apply(w, RemoveFwd(dst, f)))
  {
    var t := Apply(w, RemoveFwd(dst, f));
    forall k ensures Leaves(w.s, t.s, k) <==> k == dst && LeavesOnRemove(w.s, dst, f) {
      RemoveLeaves(w.s, dst, f, k);
    }
    assert t.noted == if LeavesOnRemove(w.s, dst, f) then w.noted - {dst} else w.noted;
    ForgetKeepsSends(w, t, dst);
  }

  lemma SendsFrame(w: World, step: Step)
    requires step.Watch? || step.Drain? || step.Prefer? || step.AddFwd?
    ensures var t := Apply(w, step);
            t.used == w.used && t.conns == w.conns && t.s.clients == w.s.clients && t.s.sentTo == w.s.sentTo && t.noted == w.noted
  {
  }

  lemma StepKeepsSends(w: World, step: Step)
    requires ConnsOk(w) && SendsOk(w) && Enabled(w, step)
    ensures SendsOk(Apply(w, step))
  {
    match step
    case Accept(_, _) => ForgetKeepsSends(w, Apply(w, step), 0);
    case RegisterConn(c) => RegisterKeepsSends(w, c);
    case UnregisterConn(c) => UnregisterKeepsSends(w, c);
    case Send(src, dst) => SendKeepsSends(w, src, dst);
    case RemoveFwd(dst, f) => RemoveKeepsSends(w, dst, f);
    case Watch(_, _) | Drain(_, _) | Prefer(_, _) | AddFwd(_, _) =>
      SendsFrame(w, step);
      ForgetKeepsSends(w, Apply(w, step), 0);
  }

  // ---------------------------------------------------------------------
  // Who is current, who watches, who is at home
  // ---------------------------------------------------------------------

  /** The current connection of a key is the last one registered for it, as long as that one lives. */
  ghost predicate CurrentOk(w: World) {
    && (forall k :: k in w.s.clients <==> k in w.latest && w.latest[k] in w.live)
    && (forall k :: k in w.s.clients ==> w.s.clients[k] == w.latest[k])
  }

  ghost predicate ListsOk(w: World) {
    && (forall k :: k in w.latest ==> w.latest[k].key == k && w.latest[k] in w.used)
    && (forall c :: c in w.s.watchers <==> c in w.live && c in w.asked && c.key != w.s.publicKey)
    && (forall c :: c in w.s.preferred <==> c in w.live && c in w.wish && w.wish[c])
    && w.asked <= w.used && w.wish.Keys <= w.used
  }

  lemma UnregisterKeepsLists(w: World, c: Conn)
    requires ConnsOk(w) && CurrentOk(w) && ListsOk(w) && c in w.live
    ensures CurrentOk(Apply(w, UnregisterConn(c))) && ListsOk(Apply(w, UnregisterConn(c)))
  {
  }

  lemma RegisterKeepsLists(w: World, c: Conn)
    requires ConnsOk(w) && CurrentOk(w) && ListsOk(w) && c in w.waiting
    ensures CurrentOk(Apply(w, RegisterConn(c))) && ListsOk(Apply(w, RegisterConn(c)))
  {
  }

  lemma ListsFrame(w: World, step: Step)
    requires !step.RegisterConn? && !step.UnregisterConn?
    ensures var t := Apply(w, step);
            && t.s.clients == w.s.clients && t.latest == w.latest && t.live == w.live && t.used == w.used
            && t.s.publicKey == w.s.publicKey
            && (!step.Watch? ==> t.s.watchers == w.s.watchers && t.asked == w.asked)
            && (!step.Prefer? ==> t.s.preferred == w.s.preferred && t.wish == w.wish)
  {
  }

  lemma WatchKeepsLists(w: World, c: Conn, order: seq<Key>)
    requires ConnsOk(w) && CurrentOk(w) && ListsOk(w) && c in w.live
    ensures CurrentOk(Apply(w, Watch(c, order))) && ListsOk(Apply(w, Watch(c, order)))
  {
    ListsFrame(w, Watch(c, order));
    SameCurrent(w, Apply(w, Watch(c, order)));
  }

  lemma PreferKeepsLists(w: World, c: Conn, v: bool)
    requires ConnsOk(w) && CurrentOk(w) && ListsOk(w) && c in w.live
    ensures CurrentOk(Apply(w, Prefer(c, v))) && ListsOk(Apply(w, Prefer(c, v)))
  {
    ListsFrame(w, Prefer(c, v));
    SameCurrent(w, Apply(w, Prefer(c, v)));
  }

  lemma StepKeepsLists(w: World, step: Step)
    requires ConnsOk(w) && CurrentOk(w) && ListsOk(w) && Enabled(w, step)
    ensures CurrentOk(Apply(w, step)) && ListsOk(Apply(w, step))
  {
    match step
    case RegisterConn(c) => RegisterKeepsLists(w, c);
    case UnregisterConn(c) => UnregisterKeepsLists(w, c);
    case Watch(c, order) => WatchKeepsLists(w, c, order);
    case Prefer(c, v) => PreferKeepsLists(w, c, v);
    case Accept(_, _) | Drain(_, _) | Send(_, _) | AddFwd(_, _) | RemoveFwd(_, _) =>
      ListsFrame(w, step);
      SameCurrent(w, Apply(w, step));
  }

  lemma SameCurrent(w: World, t: World)
    requires CurrentOk(w) && t.s.clients == w.s.clients && t.latest == w.latest && t.live == w.live
    ensures CurrentOk(t)
  {
  }

  // ---------------------------------------------------------------------
  // Runs
  // ---------------------------------------------------------------------

  ghost predicate Inv(w: World) {
    && ConnsOk(w) && CountersOk(w) && MeshOk(w.s.clients, w.s.clientsMesh) && ViewsOk(w) && SendsOk(w)
    && CurrentOk(w) && ListsOk(w)
  }

  lemma {:induction false} RunKeepsInv(w: World, steps: seq<Step>)
    requires Inv(w) && ValidRun(w, steps)
    ensures Inv(Exec(w, steps))
    decreases steps
  {
    if steps != [] {
      StepKeepsConns(w, steps[0]);
      StepKeepsCounters(w, steps[0]);
      StepKeepsMesh(w, steps[0]);
      StepKeepsViews(w, steps[0]);
      StepKeepsSends(w, steps[0]);
      StepKeepsLists(w, steps[0]);
      RunKeepsInv(Apply(w, steps[0]), steps[1..]);
    }
  }

  /** In every run, what was written to a watcher followed by what is queued for it names exactly the connected keys. */
  lemma WatchersSeeClients(publicKey: Key, steps: seq<Step>, c: Conn)
    requires ValidRun(Init(publicKey), steps)
    requires c in Exec(Init(publicKey), steps).s.watchers
    ensures var w := Exec(Init(publicKey), steps);
            View(Changes(w.written, c) + Changes(w.s.peerStateChange, c)) == w.s.clients.Keys
  {
    RunKeepsInv(Init(publicKey), steps);
    var w := Exec(Init(publicKey), steps);
    assert View(Told(w, c)) == w.s.clients.Keys;
  }

  /** The connections that a departure of `key` would tell, with `clients` connected. */
  lemma NotifiedAreNoted(w: World, clients: map<Key, Conn>, key: Key)
    requires SendsOk(w)
    requires forall d :: d in clients ==> d in w.s.clients && clients[d] == w.s.clients[d]
    ensures Notified(clients, w.s.sentTo, key) == set d | d in clients && clients[d] in Noted(w, key) :: clients[d]
  {
    assert forall d :: d in clients ==> (RecordsSend(w.s, key, d, w.s.clients[d].num) <==> w.s.clients[d] in Noted(w, key));
  }

  /** The connections told by a step that some key has left the region. */
  function Tells(w: World, step: Step): set<Conn> {
    match step
    case UnregisterConn(c) => GoneOnUnregister(w.s, c)
    case RemoveFwd(dst, f) => GoneOnRemove(w.s, dst, f)
    case _ => {}
  }

  /** The current connections to which a send from the key was noted since it last left. */
  ghost function Interested(clients: map<Key, Conn>, noted: set<Conn>): set<Conn> {
    set d | d in clients && clients[d] in noted :: clients[d]
  }

  lemma UnregisterTells(w: World, c: Conn, key: Key)
    requires SendsOk(w) && MeshOk(w.s.clients, w.s.clientsMesh)
    ensures var t := Apply(w, UnregisterConn(c));
            && (Leaves(w.s, t.s, key) ==>
                  && GoneOnUnregister(w.s, c) == Interested(t.s.clients, Noted(w, key))
                  && key !in t.s.sentTo && key !in t.noted)
            && (!Leaves(w.s, t.s, c.key) ==> GoneOnUnregister(w.s, c) == {})
            && (Leaves(w.s, t.s, key) ==> key == c.key)
  {
    if LeavesOnUnregister(w.s, c) {
      NotifiedAreNoted(w, w.s.clients - {c.key}, c.key);
    }
  }

  lemma RemoveTells(w: World, dst: Key, f: Fwd, key: Key)
    requires SendsOk(w)
    ensures var t := Apply(w, RemoveFwd(dst, f));
            && (Leaves(w.s, t.s, key) ==>
                  && GoneOnRemove(w.s, dst, f) == Interested(t.s.clients, Noted(w, key))
                  && key !in t.s.sentTo && key !in t.noted)
            && (!Leaves(w.s, t.s, dst) ==> GoneOnRemove(w.s, dst, f) == {})
            && (Leaves(w.s, t.s, key) ==> key == dst)
  {
    RemoveLeaves(w.s, dst, f, key);
    RemoveLeaves(w.s, dst, f, dst);
    NotifiedAreNoted(w, w.s.clients, dst);
  }

  lemma OthersStay(w: World, step: Step, key: Key)
    requires !step.UnregisterConn? && !step.RemoveFwd?
    ensures !Leaves(w.s, Apply(w, step).s, key)
  {
  }

  /**
   In every run, when a step takes a key out of the region, those told are
   exactly the connections then current to which a send from the key was noted
   since it last left, and the record of its sends is dropped. A step that takes
   no key out tells nobody.
   */
  lemma DepartureTellsExactly(publicKey: Key, steps: seq<Step>, step: Step, key: Key)
    requires ValidRun(Init(publicKey), steps) && Enabled(Exec(Init(publicKey), steps), step)
    ensures var w := Exec(Init(publicKey), steps);
            var t := Apply(w, step);
            && (Leaves(w.s, t.s, key) ==> Tells(w, step) == Interested(t.s.clients, Noted(w, key)) && key !in t.s.sentTo && key !in t.noted)
            && ((forall k :: !Leaves(w.s, t.s, k)) ==> Tells(w, step) == {})
            && (forall k :: Leaves(w.s, t.s, key) && Leaves(w.s, t.s, k) ==> k == key)
  {
    RunKeepsInv(Init(publicKey), steps);
    StepTellsGone(Exec(Init(publicKey), steps), step, key);
  }

  lemma StepTellsGone(w: World, step: Step, key: Key)
    requires SendsOk(w) && MeshOk(w.s.clients, w.s.clientsMesh)
    ensures var t := Apply(w, step);
            && (Leaves(w.s, t.s, key) ==> Tells(w, step) == Interested(t.s.clients, Noted(w, key)) && key !in t.s.sentTo && key !in t.noted)
            && ((forall k :: !Leaves(w.s, t.s, k)) ==> Tells(w, step) == {})
            && (forall k :: Leaves(w.s, t.s, key) && Leaves(w.s, t.s, k) ==> k == key)
  {
    match step
    case UnregisterConn(c) => forall k { UnregisterTells(w, c, k); }
    case RemoveFwd(dst, f) => forall k { RemoveTells(w, dst, f, k); }
    case Accept(_, _) | RegisterConn(_) | Watch(_, _) | Drain(_, _) | Send(_, _) | Prefer(_, _) | AddFwd(_, _) =>
      OthersStay(w, step, key);
  }

  /** In every run a key is in the region exactly if it is connected here or has a forwarder. */
  lemma RegionIsExact(publicKey: Key, steps: seq<Step>, key: Key)
    requires ValidRun(Init(publicKey), steps)
    ensures var s := Exec(Init(publicKey), steps).s;
            key in s.clientsMesh <==> key in s.clients || !Entry(s.clientsMesh, key).LocalOnly?
  {
    RunKeepsInv(Init(publicKey), steps);
  }

  /**
   In every run the current connection of a key is the last one registered for
   it, and there is none once that one has ended; the watchers are the live
   connections that asked, this relay's own excepted; the preferred ones are the
   live ones that last said so.
   */
  lemma RegistryIsExact(publicKey: Key, steps: seq<Step>)
    requires ValidRun(Init(publicKey), steps)
    ensures var w := Exec(Init(publicKey), steps);
            && (forall k :: k in w.s.clients <==> k in w.latest && w.latest[k] in w.live)
            && (forall k :: k in w.s.clients ==> w.s.clients[k] == w.latest[k])
            && (forall c :: c in w.s.watchers <==> c in w.live && c in w.asked && c.key != w.s.publicKey)
            && (forall c :: c in w.s.preferred <==> c in w.live && c in w.wish && w.wish[c])
  {
    RunKeepsInv(Init(publicKey), steps);
  }

  /** The news a step queues for a connection. */
  function News(w: World, step: Step, c: Conn): seq<PeerChange> {
    match step
    case RegisterConn(d) => if c in w.s.watchers then [PeerChange(d.key, true)] else []
    case UnregisterConn(d) =>
      if c in w.s.watchers && d.key in w.latest && w.latest[d.key] == d then [PeerChange(d.key, false)] else []
    case Watch(d, order) => if c == d && c.key != w.s.publicKey then Presents(order) else []
    case _ => []
  }

  /**
   In every run each watcher is told every registration, and every end of a
   current connection, once; a connection that asks to watch is told of every
   connected key; nothing else is told.
   */
  lemma NewsIsExact(publicKey: Key, steps: seq<Step>, step: Step, c: Conn)
    requires ValidRun(Init(publicKey), steps) && Enabled(Exec(Init(publicKey), steps), step)
    ensures var w := Exec(Init(publicKey), steps); Told(Apply(w, step), c) == Told(w, c) + News(w, step, c)
  {
    RunKeepsInv(Init(publicKey), steps);
    StepTells(Exec(Init(publicKey), steps), step, c);
  }

  lemma StepTells(w: World, step: Step, c: Conn)
    requires CurrentOk(w) && Enabled(w, step)
    ensures Told(Apply(w, step), c) == Told(w, c) + News(w, step, c)
  {
    var t := Apply(w, step);
    match step
    case RegisterConn(d) => BroadcastTells(w, t, d.key, true);
    case UnregisterConn(d) =>
      assert IsCurrent(w.s, d) <==> d.key in w.latest && w.latest[d.key] == d && d in w.live;
      if IsCurrent(w.s, d) { BroadcastTells(w, t, d.key, false); }
    case Watch(d, order) => if d.key != w.s.publicKey { WatchTells(w, d, order); }
    case Drain(d, avail) => MoveKeepsTold(Changes(w.written, d), Changes(w.s.peerStateChange, d), Drained(w.s, d, avail));
    case Accept(_, _) | Send(_, _) | Prefer(_, _) | AddFwd(_, _) | RemoveFwd(_, _) => ViewsFrame(w, step);
  }

  /** Connections that were replaced and have not unwound yet. */
  function Superseded(w: World): set<Conn> {
    set c | c in w.live && (c.key !in w.s.clients || w.s.clients[c.key] != c)
  }

  lemma {:induction false} CountValues(m: map<Key, Conn>)
    requires forall k :: k in m ==> m[k].key == k
    ensures |m.Values| == |m|
    decreases |m|
  {
    if m == map[] {
      assert m.Values == {};
    } else {
      var k :| k in m;
      var rest := m - {k};
      assert rest.Keys == m.Keys - {k};
      CountValues(rest);
      forall c | c in m.Values ensures c in rest.Values + {m[k]} {
        var j :| j in m && m[j] == c;
        assert j != k ==> j in rest && rest[j] == c;
      }
      assert m.Values == rest.Values + {m[k]};
      assert m[k] !in rest.Values;
    }
  }

  lemma LiveSplits(w: World)
    requires ConnsOk(w)
    ensures |w.live| == |w.s.clients| + |Superseded(w)|
  {
    CountValues(w.s.clients);
    assert w.live == w.s.clients.Values + Superseded(w);
    assert w.s.clients.Values !! Superseded(w);
  }

  /**
   In every run the connection gauge is the number of connected keys plus the
   replaced connections still unwinding, so the consistency check passes
   exactly when there are none; the home gauge counts live preferred
   connections.
   */
  lemma GaugesAreExact(publicKey: Key, steps: seq<Step>)
    requires ValidRun(Init(publicKey), steps)
    ensures var w := Exec(Init(publicKey), steps);
            && w.s.curClients == |w.s.clients| + |Superseded(w)|
            && w.s.curHomeClients == |w.s.preferred| && w.s.preferred <= w.live
            && (Consistent(w.s) <==> Superseded(w) == {})
  {
    RunKeepsInv(Init(publicKey), steps);
    GaugesFollow(Exec(Init(publicKey), steps));
  }

  lemma GaugesFollow(w: World)
    requires ConnsOk(w) && CountersOk(w) && MeshOk(w.s.clients, w.s.clientsMesh)
    ensures w.s.curClients == |w.s.clients| + |Superseded(w)|
    ensures Consistent(w.s) <==> Superseded(w) == {}
  {
    LiveSplits(w);
  }

  /**
   In every run a multiForwarder has two members and a key that leaves the
   region is out of clientsMesh, so neither panic can be reached.
   */
  lemma PanicsAreUnreachable(publicKey: Key, steps: seq<Step>)
    requires ValidRun(Init(publicKey), steps)
    ensures var s := Exec(Init(publicKey), steps).s;
            && (forall k :: k in s.clientsMesh && s.clientsMesh[k].Multi? ==> |s.clientsMesh[k].ranks| == 2)
            && (forall k :: k in s.clients ==> k in s.clientsMesh)
            && (forall k :: k in s.clientsMesh && s.clientsMesh[k].LocalOnly? ==> k in s.clients)
            && (forall c :: LeavesOnUnregister(s, c) ==> c.key !in Unregister(s, c).clientsMesh)
            && (forall dst, f :: LeavesOnRemove(s, dst, f) ==> dst !in RemoveForwarder(s, dst, f).clientsMesh)
  {
    RunKeepsInv(Init(publicKey), steps);
  }

  // ---------------------------------------------------------------------
  // Ranks of a multiForwarder
  // ---------------------------------------------------------------------

  ghost predicate DistinctRanks(m: map<Fwd, nat>) {
    forall f, g :: f in m && g in m && f != g ==> m[f] != m[g]
  }

  /** A second forwarder gives way to the first, the only one of lowest rank, and removing it undoes adding it. */
  lemma NewPairIsRanked(mesh: map<Key, MeshEntry>, isLocal: bool, dst: Key, f: Fwd, g: Fwd)
    requires dst in mesh && mesh[dst] == One(g) && f != g
    ensures var e := AddForwarder(mesh, dst, f)[dst];
            && e.Multi? && e.ranks.Keys == {f, g} && DistinctRanks(e.ranks)
            && forall h :: h in e.ranks ==> ((forall j :: j in e.ranks ==> e.ranks[h] <= e.ranks[j]) <==> h == g)
    ensures RemoveFrom(AddForwarder(mesh, dst, f), isLocal, dst, f) == mesh
  {
    var after := AddForwarder(mesh, dst, f);
    var m := after[dst].ranks;
    assert m.Keys == {f, g} && |m| == 2;
    RemoveFromPair(m, f);
    assert WithoutMember(m, f) == One(g);
    assert after[dst := One(g)] == mesh;
  }

  /**
   Registering a member again moves it behind the other, and keeps the ranks
   distinct, unless the byte wraps; then they collide exactly when the other
   member has rank zero.
   */
  lemma RerankExactly(mesh: map<Key, MeshEntry>, dst: Key, f: Fwd, g: Fwd)
    requires dst in mesh && mesh[dst].Multi? && mesh[dst].ranks.Keys == {f, g} && f != g
    requires EntryOk(mesh[dst])
    ensures var m, e := mesh[dst].ranks, AddForwarder(mesh, dst, f)[dst];
            && e.Multi? && e.ranks.Keys == {f, g} && e.ranks[g] == m[g]
            && (DistinctRanks(e.ranks) <==> !(MaxRank(m) == 255 && m[g] == 0))
            && (MaxRank(m) < 255 ==> e.ranks[g] < e.ranks[f])
  {
    var m, e := mesh[dst].ranks, AddForwarder(mesh, dst, f)[dst];
    assert f in m && g in m && m[f] < 256 && m[g] < 256;
    assert e.ranks[f] == (MaxRank(m) + 1) % 256;
  }

  ghost predicate RanksOk(e: MeshEntry) { e.Multi? ==> DistinctRanks(e.ranks) }

  /** Registering f again wraps the byte. */
  ghost predicate WrapsAt(e: MeshEntry, f: Fwd) { e.Multi? && f in e.ranks && MaxRank(e.ranks) == 255 }

  /** Registering f again wraps the byte while another member has rank zero. */
  ghost predicate CollidesAt(e: MeshEntry, f: Fwd) {
    WrapsAt(e, f) && exists g :: g in e.ranks && g != f && e.ranks[g] == 0
  }

  lemma PairMembers(m: map<Fwd, nat>, f: Fwd) returns (g: Fwd)
    requires EntryOk(Multi(m)) && f in m
    ensures g != f && m.Keys == {f, g}
  {
    RemoveFromPair(m, f);
    g := WithoutMember(m, f).f;
  }

  lemma AddKeepsRanks(e: MeshEntry, f: Fwd)
    requires EntryOk(e) && RanksOk(e)
    ensures RanksOk(AddToEntry(e, f)) <==> !CollidesAt(e, f)
  {
    if e.Multi? && f in e.ranks {
      var g := PairMembers(e.ranks, f);
      RerankExactly(map[0 := e], 0, f, g);
      assert g in e.ranks;
    }
  }

  lemma RemoveKeepsRanks(mesh: map<Key, MeshEntry>, isLocal: bool, dst: Key, f: Fwd, k: Key)
    requires k in mesh ==> EntryOk(mesh[k])
    requires RanksOk(Entry(mesh, k))
    ensures RanksOk(Entry(RemoveFrom(mesh, isLocal, dst, f), k))
  {
    if dst == k && k in mesh && mesh[k].Multi? { RemoveFromPair(mesh[k].ranks, f); }
  }

  ghost predicate RanksDistinct(w: World, k: Key) { RanksOk(Entry(w.s.clientsMesh, k)) }

  ghost predicate Wraps(w: World, step: Step, k: Key) {
    step.AddFwd? && step.dst == k && WrapsAt(Entry(w.s.clientsMesh, k), step.f)
  }

  ghost predicate Collides(w: World, step: Step, k: Key) {
    step.AddFwd? && step.dst == k && CollidesAt(Entry(w.s.clientsMesh, k), step.f)
  }

  lemma StepKeepsRanks(w: World, step: Step, k: Key)
    requires MeshOk(w.s.clients, w.s.clientsMesh) && RanksDistinct(w, k)
    ensures RanksDistinct(Apply(w, step), k) <==> !Collides(w, step, k)
  {
    match step
    case AddFwd(dst, f) => AddKeepsRanks(Entry(w.s.clientsMesh, k), f);
    case RemoveFwd(dst, f) => RemoveKeepsRanks(w.s.clientsMesh, dst in w.s.clients, dst, f, k);
    case RegisterConn(c) =>
    case UnregisterConn(c) =>
    case Accept(_, _) | Watch(_, _) | Drain(_, _) | Send(_, _) | Prefer(_, _) => MeshFrame(w, step);
  }

  ghost predicate NeverCollides(w: World, steps: seq<Step>, k: Key)
    decreases steps
  {
    steps == [] || (!Collides(w, steps[0], k) && NeverCollides(Apply(w, steps[0]), steps[1..], k))
  }

  ghost predicate AlwaysDistinct(w: World, steps: seq<Step>, k: Key)
    decreases steps
  {
    RanksDistinct(w, k) && (steps != [] ==> AlwaysDistinct(Apply(w, steps[0]), steps[1..], k))
  }

  lemma {:induction false} DistinctFrom(w: World, steps: seq<Step>, k: Key)
    requires ConnsOk(w) && MeshOk(w.s.clients, w.s.clientsMesh) && ValidRun(w, steps) && RanksDistinct(w, k)
    ensures AlwaysDistinct(w, steps, k) <==> NeverCollides(w, steps, k)
    decreases steps
  {
    if steps != [] {
      StepKeepsRanks(w, steps[0], k);
      StepKeepsConns(w, steps[0]);
      StepKeepsMesh(w, steps[0]);
      var t := Apply(w, steps[0]);
      if RanksDistinct(t, k) {
        DistinctFrom(t, steps[1..], k);
      } else {
        assert !AlwaysDistinct(t, steps[1..], k);
      }
    }
  }

  ghost predicate NeverWraps(w: World, steps: seq<Step>, k: Key)
    decreases steps
  {
    steps == [] || (!Wraps(w, steps[0], k) && NeverWraps(Apply(w, steps[0]), steps[1..], k))
  }

  lemma {:induction false} NoCollisionBeforeWrap(w: World, steps: seq<Step>, k: Key)
    requires NeverWraps(w, steps, k)
    ensures NeverCollides(w, steps, k)
    decreases steps
  {
    if steps != [] {
      NoCollisionBeforeWrap(Apply(w, steps[0]), steps[1..], k);
    }
  }

  /**
   In every run, the ranks of a key's pair are distinct all along if and only if
   no member is ever registered again at rank 255 with the other at zero; so
   they are until the byte wraps.
   */
  lemma RanksDistinctExactly(publicKey: Key, steps: seq<Step>, k: Key)
    requires ValidRun(Init(publicKey), steps)
    ensures AlwaysDistinct(Init(publicKey), steps, k) <==> NeverCollides(Init(publicKey), steps, k)
    ensures NeverWraps(Init(publicKey), steps, k) ==> AlwaysDistinct(Init(publicKey), steps, k)
  {
    DistinctFrom(Init(publicKey), steps, k);
    if NeverWraps(Init(publicKey), steps, k) {
      NoCollisionBeforeWrap(Init(publicKey), steps, k);
    }
  }

  // ---------------------------------------------------------------------
  // A run in which ranks collide
  // ---------------------------------------------------------------------

  function Again(dst: Key, f: Fwd, n: nat): seq<Step> { seq(n, _ => AddFwd(dst, f)) }

  ghost function AddTimes(e: MeshEntry, f: Fwd, n: nat): MeshEntry
    decreases n
  {
    if n == 0 then e else AddTimes(AddToEntry(e, f), f, n - 1)
  }

  lemma {:induction false} AgainAdds(w: World, dst: Key, f: Fwd, n: nat)
    ensures ValidRun(w, Again(dst, f, n))
    ensures Entry(Exec(w, Again(dst, f, n)).s.clientsMesh, dst) == AddTimes(Entry(w.s.clientsMesh, dst), f, n)
    decreases n
  {
    if n > 0 {
      assert Again(dst, f, n)[1..] == Again(dst, f, n - 1);
      AgainAdds(Apply(w, AddFwd(dst, f)), dst, f, n - 1);
    }
  }

  function Pair(f: Fwd, a: nat, g: Fwd, b: nat): MeshEntry { Multi(map[f := a, g := b]) }

  lemma PairSwaps(f: Fwd, a: nat, g: Fwd, b: nat)
    requires f != g
    ensures Pair(f, a, g, b) == Pair(g, b, f, a)
  {
    var m: map<Fwd, nat>, n: map<Fwd, nat> := map[f := a, g := b], map[g := b, f := a];
    assert m == n;
  }

  function Above(a: nat, b: nat): nat {
    var max := if a < b then b else a;
    if max >= 255 then 0 else max + 1
  }

  /** Registering a member again gives it the rank after the highest. */
  lemma OnceMore(f: Fwd, a: nat, g: Fwd, b: nat)
    requires f != g && a < 256 && b < 256
    ensures AddToEntry(Pair(f, a, g, b), f) == Pair(f, Above(a, b), g, b)
  {
    var m: map<Fwd, nat> := map[f := a, g := b];
    assert m[f] == a && m[g] == b;
    assert MaxRank(m) == if a < b then b else a;
    assert m[f := (MaxRank(m) + 1) % 256] == map[f := (MaxRank(m) + 1) % 256, g := b];
  }

  lemma NextTime(e: MeshEntry, f: Fwd, n: nat)
    requires n > 0
    ensures AddTimes(e, f, n) == AddTimes(AddToEntry(e, f), f, n - 1)
  {
  }

  /** The rank of a member registered again n times beside one of rank b. */
  function RankAfter(a: nat, b: nat, n: nat): nat
    decreases n
  {
    if n == 0 then a else RankAfter(Above(a, b), b, n - 1)
  }

  lemma {:induction false} AddsRank(f: Fwd, a: nat, g: Fwd, b: nat, n: nat)
    requires f != g && a < 256 && b < 256
    ensures AddTimes(Pair(f, a, g, b), f, n) == Pair(f, RankAfter(a, b, n), g, b)
    decreases n
  {
    if n > 0 {
      NextTime(Pair(f, a, g, b), f, n);
      OnceMore(f, a, g, b);
      AddsRank(f, Above(a, b), g, b, n - 1);
    }
  }

  /** The higher member's rank goes up, and past 255 it is zero. */
  lemma {:induction false} Climb(a: nat, b: nat, n: nat)
    requires b <= a < 256 && a + n == 256
    ensures RankAfter(a, b, n) == 0
    decreases n
  {
    if n > 1 { Climb(a + 1, b, n - 1); }
  }

  lemma {:induction false} ExecAppend(w: World, xs: seq<Step>, ys: seq<Step>)
    requires ValidRun(w, xs) && ValidRun(Exec(w, xs), ys)
    ensures ValidRun(w, xs + ys) && Exec(w, xs + ys) == Exec(Exec(w, xs), ys)
    decreases xs
  {
    if xs == [] {
      assert xs + ys == ys;
    } else {
      assert (xs + ys)[1..] == xs[1..] + ys;
      ExecAppend(Apply(w, xs[0]), xs[1..], ys);
    }
  }

  lemma AgainAfter(w: World, xs: seq<Step>, dst: Key, f: Fwd, n: nat)
    requires ValidRun(w, xs)
    ensures ValidRun(w, xs + Again(dst, f, n))
    ensures Entry(Exec(w, xs + Again(dst, f, n)).s.clientsMesh, dst) == AddTimes(Entry(Exec(w, xs).s.clientsMesh, dst), f, n)
  {
    AgainAdds(Exec(w, xs), dst, f, n);
    ExecAppend(w, xs, Again(dst, f, n));
  }

  /** A fresh pair, each member registered again until its rank is zero. */
  lemma BothWrap(f: Fwd, g: Fwd, n: nat)
    requires f != g && n == 254
    ensures AddTimes(AddTimes(Pair(f, 1, g, 2), f, n), g, n) == Pair(g, 0, f, 0)
  {
    assert RankAfter(1, 2, n) == RankAfter(3, 2, n - 1);
    Climb(3, 2, n - 1);
    AddsRank(f, 1, g, 2, n);
    PairSwaps(f, 0, g, 2);
    Climb(2, 0, n);
    AddsRank(g, 2, f, 0, n);
  }

  lemma NewPair(f: Fwd, g: Fwd, n: nat)
    requires f != g && n == 1
    ensures AddTimes(AddTimes(LocalOnly, f, n), g, n) == Pair(f, 1, g, 2)
  {
    assert AddTimes(LocalOnly, f, n) == AddTimes(One(f), f, 0) == One(f);
    assert AddTimes(One(f), g, n) == AddTimes(Pair(f, 1, g, 2), g, 0);
  }

  /** Two forwarders for a key, then each registered again n times. */
  function TakeTurns(k: Key, f: Fwd, g: Fwd, one: nat, n: nat): seq<Step> {
    Again(k, f, one) + Again(k, g, one) + Again(k, f, n) + Again(k, g, n)
  }

  lemma TurnsAdd(publicKey: Key, k: Key, f: Fwd, g: Fwd, one: nat, n: nat)
    ensures ValidRun(Init(publicKey), TakeTurns(k, f, g, one, n))
    ensures Entry(Exec(Init(publicKey), TakeTurns(k, f, g, one, n)).s.clientsMesh, k) ==
            AddTimes(AddTimes(AddTimes(AddTimes(LocalOnly, f, one), g, one), f, n), g, n)
  {
    var w := Init(publicKey);
    AgainAdds(w, k, f, one);
    AgainAfter(w, Again(k, f, one), k, g, one);
    AgainAfter(w, Again(k, f, one) + Again(k, g, one), k, f, n);
    AgainAfter(w, Again(k, f, one) + Again(k, g, one) + Again(k, f, n), k, g, n);
  }

  lemma TurnsCollide(publicKey: Key, k: Key, f: Fwd, g: Fwd, one: nat, n: nat)
    requires f != g && one == 1 && n == 254
    ensures ValidRun(Init(publicKey), TakeTurns(k, f, g, one, n))
    ensures !RanksDistinct(Exec(Init(publicKey), TakeTurns(k, f, g, one, n)), k)
  {
    TurnsAdd(publicKey, k, f, g, one, n);
    NewPair(f, g, one);
    BothWrap(f, g, n);
    var m: map<Fwd, nat> := map[g := 0, f := 0];
    assert m[f] == m[g];
  }

  /**
   Ranks do collide in a run from an empty registry: two forwarders for a key,
   each registered again 254 times, both end at rank zero.
   */
  lemma RanksCanCollide(publicKey: Key, k: Key, f: Fwd, g: Fwd)
    requires f != g
    ensures exists steps :: ValidRun(Init(publicKey), steps) && !RanksDistinct(Exec(Init(publicKey), steps), k)
  {
    var one: nat, n: nat :| one == 1 && n == 254;
    TurnsCollide(publicKey, k, f, g, one, n);
  }
}
