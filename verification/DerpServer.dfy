/**
 The registry of a DERP relay: the connections it serves, the forwarders it
 knows for keys connected elsewhere in the region, the watchers it keeps
 informed and the record of who sent to whom.

 A connection is named by its connection number, which the server hands out
 once; the fields of a connection that the server's lock guards are kept in
 maps from connections. A forwarder is a mesh client.
 */
module DerpServer {
  import opened Common

  type Key = nat
  type Fwd = nat

  datatype Conn = Conn(num: nat, key: Key, canMesh: bool)

  datatype PeerChange = PeerChange(peer: Key, present: bool)

  /** A value of clientsMesh: nil, one forwarder, or a multiForwarder with its uint8 ranks. */
  datatype MeshEntry = LocalOnly | One(f: Fwd) | Multi(ranks: map<Fwd, nat>)

  /** The value of the server's fields. */
  datatype State = State(
    publicKey: Key,
    clients: map<Key, Conn>,
    clientsMesh: map<Key, MeshEntry>,
    watchers: set<Conn>,
    peerStateChange: map<Conn, seq<PeerChange>>,
    sentTo: map<Key, map<Key, nat>>,
    accepts: nat,
    curClients: int,
    curHomeClients: int,
    preferred: set<Conn>)

  function InitState(publicKey: Key): State {
    State(publicKey, map[], map[], {}, map[], map[], 0, 0, 0, {})
  }

  const FRAME_HEADER_LEN := 5

  // ---------------------------------------------------------------------
  // Critical sections, as functions of the fields
  // ---------------------------------------------------------------------

  function Changes(m: map<Conn, seq<PeerChange>>, c: Conn): seq<PeerChange> {
    if c in m then m[c] else []
  }

  /** The queues after one more change has been queued for every watcher. */
  function Broadcast(m: map<Conn, seq<PeerChange>>, watchers: set<Conn>, change: PeerChange): map<Conn, seq<PeerChange>> {
    map c | c in m.Keys + watchers :: if c in watchers then Changes(m, c) + [change] else Changes(m, c)
  }

  /** The replace rate limiter said yes, or there was nothing to replace. */
  function Register(s: State, c: Conn): State {
    s.(clients := s.clients[c.key := c],
       clientsMesh := if c.key in s.clientsMesh then s.clientsMesh else s.clientsMesh[c.key := LocalOnly],
       peerStateChange := Broadcast(s.peerStateChange, s.watchers, PeerChange(c.key, true)),
       curClients := s.curClients + 1)
  }

  /** The connections told that `key` has left the region. */
  function Notified(clients: map<Key, Conn>, sentTo: map<Key, map<Key, nat>>, key: Key): set<Conn> {
    if key !in sentTo then {}
    else set d | d in sentTo[key] && d in clients && clients[d].num == sentTo[key][d] :: clients[d]
  }

  predicate IsCurrent(s: State, c: Conn) { c.key in s.clients && s.clients[c.key] == c }

  /** Whether unregistering c makes its key leave the region. */
  predicate LeavesOnUnregister(s: State, c: Conn) {
    IsCurrent(s, c) && c.key in s.clientsMesh && s.clientsMesh[c.key].LocalOnly?
  }

  /** The connections told when unregistering c makes its key leave. */
  function GoneOnUnregister(s: State, c: Conn): set<Conn> {
    if LeavesOnUnregister(s, c) then Notified(s.clients - {c.key}, s.sentTo, c.key) else {}
  }

  function Unregister(s: State, c: Conn): State {
    s.(clients := if IsCurrent(s, c) then s.clients - {c.key} else s.clients,
       clientsMesh := if LeavesOnUnregister(s, c) then s.clientsMesh - {c.key} else s.clientsMesh,
       sentTo := if LeavesOnUnregister(s, c) then s.sentTo - {c.key} else s.sentTo,
       peerStateChange := if IsCurrent(s, c) then Broadcast(s.peerStateChange, s.watchers, PeerChange(c.key, false))
                          else s.peerStateChange,
       watchers := if c.canMesh then s.watchers - {c} else s.watchers,
       curClients := s.curClients - 1,
       curHomeClients := if c in s.preferred then s.curHomeClients - 1 else s.curHomeClients,
       preferred := s.preferred - {c})
  }

  function Presents(order: seq<Key>): (r: seq<PeerChange>)
    ensures |r| == |order|
  {
    seq(|order|, i requires 0 <= i < |order| => PeerChange(order[i], true))
  }

  /** `order` is the order in which the map of clients was walked. */
  function AddWatcher(s: State, c: Conn, order: seq<Key>): State {
    if c.key == s.publicKey then s
    else s.(peerStateChange := s.peerStateChange[c := Changes(s.peerStateChange, c) + Presents(order)],
            watchers := s.watchers + {c})
  }

  function NoteSend(s: State, src: Key, dst: Conn): State {
    var m := if src in s.sentTo then s.sentTo[src] else map[];
    s.(sentTo := s.sentTo[src := m[dst.key := dst.num]])
  }

  function SetPreferred(s: State, c: Conn, v: bool): State {
    if (c in s.preferred) == v then s
    else if v then s.(preferred := s.preferred + {c}, curHomeClients := s.curHomeClients + 1)
    else s.(preferred := s.preferred - {c}, curHomeClients := s.curHomeClients - 1)
  }

  /** The most updates that fit: each takes a header and a key, and one byte must stay free. */
  function Fitting(avail: nat): (n: nat)
    ensures n == 0 || (FRAME_HEADER_LEN + KEY_LEN) * n < avail
    ensures (FRAME_HEADER_LEN + KEY_LEN) * (n + 1) >= avail
  {
    if avail == 0 then 0 else (avail - 1) / (FRAME_HEADER_LEN + KEY_LEN)
  }

  function Drained(s: State, c: Conn, avail: nat): nat {
    if |Changes(s.peerStateChange, c)| < Fitting(avail) then |Changes(s.peerStateChange, c)| else Fitting(avail)
  }

  function DrainUpdates(s: State, c: Conn, avail: nat): State {
    s.(peerStateChange := s.peerStateChange[c := Changes(s.peerStateChange, c)[Drained(s, c, avail)..]])
  }

  // ---------------------------------------------------------------------
  // Forwarders
  // ---------------------------------------------------------------------

  ghost predicate IsMaxRank(m: map<Fwd, nat>, max: nat) {
    (forall f :: f in m ==> m[f] <= max) && (max == 0 || exists f :: f in m && m[f] == max)
  }

  lemma {:induction false} MaxRankExists(m: map<Fwd, nat>)
    ensures exists max :: IsMaxRank(m, max)
    decreases |m|
  {
    if m == map[] {
      assert IsMaxRank(m, 0);
    } else {
      var f :| f in m;
      var rest := m - {f};
      assert |rest.Keys| < |m.Keys| by { assert rest.Keys == m.Keys - {f}; }
      MaxRankExists(rest);
      var max :| IsMaxRank(rest, max);
      var top := if max < m[f] then m[f] else max;
      if top == max && max != 0 {
        var g :| g in rest && rest[g] == max;
        assert g in m && m[g] == top;
      }
      assert forall g :: g in m ==> g == f || (g in rest && rest[g] == m[g]);
      assert m[f] <= top;
      assert IsMaxRank(m, top);
    }
  }

  ghost function MaxRank(m: map<Fwd, nat>): (max: nat)
    ensures IsMaxRank(m, max)
  {
    MaxRankExists(m);
    var max :| IsMaxRank(m, max);
    max
  }

  /** The entry after one more forwarder was registered; no entry counts as nil. */
  ghost function AddToEntry(e: MeshEntry, f: Fwd): MeshEntry {
    match e
    case LocalOnly => One(f)
    case One(g) => if g == f then e else Multi(map[g := 1, f := 2])
    case Multi(m) =>
      // As written: a forwarder not in the set is ignored, one in the set is ranked anew.
      if f !in m then e else Multi(m[f := (MaxRank(m) + 1) % 256])
  }

  function Entry(mesh: map<Key, MeshEntry>, dst: Key): MeshEntry {
    if dst in mesh then mesh[dst] else LocalOnly
  }

  ghost function AddForwarder(mesh: map<Key, MeshEntry>, dst: Key, f: Fwd): map<Key, MeshEntry> {
    mesh[dst := AddToEntry(Entry(mesh, dst), f)]
  }

  /** Whether removing f makes dst leave the region. */
  predicate LeavesOnRemove(s: State, dst: Key, f: Fwd) {
    dst in s.clientsMesh && s.clientsMesh[dst] == One(f) && dst !in s.clients
  }

  function GoneOnRemove(s: State, dst: Key, f: Fwd): set<Conn> {
    if LeavesOnRemove(s, dst, f) then Notified(s.clients, s.sentTo, dst) else {}
  }

  /** A multiForwarder without f: itself, or its last member alone. */
  ghost function WithoutMember(m: map<Fwd, nat>, f: Fwd): MeshEntry {
    var rest := m - {f};
    if |rest| == 1 then
      var g :| g in rest;
      One(g)
    else Multi(rest)
  }

  /** clientsMesh without forwarder f for dst, which is connected here if `isLocal`. */
  ghost function RemoveFrom(mesh: map<Key, MeshEntry>, isLocal: bool, dst: Key, f: Fwd): map<Key, MeshEntry> {
    if dst !in mesh then mesh
    else
      match mesh[dst]
      case Multi(m) => mesh[dst := WithoutMember(m, f)]
      case LocalOnly => mesh
      case One(g) => if g != f then mesh else if isLocal then mesh[dst := LocalOnly] else mesh - {dst}
  }

  ghost function RemoveForwarder(s: State, dst: Key, f: Fwd): State {
    s.(clientsMesh := RemoveFrom(s.clientsMesh, dst in s.clients, dst, f),
       sentTo := if LeavesOnRemove(s, dst, f) then s.sentTo - {dst} else s.sentTo)
  }

  /** What the consistency check asks for. */
  ghost predicate Consistent(s: State) {
    && (forall k :: k in s.clientsMesh && s.clientsMesh[k].LocalOnly? ==> k in s.clients)
    && s.clients.Keys <= s.clientsMesh.Keys
    && s.curClients == |s.clients|
  }

  // ---------------------------------------------------------------------
  // The object
  // ---------------------------------------------------------------------

  /** order lists exactly the keys of the set. */
  ghost predicate Enumerates(order: seq<Key>, keys: set<Key>) {
    forall k :: k in order <==> k in keys
  }

  class Server {
    const publicKey: Key
    var clients: map<Key, Conn>
    var clientsMesh: map<Key, MeshEntry>
    var watchers: set<Conn>
    var peerStateChange: map<Conn, seq<PeerChange>>
    var sentTo: map<Key, map<Key, nat>>
    var accepts: nat
    var curClients: int
    var curHomeClients: int
    var preferred: set<Conn>

    function Fields(): State
      reads this
    {
      State(publicKey, clients, clientsMesh, watchers, peerStateChange, sentTo, accepts, curClients, curHomeClients, preferred)
    }

    constructor (publicKey: Key)
      ensures Fields() == InitState(publicKey)
    {
      this.publicKey := publicKey;
      clients, clientsMesh, watchers, peerStateChange, sentTo := map[], map[], {}, map[], map[];
      accepts, curClients, curHomeClients, preferred := 0, 0, 0, {};
    }

    /** Numbers a new connection. */
    method Accept(key: Key, canMesh: bool) returns (c: Conn)
      modifies this
      ensures Fields() == old(Fields()).(accepts := old(accepts) + 1) && c == Conn(old(accepts) + 1, key, canMesh)
    {
      accepts := accepts + 1;
      c := Conn(accepts, key, canMesh);
    }

    method BroadcastPeerStateChangeLocked(peer: Key, present: bool)
      modifies this
      ensures Fields() == old(Fields()).(peerStateChange :=
                              Broadcast(old(peerStateChange), watchers, PeerChange(peer, present)))
    {
      var todo := watchers;
      while todo != {}
        invariant todo <= watchers
        invariant Fields() == old(Fields()).(peerStateChange := peerStateChange)
        invariant peerStateChange.Keys == old(peerStateChange).Keys + (watchers - todo)
        invariant forall c :: c in peerStateChange ==>
                    peerStateChange[c] == if c in watchers - todo then Changes(old(peerStateChange), c) + [PeerChange(peer, present)]
                                          else Changes(old(peerStateChange), c)
      {
        var w :| w in todo;
        peerStateChange := peerStateChange[w := Changes(peerStateChange, w) + [PeerChange(peer, present)]];
        todo := todo - {w};
      }
    }

    method RegisterClient(c: Conn)
      modifies this
      ensures Fields() == Register(old(Fields()), c)
    {
      clients := clients[c.key := c];
      if c.key !in clientsMesh {
        clientsMesh := clientsMesh[c.key := LocalOnly];
      }
      curClients := curClients + 1;
      BroadcastPeerStateChangeLocked(c.key, true);
    }

    /** Panics in the source if the key is still in clientsMesh. */
    method NotePeerGoneFromRegionLocked(key: Key) returns (gone: set<Conn>)
      requires key !in clientsMesh
      modifies this
      ensures Fields() == old(Fields()).(sentTo := old(sentTo) - {key})
      ensures gone == Notified(clients, old(sentTo), key)
    {
      gone := {};
      if key in sentTo {
        var todo := sentTo[key].Keys;
        while todo != {}
          invariant todo <= sentTo[key].Keys
          invariant gone == set d | d in sentTo[key].Keys - todo && d in clients && clients[d].num == sentTo[key][d] :: clients[d]
        {
          var d :| d in todo;
          if d in clients && clients[d].num == sentTo[key][d] {
            gone := gone + {clients[d]};
          }
          todo := todo - {d};
        }
      }
      sentTo := sentTo - {key};
    }

    method UnregisterClient(c: Conn) returns (gone: set<Conn>)
      modifies this
      ensures Fields() == Unregister(old(Fields()), c)
      ensures gone == GoneOnUnregister(old(Fields()), c)
    {
      gone := {};
      if c.key in clients && clients[c.key] == c {
        clients := clients - {c.key};
        if c.key in clientsMesh && clientsMesh[c.key] == LocalOnly {
          clientsMesh := clientsMesh - {c.key};
          gone := NotePeerGoneFromRegionLocked(c.key);
        }
        BroadcastPeerStateChangeLocked(c.key, false);
      }
      if c.canMesh {
        watchers := watchers - {c};
      }
      curClients := curClients - 1;
      if c in preferred {
        curHomeClients := curHomeClients - 1;
      }
      preferred := preferred - {c};
    }

    /** Panics in the source without mesh permission. */
    method DoAddWatcher(c: Conn) returns (order: seq<Key>)
      requires c.canMesh
      modifies this
      ensures Fields() == AddWatcher(old(Fields()), c, order)
      ensures c.key != publicKey ==> Enumerates(order, clients.Keys)
      ensures NoDup(order)
    {
      order := [];
      if c.key == publicKey {
        return;
      }
      var queue, todo := Changes(peerStateChange, c), clients.Keys;
      while todo != {}
        invariant todo <= clients.Keys && Enumerates(order, clients.Keys - todo) && NoDup(order)
        invariant queue == Changes(old(peerStateChange), c) + Presents(order)
      {
        var peer :| peer in todo;
        assert Presents(order + [peer]) == Presents(order) + [PeerChange(peer, true)];
        queue := queue + [PeerChange(peer, true)];
        order := order + [peer];
        todo := todo - {peer};
      }
      peerStateChange := peerStateChange[c := queue];
      watchers := watchers + {c};
    }

    method NotePeerSendLocked(src: Key, dst: Conn)
      modifies this
      ensures Fields() == NoteSend(old(Fields()), src, dst)
    {
      var m: map<Key, nat> := map[];
      if src in sentTo {
        m := sentTo[src];
      }
      m := m[dst.key := dst.num];
      sentTo := sentTo[src := m];
    }

    method DoSetPreferred(c: Conn, v: bool)
      modifies this
      ensures Fields() == SetPreferred(old(Fields()), c, v)
    {
      if (c in preferred) == v {
        return;
      }
      if v {
        preferred, curHomeClients := preferred + {c}, curHomeClients + 1;
      } else {
        preferred, curHomeClients := preferred - {c}, curHomeClients - 1;
      }
    }

    /**
     Writes as many queued updates as fit in `avail` bytes of buffer and keeps
     the rest. What was written is a prefix, it leaves at least one byte free,
     and one more update would not have.
     */
    method SendMeshUpdates(c: Conn, avail: nat) returns (written: seq<PeerChange>)
      modifies this
      ensures Fields() == DrainUpdates(old(Fields()), c, avail)
      ensures written + Changes(peerStateChange, c) == Changes(old(peerStateChange), c)
      ensures written == [] || (FRAME_HEADER_LEN + KEY_LEN) * |written| < avail
      ensures Changes(peerStateChange, c) == [] || (FRAME_HEADER_LEN + KEY_LEN) * (|written| + 1) >= avail
    {
      var changes := Changes(peerStateChange, c);
      var writes, available := 0, avail;
      while writes < |changes|
        invariant 0 <= writes <= |changes|
        invariant available == avail - (FRAME_HEADER_LEN + KEY_LEN) * writes
        invariant writes == 0 || available > 0
      {
        if available <= FRAME_HEADER_LEN + KEY_LEN {
          break;
        }
        available := available - (FRAME_HEADER_LEN + KEY_LEN);
        writes := writes + 1;
      }
      assert writes == Drained(old(Fields()), c, avail);
      written := changes[..writes];
      peerStateChange := peerStateChange[c := changes[writes..]];
    }

    method DoAddPacketForwarder(dst: Key, f: Fwd)
      modifies this
      ensures Fields() == old(Fields()).(clientsMesh := AddForwarder(old(clientsMesh), dst, f))
    {
      var entry := One(f);
      if dst in clientsMesh {
        var prev := clientsMesh[dst];
        if prev == One(f) {
          return;
        }
        if prev.Multi? {
          if f !in prev.ranks {
            return;
          }
          var max := MaxVal(prev.ranks);
          clientsMesh := clientsMesh[dst := Multi(prev.ranks[f := (max + 1) % 256])];
          return;
        }
        if prev.One? {
          entry := Multi(map[prev.f := 1, f := 2]);
        }
      }
      clientsMesh := clientsMesh[dst := entry];
    }

    /** Panics in the source if a multiForwarder has fewer than two members. */
    method DoRemovePacketForwarder(dst: Key, f: Fwd) returns (gone: set<Conn>)
      requires dst in clientsMesh && clientsMesh[dst].Multi? ==> |clientsMesh[dst].ranks| >= 2
      modifies this
      ensures Fields() == RemoveForwarder(old(Fields()), dst, f)
      ensures gone == GoneOnRemove(old(Fields()), dst, f)
    {
      gone := {};
      if dst !in clientsMesh {
        return;
      }
      var v := clientsMesh[dst];
      if v.Multi? {
        var m := v.ranks - {f};
        clientsMesh := clientsMesh[dst := Multi(m)];
        if |m| == 1 {
          var remain :| remain in m;
          OnlyMember(m, remain);
          clientsMesh := clientsMesh[dst := One(remain)];
        }
        return;
      }
      if v != One(f) {
        return;
      }
      if dst in clients {
        clientsMesh := clientsMesh[dst := LocalOnly];
      } else {
        clientsMesh := clientsMesh - {dst};
        gone := NotePeerGoneFromRegionLocked(dst);
      }
    }

    /** Whether the registry passes the consistency check. */
    method ConsistencyCheck() returns (ok: bool)
      ensures ok <==>
              && (forall k :: k in clientsMesh && clientsMesh[k].LocalOnly? ==> k in clients)
              && (forall k :: k in clients ==> k in clientsMesh)
              && curClients == |clients|
    {
      var nilMeshNotInClient, clientNotInMesh := 0, 0;
      var todo := clientsMesh.Keys;
      while todo != {}
        invariant todo <= clientsMesh.Keys && nilMeshNotInClient >= 0
        invariant nilMeshNotInClient == 0 <==> forall k :: k in clientsMesh.Keys - todo && clientsMesh[k].LocalOnly? ==> k in clients
      {
        var k :| k in todo;
        if clientsMesh[k].LocalOnly? && k !in clients {
          nilMeshNotInClient := nilMeshNotInClient + 1;
        }
        todo := todo - {k};
      }
      todo := clients.Keys;
      while todo != {}
        invariant todo <= clients.Keys && clientNotInMesh >= 0
        invariant clientNotInMesh == 0 <==> forall k :: k in clients.Keys - todo ==> k in clientsMesh
      {
        var k :| k in todo;
        if k !in clientsMesh {
          clientNotInMesh := clientNotInMesh + 1;
        }
        todo := todo - {k};
      }
      ok := nilMeshNotInClient == 0 && clientNotInMesh == 0 && curClients == |clients|;
    }
  }

  lemma OnlyMember(m: map<Fwd, nat>, g: Fwd)
    requires |m| == 1 && g in m
    ensures forall h :: h in m <==> h == g
  {
    assert |m.Keys - {g}| == 0;
  }

  method MaxVal(m: map<Fwd, nat>) returns (max: nat)
    ensures max == MaxRank(m)
  {
    max := 0;
    var todo := m.Keys;
    while todo != {}
      invariant todo <= m.Keys
      invariant forall f :: f in m.Keys - todo ==> m[f] <= max
      invariant max == 0 || exists f :: f in m && m[f] == max
    {
      var f :| f in todo;
      if m[f] > max {
        max := m[f];
      }
      todo := todo - {f};
    }
    assert IsMaxRank(m, max);
  }

  /** The member a multiForwarder forwards to: one of lowest rank. */
  method PickForwarder(m: map<Fwd, nat>) returns (fwd: Fwd)
    requires m != map[]
    ensures fwd in m && forall g :: g in m ==> m[fwd] <= m[g]
  {
    var todo := m.Keys;
    fwd :| fwd in m;
    var lowest := m[fwd];
    while todo != {}
      invariant todo <= m.Keys && fwd in m && lowest == m[fwd]
      invariant forall g :: g in m.Keys - todo ==> lowest <= m[g]
    {
      var k :| k in todo;
      if m[k] < lowest {
        fwd, lowest := k, m[k];
      }
      todo := todo - {k};
    }
  }
}
