/**
 Mesh clients: each watches one other relay of the region and keeps a relay's
 forwarders in step with the keys present there. Any number of them run beside
 the registry, one critical section at a time.
 */
module DerpMesh {
  import opened DerpServer
  import DerpRegion

  /** The forwarders of an entry. */
  function Members(e: MeshEntry): set<Fwd> {
    match e
    case LocalOnly => {}
    case One(f) => {f}
    case Multi(m) => m.Keys
  }

  /** The forwarders held for a key. */
  function Fwds(mesh: map<Key, MeshEntry>, k: Key): set<Fwd> { Members(Entry(mesh, k)) }

  ghost predicate EntriesOk(mesh: map<Key, MeshEntry>) {
    forall k :: k in mesh ==> DerpRegion.EntryOk(mesh[k])
  }

  /** What adding does to a set of forwarders: a third is ignored. */
  function AtMostPair(held: set<Fwd>, f: Fwd): set<Fwd> {
    if |held + {f}| <= 2 then held + {f} else held
  }

  lemma AddToEntryInstalls(e: MeshEntry, f: Fwd)
    requires DerpRegion.EntryOk(e)
    ensures Members(AddToEntry(e, f)) == AtMostPair(Members(e), f)
  {
    match e
    case LocalOnly => assert {} + {f} == {f};
    case One(g) =>
      assert {g} + {f} == {g, f};
      assert g != f ==> AddToEntry(e, f).ranks.Keys == {g, f};
    case Multi(m) =>
      assert |m.Keys| == 2;
      if f in m {
        assert m.Keys + {f} == m.Keys == AddToEntry(e, f).ranks.Keys;
      }
  }

  /**
   Adding a forwarder installs it exactly when fewer than two others are held;
   a third is ignored. No other forwarder and no other key is affected.
   */
  lemma AddInstallsExactly(mesh: map<Key, MeshEntry>, dst: Key, f: Fwd)
    requires EntriesOk(mesh)
    ensures EntriesOk(AddForwarder(mesh, dst, f))
    ensures Fwds(AddForwarder(mesh, dst, f), dst) == AtMostPair(Fwds(mesh, dst), f)
    ensures forall k :: k != dst ==> Fwds(AddForwarder(mesh, dst, f), k) == Fwds(mesh, k)
  {
    AddToEntryInstalls(Entry(mesh, dst), f);
    DerpRegion.AddKeepsEntry(Entry(mesh, dst), f);
  }

  lemma RemoveFromEntry(m: map<Fwd, nat>, f: Fwd)
    requires DerpRegion.EntryOk(Multi(m))
    ensures DerpRegion.EntryOk(WithoutMember(m, f)) && Members(WithoutMember(m, f)) == m.Keys - {f}
  {
    DerpRegion.RemoveFromPair(m, f);
  }

  /** Removing a forwarder removes exactly it, whether or not the key is connected here. */
  lemma RemoveRemovesExactly(mesh: map<Key, MeshEntry>, isLocal: bool, dst: Key, f: Fwd)
    requires EntriesOk(mesh)
    ensures EntriesOk(RemoveFrom(mesh, isLocal, dst, f))
    ensures Fwds(RemoveFrom(mesh, isLocal, dst, f), dst) == Fwds(mesh, dst) - {f}
    ensures forall k :: k != dst ==> Fwds(RemoveFrom(mesh, isLocal, dst, f), k) == Fwds(mesh, k)
  {
    match Entry(mesh, dst)
    case LocalOnly =>
    case One(g) =>
    case Multi(m) =>
      RemoveFromEntry(m, f);
      var e := WithoutMember(m, f);
      assert RemoveFrom(mesh, isLocal, dst, f) == mesh[dst := e];
  }

  /** What a message told to client f does to the forwarders held for k. */
  function Told(held: set<Fwd>, f: Fwd, k: Key, m: PeerChange): set<Fwd> {
    if k != m.peer then held else if m.present then AtMostPair(held, f) else held - {f}
  }

  // ---------------------------------------------------------------------
  // The object
  // ---------------------------------------------------------------------

  /** One mesh client of `server`. `received` are the updates read since the forwarders were last cleared. */
  class MeshClient {
    const id: Fwd
    const server: Server
    var present: set<Key>
    var lastConnGen: int
    ghost var received: seq<PeerChange>

    /** The client believes what it was told, and its forwarders are for keys it believes present. */
    ghost predicate Valid()
      reads this, server
    {
      && EntriesOk(server.clientsMesh)
      && present == DerpRegion.View(received)
      && forall k :: id in Fwds(server.clientsMesh, k) ==> k in present
    }

    constructor (id: Fwd, server: Server)
      requires EntriesOk(server.clientsMesh)
      requires forall k :: id !in Fwds(server.clientsMesh, k)
      ensures Valid() && this.id == id && this.server == server && present == {}
    {
      this.id, this.server := id, server;
      present, lastConnGen, received := {}, 0, [];
    }

    /** Takes back every forwarder of this client and leaves all others. */
    method Clear()
      requires Valid()
      modifies this, server
      ensures Valid() && present == {} && received == [] && lastConnGen == old(lastConnGen)
      ensures forall k :: Fwds(server.clientsMesh, k) == old(Fwds(server.clientsMesh, k)) - {id}
    {
      var todo := present;
      while todo != {}
        invariant todo <= present && present == old(present) && lastConnGen == old(lastConnGen)
        invariant EntriesOk(server.clientsMesh)
        invariant forall k :: Fwds(server.clientsMesh, k) ==
                    if k in present - todo then old(Fwds(server.clientsMesh, k)) - {id} else old(Fwds(server.clientsMesh, k))
      {
        var k :| k in todo;
        RemoveRemovesExactly(server.clientsMesh, k in server.clients, k, id);
        var gone := server.DoRemovePacketForwarder(k, id);
        todo := todo - {k};
      }
      present, received := {}, [];
    }

    /** Adds or removes this client as a forwarder, then notes the key. */
    method UpdatePeer(k: Key, isPresent: bool)
      requires Valid()
      modifies this, server
      ensures Valid() && lastConnGen == old(lastConnGen)
      ensures received == old(received) + [PeerChange(k, isPresent)]
      ensures forall j :: j != k ==> Fwds(server.clientsMesh, j) == old(Fwds(server.clientsMesh, j))
      ensures !isPresent ==> Fwds(server.clientsMesh, k) == old(Fwds(server.clientsMesh, k)) - {id}
      ensures isPresent ==> Fwds(server.clientsMesh, k) ==
                            AtMostPair(old(Fwds(server.clientsMesh, k)), id)
    {
      DerpRegion.ViewAppend(received, PeerChange(k, isPresent));
      received := received + [PeerChange(k, isPresent)];
      ghost var mesh, isLocal := server.clientsMesh, k in server.clients;
      if isPresent {
        AddInstallsExactly(mesh, k, id);
        server.DoAddPacketForwarder(k, id);
        assert server.Fields().clientsMesh == AddForwarder(mesh, k, id);
        present := present + {k};
      } else {
        RemoveRemovesExactly(mesh, isLocal, k, id);
        var gone := server.DoRemovePacketForwarder(k, id);
        assert server.Fields().clientsMesh == RemoveFrom(mesh, isLocal, k, id);
        present := present - {k};
      }
    }

    /** One message of the watch loop; a new connection generation starts from nothing. */
    method Handle(m: PeerChange, connGen: int)
      requires Valid()
      modifies this, server
      ensures Valid() && lastConnGen == connGen
      ensures received == (if connGen != old(lastConnGen) then [] else old(received)) + [m]
      ensures forall k :: Fwds(server.clientsMesh, k) ==
                          Told(if connGen != old(lastConnGen) then old(Fwds(server.clientsMesh, k)) - {id}
                               else old(Fwds(server.clientsMesh, k)), id, k, m)
    {
      ghost var before, isNew := server.clientsMesh, connGen != lastConnGen;
      if connGen != lastConnGen {
        lastConnGen := connGen;
        Clear();
      }
      ghost var cleared := server.clientsMesh;
      assert forall k :: Fwds(cleared, k) == if isNew then Fwds(before, k) - {id} else Fwds(before, k);
      UpdatePeer(m.peer, m.present);
      assert forall k :: Fwds(server.clientsMesh, k) == Told(Fwds(cleared, k), id, k, m);
    }
  }

  // ---------------------------------------------------------------------
  // Interleavings
  // ---------------------------------------------------------------------

  /** Where a mesh client is: between messages, or between its call on the server and its own note of it. */
  datatype Pc = AtLoop | Added(k: Key) | Removed(k: Key) | Clearing(todo: set<Key>)

  /** `heard` are the messages the client has handled since it last cleared. */
  datatype Loop = Loop(present: set<Key>, pc: Pc, heard: seq<PeerChange>)

  datatype World = World(region: DerpRegion.World, loops: map<Fwd, Loop>)

  datatype Step =
    | ServerStep(step: DerpRegion.Step)
    | GotPresent(f: Fwd, k: Key)
    | GotGone(f: Fwd, k: Key)
    | NoteIt(f: Fwd)
    | BeginClear(f: Fwd)
    | ClearOne(f: Fwd, k: Key)
    | EndClear(f: Fwd)

  ghost predicate Enabled(w: World, step: Step) {
    match step
    case ServerStep(st) => DerpRegion.Enabled(w.region, st) && !st.AddFwd? && !st.RemoveFwd?
    case GotPresent(f, _) => f in w.loops && w.loops[f].pc.AtLoop?
    case GotGone(f, _) => f in w.loops && w.loops[f].pc.AtLoop?
    case NoteIt(f) => f in w.loops && (w.loops[f].pc.Added? || w.loops[f].pc.Removed?)
    case BeginClear(f) => f in w.loops && w.loops[f].pc.AtLoop?
    case ClearOne(f, k) => f in w.loops && w.loops[f].pc.Clearing? && k in w.loops[f].pc.todo
    case EndClear(f) => f in w.loops && w.loops[f].pc == Clearing({})
  }

  function Noting(l: Loop): Loop {
    match l.pc
    case Added(k) => Loop(l.present + {k}, AtLoop, l.heard + [PeerChange(k, true)])
    case Removed(k) => Loop(l.present - {k}, AtLoop, l.heard + [PeerChange(k, false)])
    case _ => l
  }

  function LoopAfter(l: Loop, step: Step): Loop {
    match step
    case ServerStep(_) => l
    case GotPresent(_, k) => l.(pc := Added(k))
    case GotGone(_, k) => l.(pc := Removed(k))
    case NoteIt(_) => Noting(l)
    case BeginClear(_) => l.(pc := Clearing(l.present))
    case ClearOne(_, k) => if l.pc.Clearing? then l.(pc := Clearing(l.pc.todo - {k})) else l
    case EndClear(_) => Loop({}, AtLoop, [])
  }

  ghost function RegionAfter(r: DerpRegion.World, step: Step): DerpRegion.World {
    match step
    case ServerStep(st) => DerpRegion.Apply(r, st)
    case GotPresent(f, k) => DerpRegion.Apply(r, DerpRegion.AddFwd(k, f))
    case GotGone(f, k) => DerpRegion.Apply(r, DerpRegion.RemoveFwd(k, f))
    case ClearOne(f, k) => DerpRegion.Apply(r, DerpRegion.RemoveFwd(k, f))
    case _ => r
  }

  ghost function Apply(w: World, step: Step): World
    requires Enabled(w, step)
  {
    World(RegionAfter(w.region, step),
          if step.ServerStep? then w.loops else w.loops[step.f := LoopAfter(w.loops[step.f], step)])
  }

  ghost predicate ValidRun(w: World, steps: seq<Step>)
    decreases steps
  {
    steps == [] || (Enabled(w, steps[0]) && ValidRun(Apply(w, steps[0]), steps[1..]))
  }

  ghost function Exec(w: World, steps: seq<Step>): World
    requires ValidRun(w, steps)
    decreases steps
  {
    if steps == [] then w else Exec(Apply(w, steps[0]), steps[1..])
  }

  /** A relay with its mesh clients before any has heard anything. */
  ghost predicate Initial(w: World) {
    && w.region == DerpRegion.Init(w.region.s.publicKey)
    && forall f :: f in w.loops ==> w.loops[f] == Loop({}, AtLoop, [])
  }

  // ---------------------------------------------------------------------
  // Who claims a key
  // ---------------------------------------------------------------------

  /** Whether the client's last call on the server for k was an add. */
  predicate Claims(l: Loop, k: Key) {
    match l.pc
    case AtLoop => k in l.present
    case Added(j) => k == j || k in l.present
    case Removed(j) => k != j && k in l.present
    case Clearing(todo) => k in todo
  }

  function Claimants(w: World, k: Key): set<Fwd> {
    set f | f in w.loops && Claims(w.loops[f], k)
  }

  ghost predicate LoopsOk(w: World) {
    forall f :: f in w.loops && w.loops[f].pc.Clearing? ==> w.loops[f].pc.todo <= w.loops[f].present
  }

  /** Every forwarder held is claimed by the mesh client it is. */
  ghost predicate Sound(w: World) {
    forall k :: Fwds(w.region.s.clientsMesh, k) <= Claimants(w, k)
  }

  /** The forwarders held for k are its claimants. */
  ghost predicate Exact(w: World, k: Key) { Fwds(w.region.s.clientsMesh, k) == Claimants(w, k) }

  ghost predicate Inv(w: World) {
    EntriesOk(w.region.s.clientsMesh) && LoopsOk(w) && Sound(w)
  }

  /** What a step does to the claims: at most one client's claim to one key changes. */
  lemma ClaimsAfter(w: World, step: Step, k: Key)
    requires Enabled(w, step) && LoopsOk(w)
    ensures var after := Claimants(Apply(w, step), k);
            && (step.GotPresent? ==> after == if k == step.k then Claimants(w, k) + {step.f} else Claimants(w, k))
            && (step.GotGone? || step.ClearOne? ==> after == if k == step.k then Claimants(w, k) - {step.f} else Claimants(w, k))
            && (step.ServerStep? || step.NoteIt? || step.BeginClear? || step.EndClear? ==> after == Claimants(w, k))
  {
  }

  /** The registry's own steps do not touch forwarders. */
  lemma ServerStepKeepsFwds(r: DerpRegion.World, st: DerpRegion.Step)
    requires EntriesOk(r.s.clientsMesh) && !st.AddFwd? && !st.RemoveFwd?
    ensures var after := DerpRegion.Apply(r, st).s.clientsMesh;
            EntriesOk(after) && forall k :: Fwds(after, k) == Fwds(r.s.clientsMesh, k)
  {
    match st
    case RegisterConn(c) =>
    case UnregisterConn(c) =>
    case Accept(_, _) | Watch(_, _) | Drain(_, _) | Send(_, _) | Prefer(_, _) => DerpRegion.MeshFrame(r, st);
  }

  lemma AddStepInstalls(r: DerpRegion.World, k: Key, f: Fwd)
    requires EntriesOk(r.s.clientsMesh)
    ensures var before, after := r.s.clientsMesh, DerpRegion.Apply(r, DerpRegion.AddFwd(k, f)).s.clientsMesh;
            && EntriesOk(after) && Fwds(after, k) == AtMostPair(Fwds(before, k), f)
            && forall j :: j != k ==> Fwds(after, j) == Fwds(before, j)
  {
    AddInstallsExactly(r.s.clientsMesh, k, f);
  }

  lemma RemoveStepRemoves(r: DerpRegion.World, k: Key, f: Fwd)
    requires EntriesOk(r.s.clientsMesh)
    ensures var before, after := r.s.clientsMesh, DerpRegion.Apply(r, DerpRegion.RemoveFwd(k, f)).s.clientsMesh;
            && EntriesOk(after) && Fwds(after, k) == Fwds(before, k) - {f}
            && forall j :: j != k ==> Fwds(after, j) == Fwds(before, j)
  {
    RemoveRemovesExactly(r.s.clientsMesh, k in r.s.clients, k, f);
  }

  /** What a step does to the forwarders. */
  lemma FwdsAfter(w: World, step: Step)
    requires Enabled(w, step) && EntriesOk(w.region.s.clientsMesh)
    ensures var before, after := w.region.s.clientsMesh, Apply(w, step).region.s.clientsMesh;
            && EntriesOk(after)
            && (forall k :: step.GotPresent? && k == step.k ==>
                  Fwds(after, k) == AtMostPair(Fwds(before, k), step.f))
            && (forall k :: (step.GotGone? || step.ClearOne?) && k == step.k ==> Fwds(after, k) == Fwds(before, k) - {step.f})
            && (forall k :: !((step.GotPresent? || step.GotGone? || step.ClearOne?) && k == step.k) ==> Fwds(after, k) == Fwds(before, k))
  {
    match step
    case ServerStep(st) => ServerStepKeepsFwds(w.region, st);
    case GotPresent(f, k) => AddStepInstalls(w.region, k, f);
    case GotGone(f, k) => RemoveStepRemoves(w.region, k, f);
    case ClearOne(f, k) => RemoveStepRemoves(w.region, k, f);
    case NoteIt(_) | BeginClear(_) | EndClear(_) =>
  }

  lemma StepKeepsInv(w: World, step: Step)
    requires Inv(w) && Enabled(w, step)
    ensures Inv(Apply(w, step))
  {
    var t := Apply(w, step);
    FwdsAfter(w, step);
    forall k ensures Fwds(t.region.s.clientsMesh, k) <= Claimants(t, k) {
      ClaimsAfter(w, step, k);
    }
  }

  lemma StepKeepsExact(w: World, step: Step, k: Key)
    requires Inv(w) && Exact(w, k) && Enabled(w, step) && |Claimants(Apply(w, step), k)| <= 2
    ensures Exact(Apply(w, step), k)
  {
    FwdsAfter(w, step);
    ClaimsAfter(w, step, k);
  }

  ghost predicate NeverThree(w: World, steps: seq<Step>, k: Key)
    requires ValidRun(w, steps)
    decreases steps
  {
    |Claimants(w, k)| <= 2 && (steps != [] ==> NeverThree(Apply(w, steps[0]), steps[1..], k))
  }

  ghost predicate AlwaysExact(w: World, steps: seq<Step>, k: Key)
    requires ValidRun(w, steps)
    decreases steps
  {
    Exact(w, k) && (steps != [] ==> AlwaysExact(Apply(w, steps[0]), steps[1..], k))
  }

  lemma HeldAtMostTwo(mesh: map<Key, MeshEntry>, k: Key)
    requires EntriesOk(mesh)
    ensures |Fwds(mesh, k)| <= 2
  {
  }

  lemma {:induction false} RunKeepsInv(w: World, steps: seq<Step>)
    requires Inv(w) && ValidRun(w, steps)
    ensures Inv(Exec(w, steps))
    decreases steps
  {
    if steps != [] {
      StepKeepsInv(w, steps[0]);
      RunKeepsInv(Apply(w, steps[0]), steps[1..]);
    }
  }

  // ---------------------------------------------------------------------
  // Main results
  // ---------------------------------------------------------------------

  /** In every run, a forwarder held for a key is a mesh client that, between messages, has the key present. */
  lemma ForwardersAreSound(w: World, steps: seq<Step>, k: Key, f: Fwd)
    requires Initial(w) && ValidRun(w, steps)
    requires f in Fwds(Exec(w, steps).region.s.clientsMesh, k)
    ensures f in Exec(w, steps).loops
    ensures Exec(w, steps).loops[f].pc.AtLoop? ==> k in Exec(w, steps).loops[f].present
  {
    RunKeepsInv(w, steps);
    assert f in Claimants(Exec(w, steps), k);
  }

  /**
   The forwarders held for a key are exactly its claimants all along a run if
   and only if the key never has more than two claimants along it.
   */
  lemma {:induction false} ExactIffNeverThree(w: World, steps: seq<Step>, k: Key)
    requires Inv(w) && ValidRun(w, steps) && Exact(w, k)
    ensures AlwaysExact(w, steps, k) <==> NeverThree(w, steps, k)
    decreases steps
  {
    HeldAtMostTwo(w.region.s.clientsMesh, k);
    if steps != [] {
      var t := Apply(w, steps[0]);
      StepKeepsInv(w, steps[0]);
      HeldAtMostTwo(t.region.s.clientsMesh, k);
      if |Claimants(t, k)| <= 2 {
        StepKeepsExact(w, steps[0], k);
        ExactIffNeverThree(t, steps[1..], k);
      } else {
        assert !Exact(t, k);
      }
    }
  }

  /** From the start: a key that never had three claimants is forwarded by exactly those who claim it, between messages those who have it present. */
  lemma ForwardersAreExact(w: World, steps: seq<Step>, k: Key)
    requires Initial(w) && ValidRun(w, steps) && NeverThree(w, steps, k)
    ensures var t := Exec(w, steps);
            && Fwds(t.region.s.clientsMesh, k) == Claimants(t, k)
            && forall f :: f in t.loops && t.loops[f].pc.AtLoop? ==>
                 (f in Fwds(t.region.s.clientsMesh, k) <==> k in t.loops[f].present)
  {
    assert Claimants(w, k) == {};
    ExactIffNeverThree(w, steps, k);
    EndsExact(w, steps, k);
  }

  lemma {:induction false} EndsExact(w: World, steps: seq<Step>, k: Key)
    requires ValidRun(w, steps) && AlwaysExact(w, steps, k)
    ensures Exact(Exec(w, steps), k)
    decreases steps
  {
    if steps != [] {
      EndsExact(Apply(w, steps[0]), steps[1..], k);
    }
  }

  lemma FirstThen(w: World, first: Step, rest: seq<Step>)
    requires Enabled(w, first) && ValidRun(Apply(w, first), rest)
    ensures ValidRun(w, [first] + rest) && Exec(w, [first] + rest) == Exec(Apply(w, first), rest)
  {
    assert ([first] + rest)[1..] == rest;
  }

  /** There is a run in which a mesh client ends between messages, with a key present that it is not held for. */
  lemma ThirdClientIsNotHeld(w: World, f1: Fwd, f2: Fwd, f3: Fwd, k: Key) returns (steps: seq<Step>)
    requires Initial(w) && {f1, f2, f3} <= w.loops.Keys && f1 != f2 && f1 != f3 && f2 != f3
    ensures ValidRun(w, steps)
    ensures var t := Exec(w, steps);
            f3 in t.loops && t.loops[f3].pc.AtLoop? && k in t.loops[f3].present && Fwds(t.region.s.clientsMesh, k) == {f1, f2}
  {
    var s1, s2, s3, s4 := GotPresent(f1, k), GotPresent(f2, k), GotPresent(f3, k), NoteIt(f3);
    var w1 := Apply(w, s1);
    FwdsAfter(w, s1);
    assert Fwds(w1.region.s.clientsMesh, k) == {f1} by { assert {} + {f1} == {f1}; }
    var w2 := Apply(w1, s2);
    FwdsAfter(w1, s2);
    assert Fwds(w2.region.s.clientsMesh, k) == {f1, f2} by { assert {f1} + {f2} == {f1, f2}; }
    var w3 := Apply(w2, s3);
    FwdsAfter(w2, s3);
    assert Fwds(w3.region.s.clientsMesh, k) == {f1, f2} by { assert {f1, f2} + {f3} == {f1, f2, f3}; }
    var w4 := Apply(w3, s4);
    assert ValidRun(w4, []) && Exec(w4, []) == w4;
    FirstThen(w3, s4, []);
    FirstThen(w2, s3, [s4] + []);
    FirstThen(w1, s2, [s3] + ([s4] + []));
    FirstThen(w, s1, [s2] + ([s3] + ([s4] + [])));
    steps := [s1] + ([s2] + ([s3] + ([s4] + [])));
  }

  /** What a client has present is what it was told. */
  ghost predicate Heard(w: World, f: Fwd) {
    f in w.loops ==> w.loops[f].present == DerpRegion.View(w.loops[f].heard)
  }

  lemma NotingHears(l: Loop)
    requires l.present == DerpRegion.View(l.heard)
    ensures Noting(l).present == DerpRegion.View(Noting(l).heard)
  {
    match l.pc
    case Added(k) => DerpRegion.ViewAppend(l.heard, PeerChange(k, true));
    case Removed(k) => DerpRegion.ViewAppend(l.heard, PeerChange(k, false));
    case AtLoop | Clearing(_) =>
  }

  /** In every interleaving, what a mesh client has present is the fold of the messages it has handled since it last cleared. */
  lemma {:induction false} ClientsBelieveWhatTheyHeard(w: World, steps: seq<Step>, f: Fwd)
    requires ValidRun(w, steps) && Heard(w, f)
    ensures Heard(Exec(w, steps), f)
    decreases steps
  {
    if steps != [] {
      if f in w.loops { NotingHears(w.loops[f]); }
      ClientsBelieveWhatTheyHeard(Apply(w, steps[0]), steps[1..], f);
    }
  }

  /**
   Two relays: once the messages that mesh client f of relay A has handled are
   those relay B wrote to its watch connection c, and B has nothing queued for
   it, f is held only for keys connected to B, and for each of them that never
   had three claimants.
   */
  lemma MirrorConverges(a: World, stepsA: seq<Step>, f: Fwd, keyB: Key, stepsB: seq<DerpRegion.Step>, c: Conn, k: Key)
    requires Initial(a) && ValidRun(a, stepsA)
    requires DerpRegion.ValidRun(DerpRegion.Init(keyB), stepsB)
    requires var t := Exec(a, stepsA);
             var b := DerpRegion.Exec(DerpRegion.Init(keyB), stepsB);
             && f in t.loops && t.loops[f].pc.AtLoop?
             && c in b.s.watchers && Changes(b.s.peerStateChange, c) == []
             && t.loops[f].heard == Changes(b.written, c)
    ensures var held := f in Fwds(Exec(a, stepsA).region.s.clientsMesh, k);
            var connected := k in DerpRegion.Exec(DerpRegion.Init(keyB), stepsB).s.clients;
            (held ==> connected) && (NeverThree(a, stepsA, k) ==> (held <==> connected))
  {
    var t, b := Exec(a, stepsA), DerpRegion.Exec(DerpRegion.Init(keyB), stepsB);
    DerpRegion.WatchersSeeClients(keyB, stepsB, c);
    assert Changes(b.written, c) + Changes(b.s.peerStateChange, c) == Changes(b.written, c);
    ClientsBelieveWhatTheyHeard(a, stepsA, f);
    if f in Fwds(t.region.s.clientsMesh, k) {
      ForwardersAreSound(a, stepsA, k, f);
    }
    if NeverThree(a, stepsA, k) {
      ForwardersAreExact(a, stepsA, k);
    }
  }
}
