/**
 Two relays of a region. Mesh client f of relay A watches relay B: it takes the
 updates that B has written to its connection one by one, in order. When it sees
 that it lost the connection it clears and comes back on a new one; it may also
 find itself on a new one unawares, and then clears when the first update comes.
 Everything else on both relays, other mesh clients included, goes on meanwhile.
 */
module DerpMirror {
  import opened DerpServer
  import A = DerpMesh
  import B = DerpRegion

  /**
   `conn` is f's connection to B, and `taken` how many of the updates written to
   it f has taken. While `stale`, f has not yet noticed that the connection is
   another than the one it heard its updates on.
   */
  datatype Pair = Pair(a: A.World, b: B.World, f: Fwd, conn: Conn, connected: bool, stale: bool, taken: nat)

  datatype Step =
    | OnA(sa: A.Step)   // anything on A but f taking a message or clearing
    | OnB(sb: B.Step)
    | Take              // f takes the next update
    | Lose              // f loses the connection and begins to clear
    | Connect(c: Conn)
    | Replace(c: Conn)  // the connection is replaced without f noticing
    | Notice            // f reads from the new connection and begins to clear

  function Written(p: Pair): seq<PeerChange> { Changes(p.b.written, p.conn) }

  function TakeStep(p: Pair): A.Step
    requires p.taken < |Written(p)|
  {
    var u := Written(p)[p.taken];
    if u.present then A.GotPresent(p.f, u.peer) else A.GotGone(p.f, u.peer)
  }

  predicate AtLoop(p: Pair) { p.f in p.a.loops && p.a.loops[p.f].pc.AtLoop? }

  ghost predicate Enabled(p: Pair, step: Step) {
    match step
    case OnA(sa) => A.Enabled(p.a, sa) && ((sa.GotPresent? || sa.GotGone? || sa.BeginClear?) ==> sa.f != p.f)
    case OnB(sb) => B.Enabled(p.b, sb)
    case Take => p.connected && !p.stale && AtLoop(p) && p.taken < |Written(p)|
    case Lose => p.connected && AtLoop(p)
    case Connect(_) => !p.connected && AtLoop(p)
    case Replace(_) => p.connected && AtLoop(p)
    case Notice => p.connected && p.stale && AtLoop(p) && p.taken < |Written(p)|
  }

  /** The step relay A takes part with, if any. */
  ghost function StepOfA(p: Pair, step: Step): seq<A.Step>
    requires Enabled(p, step)
  {
    match step
    case OnA(sa) => [sa]
    case Take => [TakeStep(p)]
    case Lose | Notice => [A.BeginClear(p.f)]
    case OnB(_) | Connect(_) | Replace(_) => []
  }

  ghost function StepOfB(step: Step): seq<B.Step> { if step.OnB? then [step.sb] else [] }

  ghost function Apply(p: Pair, step: Step): Pair
    requires Enabled(p, step)
  {
    match step
    case OnA(sa) => p.(a := A.Apply(p.a, sa))
    case OnB(sb) => p.(b := B.Apply(p.b, sb))
    case Take => p.(a := A.Apply(p.a, TakeStep(p)), taken := p.taken + 1)
    case Lose => p.(a := A.Apply(p.a, A.BeginClear(p.f)), connected := false)
    case Connect(c) => p.(conn := c, connected := true, stale := false, taken := 0)
    case Replace(c) => p.(conn := c, stale := true, taken := 0)
    case Notice => p.(a := A.Apply(p.a, A.BeginClear(p.f)), stale := false)
  }

  ghost predicate ValidRun(p: Pair, steps: seq<Step>)
    decreases steps
  {
    steps == [] || (Enabled(p, steps[0]) && ValidRun(Apply(p, steps[0]), steps[1..]))
  }

  ghost function Exec(p: Pair, steps: seq<Step>): Pair
    requires ValidRun(p, steps)
    decreases steps
  {
    if steps == [] then p else Exec(Apply(p, steps[0]), steps[1..])
  }

  /** Two relays that have done nothing yet, f not connected. */
  ghost predicate Initial(p: Pair) {
    A.Initial(p.a) && p.f in p.a.loops && p.b == B.Init(p.b.s.publicKey) && !p.connected
  }

  // ---------------------------------------------------------------------
  // Each relay's own run
  // ---------------------------------------------------------------------

  ghost function RunOfA(p: Pair, steps: seq<Step>): seq<A.Step>
    requires ValidRun(p, steps)
    decreases steps
  {
    if steps == [] then [] else StepOfA(p, steps[0]) + RunOfA(Apply(p, steps[0]), steps[1..])
  }

  ghost function RunOfB(steps: seq<Step>): seq<B.Step> {
    if steps == [] then [] else StepOfB(steps[0]) + RunOfB(steps[1..])
  }

  lemma {:induction false} RunsOfA(p: Pair, steps: seq<Step>)
    requires ValidRun(p, steps)
    ensures A.ValidRun(p.a, RunOfA(p, steps)) && A.Exec(p.a, RunOfA(p, steps)) == Exec(p, steps).a
    decreases steps
  {
    if steps != [] {
      var rest := RunOfA(Apply(p, steps[0]), steps[1..]);
      RunsOfA(Apply(p, steps[0]), steps[1..]);
      var first := StepOfA(p, steps[0]);
      if first == [] {
        assert first + rest == rest;
      } else {
        assert (first + rest)[0] == first[0] && (first + rest)[1..] == rest;
      }
    }
  }

  lemma {:induction false} RunsOfB(p: Pair, steps: seq<Step>)
    requires ValidRun(p, steps)
    ensures B.ValidRun(p.b, RunOfB(steps)) && B.Exec(p.b, RunOfB(steps)) == Exec(p, steps).b
    decreases steps
  {
    if steps != [] {
      var rest := RunOfB(steps[1..]);
      RunsOfB(Apply(p, steps[0]), steps[1..]);
      var first := StepOfB(steps[0]);
      if first == [] {
        assert first + rest == rest;
      } else {
        assert (first + rest)[0] == first[0] && (first + rest)[1..] == rest;
      }
    }
  }

  // ---------------------------------------------------------------------
  // What f has heard
  // ---------------------------------------------------------------------

  /** The message f is handling, if any. */
  function Handling(l: A.Loop): seq<PeerChange> {
    match l.pc
    case Added(k) => [PeerChange(k, true)]
    case Removed(k) => [PeerChange(k, false)]
    case AtLoop | Clearing(_) => []
  }

  /**
   On a connection it knows of, f is still clearing or has heard what it took
   and nothing else. On one it does not, it has taken nothing. Without one it is
   clearing or has heard nothing.
   */
  ghost predicate InStep(p: Pair) {
    p.f in p.a.loops &&
    var l := p.a.loops[p.f];
    if p.connected && p.stale then l.pc.AtLoop? && p.taken == 0
    else if p.connected && l.pc.Clearing? then p.taken == 0
    else if p.connected then p.taken <= |Written(p)| && l.heard + Handling(l) == Written(p)[..p.taken]
    else l.pc.Clearing? || (l.pc.AtLoop? && l.heard == [])
  }

  /** What is written to a connection is never taken back. */
  lemma WrittenGrows(b: B.World, sb: B.Step, c: Conn)
    ensures Changes(b.written, c) <= Changes(B.Apply(b, sb).written, c)
  {
  }

  lemma OnAKeepsInStep(p: Pair, sa: A.Step)
    requires InStep(p) && Enabled(p, OnA(sa))
    ensures InStep(Apply(p, OnA(sa)))
  {
    var l := p.a.loops[p.f];
    if sa.NoteIt? && sa.f == p.f {
      assert A.Noting(l).heard + [] == l.heard + Handling(l);
    }
  }

  lemma TakeKeepsInStep(p: Pair)
    requires InStep(p) && Enabled(p, Take)
    ensures InStep(Apply(p, Take))
  {
    var t := Apply(p, Take);
    var u := Written(p)[p.taken];
    assert PeerChange(u.peer, u.present) == u;
    assert p.a.loops[p.f].heard + [] == p.a.loops[p.f].heard;
    assert Handling(t.a.loops[p.f]) == [u];
    assert Written(p)[..p.taken + 1] == Written(p)[..p.taken] + [u];
  }

  lemma StepKeepsInStep(p: Pair, step: Step)
    requires InStep(p) && Enabled(p, step)
    ensures InStep(Apply(p, step))
  {
    match step
    case OnA(sa) => OnAKeepsInStep(p, sa);
    case OnB(sb) => WrittenGrows(p.b, sb, p.conn);
    case Take => TakeKeepsInStep(p);
    case Lose | Connect(_) | Replace(_) | Notice =>
  }

  lemma {:induction false} RunKeepsInStep(p: Pair, steps: seq<Step>)
    requires InStep(p) && ValidRun(p, steps)
    ensures InStep(Exec(p, steps))
    decreases steps
  {
    if steps != [] {
      StepKeepsInStep(p, steps[0]);
      RunKeepsInStep(Apply(p, steps[0]), steps[1..]);
    }
  }

  /**
   In every run of the two relays, once f has taken all that B wrote to its
   connection, is between messages, and B has nothing more queued for it, A
   holds f only for keys connected to B, and for each of these that never had
   three claimants on A. The one exception is that f has not noticed that its
   connection is another, and then no key is connected to B.
   */
  lemma MirrorIsExact(p: Pair, steps: seq<Step>, k: Key)
    requires Initial(p) && ValidRun(p, steps)
    requires var t := Exec(p, steps);
             && t.connected && AtLoop(t) && t.taken == |Written(t)|
             && t.conn in t.b.s.watchers && Changes(t.b.s.peerStateChange, t.conn) == []
    ensures A.ValidRun(p.a, RunOfA(p, steps))
    ensures var t := Exec(p, steps);
            var held, connected := t.f in A.Fwds(t.a.region.s.clientsMesh, k), k in t.b.s.clients;
            && (t.stale ==> t.b.s.clients.Keys == {})
            && (!t.stale ==> (held ==> connected) && (A.NeverThree(p.a, RunOfA(p, steps), k) ==> (held <==> connected)))
  {
    RunKeepsInStep(p, steps);
    RunsOfA(p, steps);
    RunsOfB(p, steps);
    var t := Exec(p, steps);
    var l := t.a.loops[t.f];
    if t.stale {
      B.WatchersSeeClients(p.b.s.publicKey, RunOfB(steps), t.conn);
      assert Written(t) + Changes(t.b.s.peerStateChange, t.conn) == [];
    } else {
      assert l.heard == l.heard + Handling(l) == Written(t);
      A.MirrorConverges(p.a, RunOfA(p, steps), t.f, p.b.s.publicKey, RunOfB(steps), t.conn, k);
    }
  }
}
