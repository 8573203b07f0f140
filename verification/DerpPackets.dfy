/**
 Packets through a DERP relay: readers route them, senders write them out, and
 every atomic counter operation and channel operation is a step of its own, in
 any interleaving.
 */
module DerpPackets {
  import opened Common

  const PER_CLIENT_SEND_QUEUE_DEPTH := 32

  /** A packet and whether it looks like a disco message. */
  datatype Pkt = Pkt(id: nat, disco: bool)

  datatype DropReason = UnknownDest | UnknownDestOnFwd | Gone | QueueHead | QueueTail | WriteError

  function ReasonIndex(r: DropReason): nat {
    match r
    case UnknownDest => 0
    case UnknownDestOnFwd => 1
    case Gone => 2
    case QueueHead => 3
    case QueueTail => 4
    case WriteError => 5
  }

  /** A connection's two send queues, and whether it is closed. */
  datatype Conn = Conn(sendQueue: seq<Pkt>, discoSendQueue: seq<Pkt>, done: bool)

  datatype Counters = Counters(
    packetsRecv: int, packetsForwardedIn: int, packetsForwardedOut: int, packetsSent: int,
    packetsDropped: int, byReason: seq<int>, droppedDisco: int, droppedOther: int)

  /**
   Where a goroutine is. `Try` is an attempt to queue p for connection dst:
   check that it is open, then offer the packet, then make room. `Drop` counts
   a dropped packet in three separate additions and goes on with `next`.
   */
  datatype Pc =
    | Reading
    | Looking(p: Pkt, forwarded: bool)
    | Forwarding(p: Pkt)
    | Try(p: Pkt, dst: nat, attempt: nat, phase: nat)
    | Drop(d: Pkt, reason: DropReason, counted: nat, next: Pc)
    | SendIdle(c: nat)
    | Writing(c: nat, p: Pkt)
    | Draining(c: nat)
    | Exited

  /** The packets behind the counters, which the relay itself does not keep. */
  datatype Ledger = Ledger(
    received: seq<Pkt>, forwardedIn: seq<Pkt>, forwarded: seq<Pkt>, sent: seq<Pkt>, dropped: seq<Pkt>, reasons: seq<DropReason>)

  /**
   What happened to a connection: the packets looked up to it; those put into
   each queue and those taken out; and those its sender wrote.
   */
  datatype Hist = Hist(
    lookups: seq<Pkt>, offered: seq<Pkt>, taken: seq<Pkt>, discoOffered: seq<Pkt>, discoTaken: seq<Pkt>, written: seq<Pkt>)

  datatype State = State(conns: seq<Conn>, threads: seq<Pc>, n: Counters, l: Ledger, hist: seq<Hist>)

  const Init := State([], [], Counters(0, 0, 0, 0, 0, [0, 0, 0, 0, 0, 0], 0, 0), Ledger([], [], [], [], [], []), [])

  // ---------------------------------------------------------------------
  // Queues
  // ---------------------------------------------------------------------

  function Queue(c: Conn, disco: bool): seq<Pkt> { if disco then c.discoSendQueue else c.sendQueue }

  function WithQueue(c: Conn, disco: bool, q: seq<Pkt>): Conn {
    if disco then c.(discoSendQueue := q) else c.(sendQueue := q)
  }

  function Queued(c: Conn): int { |c.sendQueue| + |c.discoSendQueue| }

  /**
   Queues a packet, dropping from the head to make room, for a connection that
   no one else touches meanwhile. The packet is always queued if the connection
   is open, at the cost of at most the oldest packet: dropping at the tail only
   happens in a race.
   */
  method SendPkt(c: Conn, p: Pkt) returns (after: Conn, drops: seq<(Pkt, DropReason)>)
    requires |Queue(c, p.disco)| <= PER_CLIENT_SEND_QUEUE_DEPTH
    ensures c.done ==> after == c && drops == [(p, Gone)]
    ensures !c.done && |Queue(c, p.disco)| < PER_CLIENT_SEND_QUEUE_DEPTH ==>
              after == WithQueue(c, p.disco, Queue(c, p.disco) + [p]) && drops == []
    ensures !c.done && |Queue(c, p.disco)| == PER_CLIENT_SEND_QUEUE_DEPTH ==>
              && after == WithQueue(c, p.disco, Queue(c, p.disco)[1..] + [p])
              && drops == [(Queue(c, p.disco)[0], QueueHead)]
  {
    after, drops := c, [];
    for attempt := 0 to 3
      invariant attempt == 0 ==> after == c && drops == []
      invariant attempt >= 1 ==> !c.done && |Queue(c, p.disco)| == PER_CLIENT_SEND_QUEUE_DEPTH
      invariant attempt >= 1 ==> after == WithQueue(c, p.disco, Queue(c, p.disco)[1..]) && drops == [(Queue(c, p.disco)[0], QueueHead)]
      invariant attempt <= 1
    {
      if after.done {
        drops := drops + [(p, Gone)];
        return;
      }
      var q := Queue(after, p.disco);
      if |q| < PER_CLIENT_SEND_QUEUE_DEPTH {
        after := WithQueue(after, p.disco, q + [p]);
        return;
      }
      if q != [] {
        after := WithQueue(after, p.disco, q[1..]);
        drops := drops + [(q[0], QueueHead)];
      }
    }
    drops := drops + [(p, QueueTail)];
  }

  // ---------------------------------------------------------------------
  // Steps
  // ---------------------------------------------------------------------

  datatype Route = ToConn(dst: nat) | ToForwarder | Nowhere

  /** What a goroutine does next. */
  datatype Act =
    | ReadPacket(p: Pkt, forwarded: bool)
    | Lookup(route: Route)
    | CountForwarded
    | CheckDone
    | Offer
    | MakeRoom
    | CountDrop
    | Take(disco: bool)
    | Wrote(ok: bool)
    | StopSending
    | DrainDone

  datatype Step = NewReader | NewConn | Close(c: nat) | Go(t: nat, act: Act)

  /** Whether a goroutine at pc, working on connection c, can take the step. */
  predicate Starts(pc: Pc, c: Conn, act: Act) {
    match act
    case ReadPacket(_, _) => pc.Reading?
    case Lookup(r) => pc.Looking? && (r.ToForwarder? ==> !pc.forwarded)
    case CountForwarded => pc.Forwarding?
    case CheckDone => pc.Try? && pc.phase == 0
    case Offer => pc.Try? && pc.phase == 1
    case MakeRoom => pc.Try? && pc.phase == 2
    case CountDrop => pc.Drop?
    case Take(disco) => (pc.SendIdle? || pc.Draining?) && Queue(c, disco) != []
    case Wrote(_) => pc.Writing?
    case StopSending => pc.SendIdle?
    case DrainDone => pc.Draining? && Queued(c) == 0
  }

  /** After a failed attempt: the next one, or dropping at the tail. */
  function NextAttempt(p: Pkt, dst: nat, attempt: nat): Pc {
    if attempt + 1 < 3 then Try(p, dst, attempt + 1, 0) else Drop(p, QueueTail, 0, Reading)
  }

  /** The goroutine after its step. */
  function PcAfter(pc: Pc, c: Conn, act: Act): Pc
    requires Starts(pc, c, act)
  {
    match act
    case ReadPacket(p, forwarded) => Looking(p, forwarded)
    case Lookup(r) =>
      (match r
       case ToConn(dst) => Try(pc.p, dst, 0, 0)
       case ToForwarder => Forwarding(pc.p)
       case Nowhere => Drop(pc.p, if pc.forwarded then UnknownDestOnFwd else UnknownDest, 0, Reading))
    case CountForwarded => Reading
    case CheckDone => if c.done then Drop(pc.p, Gone, 0, Reading) else Try(pc.p, pc.dst, pc.attempt, 1)
    case Offer => if |Queue(c, pc.p.disco)| < PER_CLIENT_SEND_QUEUE_DEPTH then Reading else Try(pc.p, pc.dst, pc.attempt, 2)
    case MakeRoom =>
      var next := NextAttempt(pc.p, pc.dst, pc.attempt);
      if Queue(c, pc.p.disco) == [] then next else Drop(Queue(c, pc.p.disco)[0], QueueHead, 0, next)
    case CountDrop => if pc.counted < 2 then pc.(counted := pc.counted + 1) else pc.next
    case Take(disco) =>
      if pc.SendIdle? then Writing(pc.c, Queue(c, disco)[0]) else Drop(Queue(c, disco)[0], Gone, 0, pc)
    case Wrote(ok) => if ok then SendIdle(pc.c) else Drop(pc.p, WriteError, 0, Draining(pc.c))
    case StopSending => Draining(pc.c)
    case DrainDone => Exited
  }

  /** The connection after a goroutine's step on it. */
  function ConnAfter(pc: Pc, c: Conn, act: Act): Conn
    requires Starts(pc, c, act)
  {
    match act
    case Offer =>
      var q := Queue(c, pc.p.disco);
      if |q| < PER_CLIENT_SEND_QUEUE_DEPTH then WithQueue(c, pc.p.disco, q + [pc.p]) else c
    case MakeRoom =>
      var q := Queue(c, pc.p.disco);
      if q == [] then c else WithQueue(c, pc.p.disco, q[1..])
    case Take(disco) => WithQueue(c, disco, Queue(c, disco)[1..])
    case _ => c
  }

  function Bump(s: seq<int>, i: nat): seq<int> { if i < |s| then s[i := s[i] + 1] else s }

  function CountersAfter(n: Counters, pc: Pc, c: Conn, act: Act): Counters
    requires Starts(pc, c, act)
  {
    match act
    case ReadPacket(_, forwarded) =>
      if forwarded then n.(packetsForwardedIn := n.packetsForwardedIn + 1) else n.(packetsRecv := n.packetsRecv + 1)
    case CountForwarded => n.(packetsForwardedOut := n.packetsForwardedOut + 1)
    case Wrote(ok) => if ok then n.(packetsSent := n.packetsSent + 1) else n
    case CountDrop =>
      if pc.counted == 0 then n.(packetsDropped := n.packetsDropped + 1)
      else if pc.counted == 1 then n.(byReason := Bump(n.byReason, ReasonIndex(pc.reason)))
      else if pc.d.disco then n.(droppedDisco := n.droppedDisco + 1)
      else n.(droppedOther := n.droppedOther + 1)
    case _ => n
  }

  function LedgerAfter(l: Ledger, pc: Pc, c: Conn, act: Act): Ledger
    requires Starts(pc, c, act)
  {
    match act
    case ReadPacket(p, forwarded) =>
      if forwarded then l.(forwardedIn := l.forwardedIn + [p]) else l.(received := l.received + [p])
    case CountForwarded => l.(forwarded := l.forwarded + [pc.p])
    case Wrote(ok) => if ok then l.(sent := l.sent + [pc.p]) else l
    case CountDrop => if pc.counted == 0 then l.(dropped := l.dropped + [pc.d], reasons := l.reasons + [pc.reason]) else l
    case _ => l
  }

  function Offered(h: Hist, disco: bool): seq<Pkt> { if disco then h.discoOffered else h.offered }

  function Taken(h: Hist, disco: bool): seq<Pkt> { if disco then h.discoTaken else h.taken }

  function Offering(h: Hist, p: Pkt): Hist {
    if p.disco then h.(discoOffered := h.discoOffered + [p]) else h.(offered := h.offered + [p])
  }

  function Taking(h: Hist, disco: bool, p: Pkt): Hist {
    if disco then h.(discoTaken := h.discoTaken + [p]) else h.(taken := h.taken + [p])
  }

  /** The history of the connection a goroutine works on, after its step. */
  function HistAfter(h: Hist, pc: Pc, c: Conn, act: Act): Hist
    requires Starts(pc, c, act)
  {
    match act
    case Offer => if |Queue(c, pc.p.disco)| < PER_CLIENT_SEND_QUEUE_DEPTH then Offering(h, pc.p) else h
    case MakeRoom => if Queue(c, pc.p.disco) == [] then h else Taking(h, pc.p.disco, Queue(c, pc.p.disco)[0])
    case Take(disco) => Taking(h, disco, Queue(c, disco)[0])
    case Wrote(ok) => if ok then h.(written := h.written + [pc.p]) else h
    case _ => h
  }

  function HistsAfter(hist: seq<Hist>, pc: Pc, c: Conn, act: Act): seq<Hist>
    requires Starts(pc, c, act)
  {
    if act.Lookup? && act.route.ToConn? then
      if act.route.dst < |hist| then
        hist[act.route.dst := hist[act.route.dst].(lookups := hist[act.route.dst].lookups + [pc.p])]
      else hist
    else if ConnOf(pc).Some? && ConnOf(pc).value < |hist| then
      hist[ConnOf(pc).value := HistAfter(hist[ConnOf(pc).value], pc, c, act)]
    else hist
  }

  /** The connection a goroutine works on, if any. */
  function ConnOf(pc: Pc): Option<nat> {
    match pc
    case Try(_, dst, _, _) => Some(dst)
    case SendIdle(c) => Some(c)
    case Writing(c, _) => Some(c)
    case Draining(c) => Some(c)
    case _ => None
  }

  function Working(s: State, pc: Pc): Conn {
    if ConnOf(pc).Some? && ConnOf(pc).value < |s.conns| then s.conns[ConnOf(pc).value] else Conn([], [], true)
  }

  function ConnsWith(s: State, i: Option<nat>, c2: Conn): seq<Conn> {
    if i.Some? && i.value < |s.conns| then s.conns[i.value := c2] else s.conns
  }

  predicate Enabled(s: State, step: Step) {
    match step
    case NewReader | NewConn => true
    case Close(c) => c < |s.conns|
    case Go(t, act) =>
      && t < |s.threads|
      && Starts(s.threads[t], Working(s, s.threads[t]), act)
      && (act.Lookup? && act.route.ToConn? ==> act.route.dst < |s.conns|)
  }

  function Apply(s: State, step: Step): State
    requires Enabled(s, step)
  {
    match step
    case NewReader => s.(threads := s.threads + [Reading])
    case NewConn =>
      s.(conns := s.conns + [Conn([], [], false)], threads := s.threads + [SendIdle(|s.conns|)],
         hist := s.hist + [Hist([], [], [], [], [], [])])
    case Close(c) => s.(conns := s.conns[c := s.conns[c].(done := true)])
    case Go(t, act) =>
      var pc := s.threads[t];
      var c := Working(s, pc);
      State(ConnsWith(s, ConnOf(pc), ConnAfter(pc, c, act)),
            s.threads[t := PcAfter(pc, c, act)],
            CountersAfter(s.n, pc, c, act),
            LedgerAfter(s.l, pc, c, act),
            HistsAfter(s.hist, pc, c, act))
  }

  ghost predicate ValidRun(s: State, steps: seq<Step>)
    decreases steps
  {
    steps == [] || (Enabled(s, steps[0]) && ValidRun(Apply(s, steps[0]), steps[1..]))
  }

  ghost function Exec(s: State, steps: seq<Step>): State
    requires ValidRun(s, steps)
    decreases steps
  {
    if steps == [] then s else Exec(Apply(s, steps[0]), steps[1..])
  }

  // ---------------------------------------------------------------------
  // Accounting
  // ---------------------------------------------------------------------

  /** Packets a goroutine holds that no counter of outcomes has seen. */
  function InFlight(pc: Pc): int {
    match pc
    case Looking(_, _) => 1
    case Forwarding(_) => 1
    case Try(_, _, _, _) => 1
    case Writing(_, _) => 1
    case Drop(_, _, counted, next) => (if counted == 0 then 1 else 0) + InFlight(next)
    case _ => 0
  }

  /** Drops a goroutine has counted in total but not yet by reason. */
  function ReasonLag(pc: Pc): int { if pc.Drop? && pc.counted == 1 then 1 else 0 }

  /** Drops a goroutine has counted in total but not yet by type. */
  function TypeLag(pc: Pc): int { if pc.Drop? && (pc.counted == 1 || pc.counted == 2) then 1 else 0 }

  function Itself(x: int): int { x }

  ghost predicate Conserved(s: State) {
    s.n.packetsRecv + s.n.packetsForwardedIn ==
    s.n.packetsForwardedOut + s.n.packetsSent + s.n.packetsDropped + Sum(s.conns, Queued) + Sum(s.threads, InFlight)
  }

  ghost predicate DropsAddUp(s: State) {
    && s.n.packetsDropped == Sum(s.n.byReason, Itself) + Sum(s.threads, ReasonLag)
    && s.n.packetsDropped == s.n.droppedDisco + s.n.droppedOther + Sum(s.threads, TypeLag)
  }

  /** A goroutine's program point makes sense. */
  predicate PcOk(pc: Pc, conns: nat) {
    match pc
    case Try(_, dst, attempt, phase) => dst < conns && attempt < 3 && phase < 3
    case Drop(_, _, counted, next) => counted < 3 && (next.Drop? ==> next.counted == 0) && PcOk(next, conns)
    case SendIdle(c) => c < conns
    case Writing(c, _) => c < conns
    case Draining(c) => c < conns
    case _ => true
  }

  predicate ConnOk(c: Conn) {
    |c.sendQueue| <= PER_CLIENT_SEND_QUEUE_DEPTH && |c.discoSendQueue| <= PER_CLIENT_SEND_QUEUE_DEPTH
  }

  ghost predicate Inv(s: State) {
    && |s.n.byReason| == 6
    && (forall i :: 0 <= i < |s.threads| ==> PcOk(s.threads[i], |s.conns|))
    && (forall i :: 0 <= i < |s.conns| ==> ConnOk(s.conns[i]))
    && Conserved(s) && DropsAddUp(s)
  }

  /** What came in minus what went out and what is still held, as far as one counter set, connection and goroutine show. */
  function Balance(n: Counters, c: Conn, pc: Pc): int {
    n.packetsRecv + n.packetsForwardedIn - n.packetsForwardedOut - n.packetsSent - n.packetsDropped - Queued(c) - InFlight(pc)
  }

  ghost function ReasonBalance(n: Counters, pc: Pc): int {
    n.packetsDropped - Sum(n.byReason, Itself) - ReasonLag(pc)
  }

  function TypeBalance(n: Counters, pc: Pc): int { n.packetsDropped - n.droppedDisco - n.droppedOther - TypeLag(pc) }

  /** One goroutine's step balances: what leaves its hands or a queue shows in a counter or a queue. */
  lemma StepBalances(pc: Pc, c: Conn, act: Act, n: Counters, conns: nat)
    requires Starts(pc, c, act) && PcOk(pc, conns)
    requires act.Lookup? && act.route.ToConn? ==> act.route.dst < conns
    ensures PcOk(PcAfter(pc, c, act), conns)
    ensures ConnOk(c) ==> ConnOk(ConnAfter(pc, c, act))
    ensures ConnOf(pc).None? ==> ConnAfter(pc, c, act) == c
    ensures Balance(CountersAfter(n, pc, c, act), ConnAfter(pc, c, act), PcAfter(pc, c, act)) == Balance(n, c, pc)
  {
  }

  /** The three additions that count a drop balance among themselves. */
  lemma DropBalances(pc: Pc, c: Conn, act: Act, n: Counters, conns: nat)
    requires Starts(pc, c, act) && PcOk(pc, conns) && |n.byReason| == 6
    ensures var pc2, n2 := PcAfter(pc, c, act), CountersAfter(n, pc, c, act);
            && |n2.byReason| == 6
            && ReasonBalance(n2, pc2) == ReasonBalance(n, pc)
            && TypeBalance(n2, pc2) == TypeBalance(n, pc)
  {
    if act.CountDrop? && pc.counted == 1 {
      var i := ReasonIndex(pc.reason);
      SumUpdate(n.byReason, i, n.byReason[i] + 1, Itself);
    }
  }

  lemma GoKeepsInv(s: State, t: nat, act: Act)
    requires Inv(s) && Enabled(s, Go(t, act))
    ensures Inv(Apply(s, Go(t, act)))
  {
    var pc := s.threads[t];
    var c := Working(s, pc);
    StepBalances(pc, c, act, s.n, |s.conns|);
    DropBalances(pc, c, act, s.n, |s.conns|);
    SwapKeepsInv(s, t, PcAfter(pc, c, act), ConnAfter(pc, c, act), CountersAfter(s.n, pc, c, act),
                 LedgerAfter(s.l, pc, c, act), HistsAfter(s.hist, pc, c, act));
  }

  lemma SwapKeepsConserved(s: State, t: nat, pc2: Pc, c2: Conn, n2: Counters, l2: Ledger, h2: seq<Hist>)
    requires Conserved(s) && t < |s.threads| && PcOk(s.threads[t], |s.conns|)
    requires var pc := s.threads[t];
             (ConnOf(pc).None? ==> c2 == Working(s, pc)) && Balance(n2, c2, pc2) == Balance(s.n, Working(s, pc), pc)
    ensures Conserved(State(ConnsWith(s, ConnOf(s.threads[t]), c2), s.threads[t := pc2], n2, l2, h2))
  {
    var i := ConnOf(s.threads[t]);
    SumUpdate(s.threads, t, pc2, InFlight);
    if i.Some? {
      SumUpdate(s.conns, i.value, c2, Queued);
    }
  }

  /** Swapping one goroutine, its connection and the counters for others that balance keeps the accounts. */
  lemma SwapKeepsInv(s: State, t: nat, pc2: Pc, c2: Conn, n2: Counters, l2: Ledger, h2: seq<Hist>)
    requires Inv(s) && t < |s.threads|
    requires PcOk(pc2, |s.conns|) && |n2.byReason| == 6
    requires var pc := s.threads[t];
             var c := Working(s, pc);
             && (ConnOk(c) ==> ConnOk(c2)) && (ConnOf(pc).None? ==> c2 == c)
             && Balance(n2, c2, pc2) == Balance(s.n, c, pc)
             && ReasonBalance(n2, pc2) == ReasonBalance(s.n, pc)
             && TypeBalance(n2, pc2) == TypeBalance(s.n, pc)
    ensures Inv(State(ConnsWith(s, ConnOf(s.threads[t]), c2), s.threads[t := pc2], n2, l2, h2))
  {
    assert PcOk(s.threads[t], |s.conns|);
    SwapKeepsConserved(s, t, pc2, c2, n2, l2, h2);
    SumUpdate(s.threads, t, pc2, ReasonLag);
    SumUpdate(s.threads, t, pc2, TypeLag);
  }

  lemma {:induction false} PcOkGrows(pc: Pc, conns: nat)
    requires PcOk(pc, conns)
    ensures PcOk(pc, conns + 1)
    decreases pc
  {
    if pc.Drop? {
      PcOkGrows(pc.next, conns);
    }
  }

  lemma NewReaderKeepsInv(s: State)
    requires Inv(s)
    ensures Inv(Apply(s, NewReader))
  {
    SumAppend(s.threads, Reading, InFlight);
    SumAppend(s.threads, Reading, ReasonLag);
    SumAppend(s.threads, Reading, TypeLag);
  }

  lemma NewConnKeepsInv(s: State)
    requires Inv(s)
    ensures Inv(Apply(s, NewConn))
  {
    forall i | 0 <= i < |s.threads| ensures PcOk(s.threads[i], |s.conns| + 1) {
      PcOkGrows(s.threads[i], |s.conns|);
    }
    SumAppend(s.conns, Conn([], [], false), Queued);
    SumAppend(s.threads, SendIdle(|s.conns|), InFlight);
    SumAppend(s.threads, SendIdle(|s.conns|), ReasonLag);
    SumAppend(s.threads, SendIdle(|s.conns|), TypeLag);
  }

  lemma CloseKeepsInv(s: State, c: nat)
    requires Inv(s) && c < |s.conns|
    ensures Inv(Apply(s, Close(c)))
  {
    SumUpdate(s.conns, c, s.conns[c].(done := true), Queued);
  }

  lemma StepKeepsInv(s: State, step: Step)
    requires Inv(s) && Enabled(s, step)
    ensures Inv(Apply(s, step))
  {
    match step
    case NewReader => NewReaderKeepsInv(s);
    case NewConn => NewConnKeepsInv(s);
    case Close(c) => CloseKeepsInv(s, c);
    case Go(t, act) => GoKeepsInv(s, t, act);
  }

  lemma {:induction false} RunKeepsInv(s: State, steps: seq<Step>)
    requires Inv(s) && ValidRun(s, steps)
    ensures Inv(Exec(s, steps))
    decreases steps
  {
    if steps != [] {
      StepKeepsInv(s, steps[0]);
      RunKeepsInv(Apply(s, steps[0]), steps[1..]);
    }
  }

  lemma InitInv()
    ensures Inv(Init)
  {
    assert Sum([0], Itself) == 0;
    assert [0, 0, 0, 0, 0, 0][..5] == [0, 0, 0, 0, 0] && [0, 0, 0, 0, 0][..4] == [0, 0, 0, 0];
    assert [0, 0, 0, 0][..3] == [0, 0, 0] && [0, 0, 0][..2] == [0, 0] && [0, 0][..1] == [0];
    assert Sum([0, 0], Itself) == 0 && Sum([0, 0, 0], Itself) == 0 && Sum([0, 0, 0, 0], Itself) == 0;
    assert Sum([0, 0, 0, 0, 0], Itself) == 0;
  }

  lemma {:induction false} NoLag(threads: seq<Pc>, w: Pc -> int)
    requires forall i :: 0 <= i < |threads| ==> w(threads[i]) == 0
    ensures Sum(threads, w) == 0
  {
    if threads != [] {
      NoLag(threads[..|threads| - 1], w);
    }
  }

  // ---------------------------------------------------------------------
  // The packets themselves
  // ---------------------------------------------------------------------

  function Is(x: Pkt): Pkt -> int { p => if p == x then 1 else 0 }

  /** How often a packet is in a list. */
  ghost function Occurs(q: seq<Pkt>, x: Pkt): int { Sum(q, Is(x)) }

  ghost function QueuedOf(c: Conn, x: Pkt): int { Occurs(c.sendQueue, x) + Occurs(c.discoSendQueue, x) }

  /** How often a goroutine holds a packet that the ledger has not seen leave. */
  function HeldOf(pc: Pc, x: Pkt): int {
    match pc
    case Looking(p, _) => Is(x)(p)
    case Forwarding(p) => Is(x)(p)
    case Try(p, _, _, _) => Is(x)(p)
    case Writing(_, p) => Is(x)(p)
    case Drop(d, _, counted, next) => (if counted == 0 then Is(x)(d) else 0) + HeldOf(next, x)
    case _ => 0
  }

  ghost function QueuedW(x: Pkt): Conn -> int { c => QueuedOf(c, x) }

  function HeldW(x: Pkt): Pc -> int { pc => HeldOf(pc, x) }

  ghost function ArrivedOf(l: Ledger, x: Pkt): int { Occurs(l.received, x) + Occurs(l.forwardedIn, x) }

  ghost function LeftOf(l: Ledger, x: Pkt): int { Occurs(l.forwarded, x) + Occurs(l.sent, x) + Occurs(l.dropped, x) }

  /** A packet that arrived has left, is queued or is held, as often as it arrived. */
  ghost predicate KeptOf(s: State, x: Pkt) {
    ArrivedOf(s.l, x) == LeftOf(s.l, x) + Sum(s.conns, QueuedW(x)) + Sum(s.threads, HeldW(x))
  }

  /** The ledger lists what the counters count. */
  predicate Counted(n: Counters, l: Ledger) {
    && |l.received| == n.packetsRecv && |l.forwardedIn| == n.packetsForwardedIn && |l.forwarded| == n.packetsForwardedOut
    && |l.sent| == n.packetsSent && |l.dropped| == |l.reasons| == n.packetsDropped
  }

  lemma {:induction false} HeadOff(q: seq<Pkt>, x: Pkt)
    requires q != []
    ensures Occurs(q, x) == Is(x)(q[0]) + Occurs(q[1..], x)
  {
    var n := |q| - 1;
    if n > 0 {
      HeadOff(q[..n], x);
      assert q[1..][..n - 1] == q[..n][1..];
    }
  }

  lemma TailOn(q: seq<Pkt>, p: Pkt, x: Pkt)
    ensures Occurs(q + [p], x) == Occurs(q, x) + Is(x)(p)
  {
    SumAppend(q, p, Is(x));
  }

  /** A step on a queue moves one packet between the queue and the goroutine, or none. */
  lemma MoveStep(pc: Pc, c: Conn, act: Act, x: Pkt)
    requires Starts(pc, c, act) && (act.MakeRoom? || act.Take? || act.Offer?)
    ensures QueuedOf(ConnAfter(pc, c, act), x) + HeldOf(PcAfter(pc, c, act), x) == QueuedOf(c, x) + HeldOf(pc, x)
  {
    if act.MakeRoom? {
      assert HeldOf(NextAttempt(pc.p, pc.dst, pc.attempt), x) == Is(x)(pc.p);
      if Queue(c, pc.p.disco) != [] { HeadOff(Queue(c, pc.p.disco), x); }
    } else if act.Take? {
      HeadOff(Queue(c, act.disco), x);
    } else {
      TailOn(Queue(c, pc.p.disco), pc.p, x);
    }
  }

  /** What a goroutine's step takes out of its hands and the queues of its connection. */
  lemma QueueStep(pc: Pc, c: Conn, act: Act, x: Pkt)
    requires Starts(pc, c, act)
    ensures QueuedOf(ConnAfter(pc, c, act), x) + HeldOf(PcAfter(pc, c, act), x)
              + (if act.CountForwarded? || (act.Wrote? && act.ok) then Is(x)(pc.p)
                 else if act.CountDrop? && pc.counted == 0 then Is(x)(pc.d) else 0)
         == QueuedOf(c, x) + HeldOf(pc, x) + (if act.ReadPacket? then Is(x)(act.p) else 0)
  {
    if act.MakeRoom? || act.Take? || act.Offer? {
      MoveStep(pc, c, act, x);
    }
  }

  /** What a goroutine's step adds to the ledger. */
  lemma LedgerStep(pc: Pc, c: Conn, act: Act, l: Ledger, x: Pkt)
    requires Starts(pc, c, act)
    ensures var l2 := LedgerAfter(l, pc, c, act);
            && ArrivedOf(l2, x) == ArrivedOf(l, x) + (if act.ReadPacket? then Is(x)(act.p) else 0)
            && LeftOf(l2, x) == LeftOf(l, x)
                 + (if act.CountForwarded? || (act.Wrote? && act.ok) then Is(x)(pc.p)
                    else if act.CountDrop? && pc.counted == 0 then Is(x)(pc.d) else 0)
  {
    match act
    case ReadPacket(p, _) => TailOn(l.received, p, x); TailOn(l.forwardedIn, p, x);
    case CountForwarded => TailOn(l.forwarded, pc.p, x);
    case Wrote(ok) => TailOn(l.sent, pc.p, x);
    case CountDrop => TailOn(l.dropped, pc.d, x);
    case _ =>
  }

  lemma StepCounts(pc: Pc, c: Conn, act: Act, n: Counters, l: Ledger)
    requires Starts(pc, c, act) && Counted(n, l)
    ensures Counted(CountersAfter(n, pc, c, act), LedgerAfter(l, pc, c, act))
  {
  }

  lemma GoKeepsPkt(s: State, t: nat, act: Act, x: Pkt)
    requires Inv(s) && KeptOf(s, x) && Enabled(s, Go(t, act))
    ensures KeptOf(Apply(s, Go(t, act)), x)
  {
    var pc := s.threads[t];
    var c := Working(s, pc);
    assert PcOk(pc, |s.conns|);
    QueueStep(pc, c, act, x);
    LedgerStep(pc, c, act, s.l, x);
    SumUpdate(s.threads, t, PcAfter(pc, c, act), HeldW(x));
    if ConnOf(pc).Some? { SumUpdate(s.conns, ConnOf(pc).value, ConnAfter(pc, c, act), QueuedW(x)); }
  }

  lemma StepKeepsKept(s: State, step: Step, x: Pkt)
    requires Inv(s) && KeptOf(s, x) && Enabled(s, step)
    ensures KeptOf(Apply(s, step), x)
  {
    match step
    case NewReader => SumAppend(s.threads, Reading, HeldW(x));
    case NewConn =>
      SumAppend(s.conns, Conn([], [], false), QueuedW(x));
      SumAppend(s.threads, SendIdle(|s.conns|), HeldW(x));
    case Close(c) => SumUpdate(s.conns, c, s.conns[c].(done := true), QueuedW(x));
    case Go(t, act) => GoKeepsPkt(s, t, act, x);
  }

  lemma {:induction false} RunKeepsPkt(s: State, steps: seq<Step>, x: Pkt)
    requires Inv(s) && KeptOf(s, x) && ValidRun(s, steps)
    ensures KeptOf(Exec(s, steps), x)
    decreases steps
  {
    if steps != [] {
      StepKeepsInv(s, steps[0]);
      StepKeepsKept(s, steps[0], x);
      RunKeepsPkt(Apply(s, steps[0]), steps[1..], x);
    }
  }

  lemma {:induction false} RunCounts(s: State, steps: seq<Step>)
    requires Counted(s.n, s.l) && ValidRun(s, steps)
    ensures Counted(Exec(s, steps).n, Exec(s, steps).l)
    decreases steps
  {
    if steps != [] {
      if steps[0].Go? {
        var pc := s.threads[steps[0].t];
        StepCounts(pc, Working(s, pc), steps[0].act, s.n, s.l);
      }
      RunCounts(Apply(s, steps[0]), steps[1..]);
    }
  }

  lemma InitKept(x: Pkt)
    ensures KeptOf(Init, x)
  {
  }

  // ---------------------------------------------------------------------
  // Main results
  // ---------------------------------------------------------------------

  /**
   In every interleaving, each packet was forwarded out, sent and dropped, and is
   queued and in the hands of a goroutine, as often in all as it was received
   and forwarded in.
   */
  lemma PacketsAreConserved(steps: seq<Step>, x: Pkt)
    requires ValidRun(Init, steps)
    ensures KeptOf(Exec(Init, steps), x)
  {
    InitInv();
    InitKept(x);
    RunKeepsPkt(Init, steps, x);
  }

  /** In every interleaving, each counter is the number of packets in its list. */
  lemma CountersCountPackets(steps: seq<Step>)
    requires ValidRun(Init, steps)
    ensures Counted(Exec(Init, steps).n, Exec(Init, steps).l)
  {
    assert Counted(Init.n, Init.l);
    RunCounts(Init, steps);
  }

  /** In every interleaving, the counters add up with what is queued and held, and no queue exceeds its depth. */
  lemma CountersAddUp(steps: seq<Step>)
    requires ValidRun(Init, steps)
    ensures var s := Exec(Init, steps);
            && s.n.packetsRecv + s.n.packetsForwardedIn ==
               s.n.packetsForwardedOut + s.n.packetsSent + s.n.packetsDropped + Sum(s.conns, Queued) + Sum(s.threads, InFlight)
            && forall i :: 0 <= i < |s.conns| ==> |s.conns[i].sendQueue| <= 32 && |s.conns[i].discoSendQueue| <= 32
  {
    InitInv();
    RunKeepsInv(Init, steps);
    QueuesInBounds(Exec(Init, steps));
  }

  lemma QueuesInBounds(s: State)
    requires Inv(s)
    ensures forall i :: 0 <= i < |s.conns| ==> |s.conns[i].sendQueue| <= 32 && |s.conns[i].discoSendQueue| <= 32
  {
    forall i | 0 <= i < |s.conns| ensures |s.conns[i].sendQueue| <= 32 && |s.conns[i].discoSendQueue| <= 32 {
      assert ConnOk(s.conns[i]);
    }
  }

  // ---------------------------------------------------------------------
  // Where packets go
  // ---------------------------------------------------------------------

  /** Each queue holds what was put in and not yet taken out, in order, and packets of its own kind only. */
  ghost predicate QueuesOk(c: Conn, h: Hist) {
    && h.taken + c.sendQueue == h.offered && h.discoTaken + c.discoSendQueue == h.discoOffered
    && (forall p :: p in h.discoOffered ==> p.disco) && (forall p :: p in h.offered ==> !p.disco)
  }

  ghost predicate HistOk(s: State) {
    |s.hist| == |s.conns| && forall i :: 0 <= i < |s.conns| ==> QueuesOk(s.conns[i], s.hist[i])
  }

  lemma TakeMoves(taken: seq<Pkt>, q: seq<Pkt>)
    requires q != []
    ensures (taken + [q[0]]) + q[1..] == taken + q
  {
  }

  lemma StepKeepsQueues(pc: Pc, c: Conn, act: Act, h: Hist)
    requires Starts(pc, c, act) && QueuesOk(c, h)
    ensures QueuesOk(ConnAfter(pc, c, act), HistAfter(h, pc, c, act))
  {
    if act.MakeRoom? && Queue(c, pc.p.disco) != [] {
      TakeMoves(Taken(h, pc.p.disco), Queue(c, pc.p.disco));
    } else if act.Take? {
      TakeMoves(Taken(h, act.disco), Queue(c, act.disco));
    } else if act.Offer? {
      assert Taken(h, pc.p.disco) + (Queue(c, pc.p.disco) + [pc.p]) == (Taken(h, pc.p.disco) + Queue(c, pc.p.disco)) + [pc.p];
    }
  }

  lemma StepKeepsHist(s: State, step: Step)
    requires Inv(s) && HistOk(s) && Enabled(s, step)
    ensures HistOk(Apply(s, step))
  {
    if step.Go? {
      var pc := s.threads[step.t];
      assert PcOk(pc, |s.conns|);
      if ConnOf(pc).Some? {
        StepKeepsQueues(pc, s.conns[ConnOf(pc).value], step.act, s.hist[ConnOf(pc).value]);
      }
    }
  }

  /** How often a goroutine is trying to queue the packet for connection i. */
  function TriesFor(pc: Pc, i: nat, x: Pkt): int {
    match pc
    case Try(p, dst, _, _) => if dst == i && p == x then 1 else 0
    case Drop(_, _, _, next) => TriesFor(next, i, x)
    case _ => 0
  }

  /** How often a goroutine is writing the packet to connection i. */
  function WritesTo(pc: Pc, i: nat, x: Pkt): int { if pc == Writing(i, x) then 1 else 0 }

  function TryW(i: nat, x: Pkt): Pc -> int { pc => TriesFor(pc, i, x) }

  function WriteW(i: nat, x: Pkt): Pc -> int { pc => WritesTo(pc, i, x) }

  /** Packets put into the queues of connection i or about to be, less those looked up to it. */
  ghost function Aim(h: Hist, x: Pkt): int { Occurs(h.offered, x) + Occurs(h.discoOffered, x) - Occurs(h.lookups, x) }

  /** Packets written to connection i, less those taken from its queues. */
  ghost function Flow(h: Hist, x: Pkt): int { Occurs(h.written, x) - Occurs(h.taken, x) - Occurs(h.discoTaken, x) }

  ghost predicate Directed(s: State, i: nat, x: Pkt)
    requires i < |s.hist|
  {
    && Aim(s.hist[i], x) + Sum(s.threads, TryW(i, x)) <= 0
    && Flow(s.hist[i], x) + Sum(s.threads, WriteW(i, x)) <= 0
  }

  /** The history of connection i after a goroutine's step. */
  function HistAt(h: Hist, pc: Pc, c: Conn, act: Act, i: nat): Hist
    requires Starts(pc, c, act)
  {
    if act.Lookup? && act.route.ToConn? then
      if act.route.dst == i then h.(lookups := h.lookups + [pc.p]) else h
    else if ConnOf(pc) == Some(i) then HistAfter(h, pc, c, act)
    else h
  }

  lemma AimStep(pc: Pc, c: Conn, act: Act, h: Hist, i: nat, x: Pkt)
    requires Starts(pc, c, act)
    ensures Aim(HistAt(h, pc, c, act, i), x) + TriesFor(PcAfter(pc, c, act), i, x) <= Aim(h, x) + TriesFor(pc, i, x)
  {
    if act.Lookup? {
      TailOn(h.lookups, pc.p, x);
    } else if act.Offer? {
      TailOn(Offered(h, pc.p.disco), pc.p, x);
    } else if act.MakeRoom? {
      assert TriesFor(NextAttempt(pc.p, pc.dst, pc.attempt), i, x) <= TriesFor(pc, i, x);
    }
  }

  lemma FlowStep(pc: Pc, c: Conn, act: Act, h: Hist, i: nat, x: Pkt)
    requires Starts(pc, c, act) && (pc.Drop? ==> WritesTo(pc.next, i, x) == 0)
    ensures Flow(HistAt(h, pc, c, act, i), x) + WritesTo(PcAfter(pc, c, act), i, x) <= Flow(h, x) + WritesTo(pc, i, x)
  {
    if act.Wrote? {
      TailOn(h.written, pc.p, x);
    } else if act.Take? {
      TailOn(Taken(h, act.disco), Queue(c, act.disco)[0], x);
    } else if act.MakeRoom? && Queue(c, pc.p.disco) != [] {
      TailOn(Taken(h, pc.p.disco), Queue(c, pc.p.disco)[0], x);
    }
  }

  /** Nothing is being written by a goroutine that counts a drop. */
  ghost predicate DropsOnly(threads: seq<Pc>) {
    forall t :: 0 <= t < |threads| && threads[t].Drop? ==> NoWrite(threads[t].next)
  }

  predicate NoWrite(pc: Pc) { !pc.Writing? && (pc.Drop? ==> NoWrite(pc.next)) }

  lemma StepKeepsDropsOnly(s: State, step: Step)
    requires DropsOnly(s.threads) && Enabled(s, step)
    ensures DropsOnly(Apply(s, step).threads)
  {
    if step.Go? {
      var pc := s.threads[step.t];
      if step.act.MakeRoom? {
        assert NoWrite(NextAttempt(pc.p, pc.dst, pc.attempt));
      }
    }
  }

  lemma HistAtIs(s: State, t: nat, act: Act, i: nat)
    requires |s.hist| == |s.conns| && Enabled(s, Go(t, act)) && i < |s.hist|
    ensures |Apply(s, Go(t, act)).hist| == |s.hist|
    ensures Apply(s, Go(t, act)).hist[i] == HistAt(s.hist[i], s.threads[t], Working(s, s.threads[t]), act, i)
  {
  }

  lemma GoKeepsAim(threads: seq<Pc>, t: nat, c: Conn, act: Act, h: Hist, i: nat, x: Pkt)
    requires t < |threads| && Starts(threads[t], c, act)
    requires Aim(h, x) + Sum(threads, TryW(i, x)) <= 0
    ensures Aim(HistAt(h, threads[t], c, act, i), x) + Sum(threads[t := PcAfter(threads[t], c, act)], TryW(i, x)) <= 0
  {
    AimStep(threads[t], c, act, h, i, x);
    SumUpdate(threads, t, PcAfter(threads[t], c, act), TryW(i, x));
  }

  lemma GoKeepsFlow(threads: seq<Pc>, t: nat, c: Conn, act: Act, h: Hist, i: nat, x: Pkt)
    requires t < |threads| && Starts(threads[t], c, act) && DropsOnly(threads)
    requires Flow(h, x) + Sum(threads, WriteW(i, x)) <= 0
    ensures Flow(HistAt(h, threads[t], c, act, i), x) + Sum(threads[t := PcAfter(threads[t], c, act)], WriteW(i, x)) <= 0
  {
    FlowStep(threads[t], c, act, h, i, x);
    SumUpdate(threads, t, PcAfter(threads[t], c, act), WriteW(i, x));
  }

  lemma GoKeepsDirected(s: State, t: nat, act: Act, i: nat, x: Pkt)
    requires HistOk(s) && DropsOnly(s.threads) && Enabled(s, Go(t, act)) && i < |s.hist| && Directed(s, i, x)
    ensures i < |Apply(s, Go(t, act)).hist| && Directed(Apply(s, Go(t, act)), i, x)
  {
    var c := Working(s, s.threads[t]);
    HistAtIs(s, t, act, i);
    GoKeepsAim(s.threads, t, c, act, s.hist[i], i, x);
    GoKeepsFlow(s.threads, t, c, act, s.hist[i], i, x);
  }

  lemma StepKeepsDirected(s: State, step: Step, i: nat, x: Pkt)
    requires Inv(s) && HistOk(s) && DropsOnly(s.threads) && Enabled(s, step) && i < |s.hist| && Directed(s, i, x)
    ensures i < |Apply(s, step).hist| && Directed(Apply(s, step), i, x)
  {
    match step
    case NewReader =>
      SumAppend(s.threads, Reading, TryW(i, x));
      SumAppend(s.threads, Reading, WriteW(i, x));
    case NewConn =>
      SumAppend(s.threads, SendIdle(|s.conns|), TryW(i, x));
      SumAppend(s.threads, SendIdle(|s.conns|), WriteW(i, x));
    case Close(_) =>
    case Go(t, act) => GoKeepsDirected(s, t, act, i, x);
  }

  /** A connection that is not there yet has no goroutine working on it. */
  lemma {:induction false} NoneYet(threads: seq<Pc>, conns: nat, x: Pkt)
    requires forall t :: 0 <= t < |threads| ==> PcOk(threads[t], conns)
    ensures Sum(threads, TryW(conns, x)) == 0 && Sum(threads, WriteW(conns, x)) == 0
  {
    if threads != [] {
      var n := |threads| - 1;
      NoneYet(threads[..n], conns, x);
      NoTries(threads[n], conns, x);
    }
  }

  lemma {:induction false} NoTries(pc: Pc, conns: nat, x: Pkt)
    requires PcOk(pc, conns)
    ensures TriesFor(pc, conns, x) == 0
    decreases pc
  {
    if pc.Drop? { NoTries(pc.next, conns, x); }
  }

  ghost predicate AllDirected(s: State, x: Pkt) { forall i :: 0 <= i < |s.hist| ==> Directed(s, i, x) }

  lemma StepKeepsAllDirected(s: State, step: Step, x: Pkt)
    requires Inv(s) && HistOk(s) && DropsOnly(s.threads) && Enabled(s, step) && AllDirected(s, x)
    ensures AllDirected(Apply(s, step), x)
  {
    var t := Apply(s, step);
    forall i | 0 <= i < |t.hist| ensures Directed(t, i, x) {
      if i < |s.hist| {
        StepKeepsDirected(s, step, i, x);
      } else {
        NoneYet(s.threads, |s.conns|, x);
        SumAppend(s.threads, SendIdle(|s.conns|), TryW(i, x));
        SumAppend(s.threads, SendIdle(|s.conns|), WriteW(i, x));
      }
    }
  }

  lemma {:induction false} RunKeepsDirected(s: State, steps: seq<Step>, x: Pkt)
    requires Inv(s) && HistOk(s) && DropsOnly(s.threads) && AllDirected(s, x) && ValidRun(s, steps)
    ensures var t := Exec(s, steps); HistOk(t) && AllDirected(t, x)
    decreases steps
  {
    if steps != [] {
      StepKeepsInv(s, steps[0]);
      StepKeepsHist(s, steps[0]);
      StepKeepsDropsOnly(s, steps[0]);
      StepKeepsAllDirected(s, steps[0], x);
      RunKeepsDirected(Apply(s, steps[0]), steps[1..], x);
    }
  }

  /**
   In every interleaving, for each connection: what was taken from a queue and
   then what is left in it is what was put into it, in order, packets of its own
   kind only; each packet was put there, or is about to be, at most as often as
   it was looked up to this connection; and its sender wrote it, or is about to,
   at most as often as it was taken from the queues of this connection.
   */
  lemma PacketsGoWhereLookedUp(steps: seq<Step>, i: nat, x: Pkt)
    requires ValidRun(Init, steps) && i < |Exec(Init, steps).conns|
    ensures var s := Exec(Init, steps);
            && |s.hist| == |s.conns| && QueuesOk(s.conns[i], s.hist[i])
            && var h := s.hist[i];
            && Occurs(h.offered, x) + Occurs(h.discoOffered, x) + Sum(s.threads, TryW(i, x)) <= Occurs(h.lookups, x)
            && Occurs(h.written, x) + Sum(s.threads, WriteW(i, x)) <= Occurs(h.taken, x) + Occurs(h.discoTaken, x)
  {
    InitInv();
    RunKeepsDirected(Init, steps, x);
    assert Directed(Exec(Init, steps), i, x);
  }

  /** How often a goroutine holds a packet of a client of this relay that it may hand to another relay. */
  function MayForward(x: Pkt): Pc -> int {
    (pc: Pc) => if pc == Looking(x, false) || pc == Forwarding(x) then 1 else 0
  }

  ghost predicate HopsOk(s: State, x: Pkt) {
    Occurs(s.l.forwarded, x) + Sum(s.threads, MayForward(x)) <= Occurs(s.l.received, x)
  }

  lemma HopStep(pc: Pc, c: Conn, act: Act, l: Ledger, x: Pkt)
    requires Starts(pc, c, act) && (pc.Drop? ==> MayForward(x)(pc.next) == 0)
    ensures var l2 := LedgerAfter(l, pc, c, act);
            Occurs(l2.forwarded, x) + MayForward(x)(PcAfter(pc, c, act)) - Occurs(l2.received, x)
            <= Occurs(l.forwarded, x) + MayForward(x)(pc) - Occurs(l.received, x)
  {
    if act.ReadPacket? {
      TailOn(l.received, act.p, x);
    } else if act.CountForwarded? {
      TailOn(l.forwarded, pc.p, x);
    }
  }

  /** A goroutine that counts a drop then goes on reading, trying or draining. */
  ghost predicate DropsGoOn(threads: seq<Pc>) {
    forall t :: 0 <= t < |threads| && threads[t].Drop? ==> NoHop(threads[t].next)
  }

  predicate NoHop(pc: Pc) { !pc.Looking? && !pc.Forwarding? && (pc.Drop? ==> NoHop(pc.next)) }

  lemma StepKeepsDropsGoOn(s: State, step: Step)
    requires DropsGoOn(s.threads) && Enabled(s, step)
    ensures DropsGoOn(Apply(s, step).threads)
  {
    if step.Go? {
      var pc := s.threads[step.t];
      if step.act.MakeRoom? {
        assert NoHop(NextAttempt(pc.p, pc.dst, pc.attempt));
      }
    }
  }

  lemma StepKeepsHops(s: State, step: Step, x: Pkt)
    requires HopsOk(s, x) && DropsGoOn(s.threads) && Enabled(s, step)
    ensures HopsOk(Apply(s, step), x)
  {
    match step
    case NewReader => SumAppend(s.threads, Reading, MayForward(x));
    case NewConn => SumAppend(s.threads, SendIdle(|s.conns|), MayForward(x));
    case Close(_) =>
    case Go(t, act) =>
      var pc := s.threads[t];
      HopStep(pc, Working(s, pc), act, s.l, x);
      SumUpdate(s.threads, t, PcAfter(pc, Working(s, pc), act), MayForward(x));
  }

  lemma {:induction false} RunKeepsHops(s: State, steps: seq<Step>, x: Pkt)
    requires HopsOk(s, x) && DropsGoOn(s.threads) && ValidRun(s, steps)
    ensures HopsOk(Exec(s, steps), x)
    decreases steps
  {
    if steps != [] {
      StepKeepsHops(s, steps[0], x);
      StepKeepsDropsGoOn(s, steps[0]);
      RunKeepsHops(Apply(s, steps[0]), steps[1..], x);
    }
  }

  /**
   In every interleaving a packet is handed to other relays at most as often as
   it was received from clients of this one: one that was forwarded in is not
   forwarded again, so packets do not circle in the mesh.
   */
  lemma ForwardedAtMostOnce(steps: seq<Step>, x: Pkt)
    requires ValidRun(Init, steps)
    ensures HopsOk(Exec(Init, steps), x)
  {
    InitHops(x);
    RunKeepsHops(Init, steps, x);
  }

  lemma InitHops(x: Pkt)
    ensures HopsOk(Init, x)
  {
  }

  /**
   Why a goroutine drops a packet: its destination is unknown, on a forwarded
   packet or another; its connection is closed, or its sender drains the queue;
   it is the oldest of a queue found full; three attempts at a full queue failed;
   or writing it failed.
   */
  lemma ReasonsAreTrue(pc: Pc, c: Conn, act: Act, conns: nat)
    requires Starts(pc, c, act) && PcOk(pc, conns) && !act.CountDrop?
    ensures var unknown := act.Lookup? && act.route.Nowhere?;
            var gone := (act.CheckDone? && c.done) || (act.Take? && pc.Draining?);
            var head := act.MakeRoom? && Queue(c, pc.p.disco) != [];
            var tail := act.MakeRoom? && Queue(c, pc.p.disco) == [] && pc.attempt == 2;
            var failed := act.Wrote? && !act.ok;
            var after := PcAfter(pc, c, act);
            && (after.Drop? <==> unknown || gone || head || tail || failed)
            && (after.Drop? ==>
                  && after.counted == 0
                  && after.reason == (if unknown then (if pc.forwarded then UnknownDestOnFwd else UnknownDest)
                                      else if gone then Gone else if head then QueueHead
                                      else if tail then QueueTail else WriteError)
                  && (head ==> after.next == if pc.attempt < 2 then Try(pc.p, pc.dst, pc.attempt + 1, 0) else Drop(pc.p, QueueTail, 0, Reading))
                  && (failed || (gone && pc.Draining?) ==> after.next == Draining(pc.c))
                  && (unknown || tail || (gone && pc.Try?) ==> after.next == Reading))
  {
  }

  // Queues that no one drains any more

  /** The connection that a goroutine sends for, if it is a sender. */
  function SenderFor(pc: Pc): Option<nat> {
    match pc
    case SendIdle(c) => Some(c)
    case Writing(c, _) => Some(c)
    case Draining(c) => Some(c)
    case Drop(_, _, _, next) => SenderFor(next)
    case _ => None
  }

  ghost predicate HasSender(threads: seq<Pc>, c: nat) {
    exists i :: 0 <= i < |threads| && SenderFor(threads[i]) == Some(c)
  }

  /** A packet is queued for a connection whose sender has drained the queues and gone. */
  ghost predicate LateOffer(s: State, step: Step) {
    && Enabled(s, step) && step.Go? && step.act.Offer?
    && var pc := s.threads[step.t];
       |Queue(Working(s, pc), pc.p.disco)| < PER_CLIENT_SEND_QUEUE_DEPTH && !HasSender(s.threads, pc.dst)
  }

  /** Every packet queued has a sender to send it or to count it as dropped. */
  ghost predicate Drained(s: State) {
    forall c :: 0 <= c < |s.conns| ==> HasSender(s.threads, c) || Queued(s.conns[c]) == 0
  }

  lemma SenderStays(pc: Pc, c: Conn, act: Act)
    requires Starts(pc, c, act) && !act.DrainDone?
    ensures SenderFor(PcAfter(pc, c, act)) == SenderFor(pc)
  {
    if act.MakeRoom? {
      assert SenderFor(NextAttempt(pc.p, pc.dst, pc.attempt)).None?;
    }
  }

  /** Swapping a goroutine for one that sends for the same connection, or no longer for c. */
  lemma SendersAfter(threads: seq<Pc>, t: nat, pc2: Pc, c: nat)
    requires t < |threads| && (SenderFor(pc2) == SenderFor(threads[t]) || (SenderFor(pc2).None? && SenderFor(threads[t]) != Some(c)))
    ensures HasSender(threads[t := pc2], c) <==> HasSender(threads, c)
  {
    if HasSender(threads, c) {
      var i :| 0 <= i < |threads| && SenderFor(threads[i]) == Some(c);
      assert SenderFor(threads[t := pc2][i]) == Some(c);
    }
    if HasSender(threads[t := pc2], c) {
      var i :| 0 <= i < |threads| && SenderFor(threads[t := pc2][i]) == Some(c);
      assert SenderFor(threads[i]) == Some(c);
    }
  }

  lemma GoKeepsDrained(s: State, t: nat, act: Act)
    requires Inv(s) && Drained(s) && Enabled(s, Go(t, act))
    ensures Drained(Apply(s, Go(t, act))) <==> !LateOffer(s, Go(t, act))
  {
    var pc := s.threads[t];
    var work := Working(s, pc);
    var u := Apply(s, Go(t, act));
    assert PcOk(pc, |s.conns|);
    if !act.DrainDone? { SenderStays(pc, work, act); }
    forall c | 0 <= c < |u.conns| && !(LateOffer(s, Go(t, act)) && c == pc.dst)
      ensures HasSender(u.threads, c) || Queued(u.conns[c]) == 0
    {
      if !(act.DrainDone? && c == pc.c) {
        SendersAfter(s.threads, t, PcAfter(pc, work, act), c);
      }
    }
    if LateOffer(s, Go(t, act)) {
      SendersAfter(s.threads, t, PcAfter(pc, work, act), pc.dst);
      assert Queued(u.conns[pc.dst]) > 0;
    }
  }

  lemma MoreSenders(threads: seq<Pc>, pc: Pc, c: nat)
    ensures HasSender(threads + [pc], c) <==> HasSender(threads, c) || SenderFor(pc) == Some(c)
  {
    if HasSender(threads, c) {
      var i :| 0 <= i < |threads| && SenderFor(threads[i]) == Some(c);
      assert SenderFor((threads + [pc])[i]) == Some(c);
    }
    assert (threads + [pc])[|threads|] == pc;
  }

  lemma StepKeepsDrained(s: State, step: Step)
    requires Inv(s) && Drained(s) && Enabled(s, step)
    ensures Drained(Apply(s, step)) <==> !LateOffer(s, step)
  {
    match step
    case NewReader => forall c: nat { MoreSenders(s.threads, Reading, c); }
    case NewConn => forall c: nat { MoreSenders(s.threads, SendIdle(|s.conns|), c); }
    case Close(_) =>
    case Go(t, act) => GoKeepsDrained(s, t, act);
  }

  ghost predicate NoLateOffer(s: State, steps: seq<Step>)
    requires ValidRun(s, steps)
    decreases steps
  {
    steps != [] ==> !LateOffer(s, steps[0]) && NoLateOffer(Apply(s, steps[0]), steps[1..])
  }

  ghost predicate AlwaysDrained(s: State, steps: seq<Step>)
    requires ValidRun(s, steps)
    decreases steps
  {
    Drained(s) && (steps != [] ==> AlwaysDrained(Apply(s, steps[0]), steps[1..]))
  }

  /**
   All along a run every packet queued has a sender that will send it or count
   it as dropped, if and only if no packet is queued after its connection's
   sender has drained the queues and gone.
   */
  lemma {:induction false} DrainedIffNoLateOffer(s: State, steps: seq<Step>)
    requires Inv(s) && Drained(s) && ValidRun(s, steps)
    ensures AlwaysDrained(s, steps) <==> NoLateOffer(s, steps)
    decreases steps
  {
    if steps != [] {
      var t := Apply(s, steps[0]);
      StepKeepsDrained(s, steps[0]);
      StepKeepsInv(s, steps[0]);
      if Drained(t) {
        DrainedIffNoLateOffer(t, steps[1..]);
      }
    }
  }

  lemma {:induction false} EndsDrained(s: State, steps: seq<Step>)
    requires ValidRun(s, steps) && AlwaysDrained(s, steps)
    ensures Drained(Exec(s, steps))
    decreases steps
  {
    if steps != [] {
      EndsDrained(Apply(s, steps[0]), steps[1..]);
    }
  }

  /** Every reader is between packets and every sender has gone. */
  ghost predicate AtRest(s: State) {
    forall i :: 0 <= i < |s.threads| ==> s.threads[i].Reading? || s.threads[i].Exited?
  }

  lemma {:induction false} QueuedAddsUp(conns: seq<Conn>)
    ensures Sum(conns, Queued) >= 0
    ensures Sum(conns, Queued) == 0 <==> forall i :: 0 <= i < |conns| ==> Queued(conns[i]) == 0
  {
    if conns != [] {
      var n := |conns| - 1;
      QueuedAddsUp(conns[..n]);
      assert forall i :: 0 <= i < n ==> conns[i] == conns[..n][i];
    }
  }

  /**
   When a run has come to rest, the counters of what went out add up to those of
   what came in exactly if no packet is left in a queue, which is so if none was
   queued after its connection's sender had gone.
   */
  lemma AtRestAllIsCounted(steps: seq<Step>)
    requires ValidRun(Init, steps) && AtRest(Exec(Init, steps))
    ensures var s := Exec(Init, steps);
            var allCounted := s.n.packetsRecv + s.n.packetsForwardedIn ==
                              s.n.packetsForwardedOut + s.n.packetsSent + s.n.packetsDropped;
            && (allCounted <==> forall i :: 0 <= i < |s.conns| ==> Queued(s.conns[i]) == 0)
            && (NoLateOffer(Init, steps) ==> allCounted)
  {
    var s := Exec(Init, steps);
    InitInv();
    RunKeepsInv(Init, steps);
    NoLag(s.threads, InFlight);
    QueuedAddsUp(s.conns);
    DrainedIffNoLateOffer(Init, steps);
    if NoLateOffer(Init, steps) {
      EndsDrained(Init, steps);
    }
  }

  lemma {:induction false} RunOneMore(s: State, steps: seq<Step>, step: Step)
    requires ValidRun(s, steps) && Enabled(Exec(s, steps), step)
    ensures ValidRun(s, steps + [step]) && Exec(s, steps + [step]) == Apply(Exec(s, steps), step)
    decreases steps
  {
    var all := steps + [step];
    if steps == [] {
      var t := Apply(s, step);
      assert all[0] == step && all[1..] == [];
      assert ValidRun(t, []) && Exec(t, []) == t;
    } else {
      assert all[0] == steps[0] && all[1..] == steps[1..] + [step];
      RunOneMore(Apply(s, steps[0]), steps[1..], step);
    }
  }

  /** One reader, and one connection with a sender; the reader has a packet for it and has seen that it is open. */
  ghost predicate AboutToOffer(s: State, p: Pkt) {
    && s.conns == [Conn([], [], false)] && s.threads == [SendIdle(0), Try(p, 0, 0, 1)]
    && s.n == Init.n.(packetsRecv := 1)
  }

  lemma ReaderGetsReady(p: Pkt) returns (steps: seq<Step>)
    ensures ValidRun(Init, steps) && AboutToOffer(Exec(Init, steps), p)
  {
    assert ValidRun(Init, []) && Exec(Init, []) == Init;
    RunOneMore(Init, [], NewConn);
    steps := [] + [NewConn];
    RunOneMore(Init, steps, NewReader);
    steps := steps + [NewReader];
    assert Exec(Init, steps).threads == [SendIdle(0), Reading];
    RunOneMore(Init, steps, Go(1, ReadPacket(p, false)));
    steps := steps + [Go(1, ReadPacket(p, false))];
    RunOneMore(Init, steps, Go(1, Lookup(ToConn(0))));
    steps := steps + [Go(1, Lookup(ToConn(0)))];
    RunOneMore(Init, steps, Go(1, CheckDone));
    steps := steps + [Go(1, CheckDone)];
  }

  /** There is a run in which a packet is queued after its connection was closed and drained, and no counter sees it leave. */
  lemma PacketIsStranded(p: Pkt) returns (steps: seq<Step>)
    ensures ValidRun(Init, steps) && AtRest(Exec(Init, steps)) && |Exec(Init, steps).conns| == 1
    ensures var s := Exec(Init, steps);
            Queue(s.conns[0], p.disco) == [p] && s.n == Init.n.(packetsRecv := 1)
  {
    steps := ReaderGetsReady(p);
    RunOneMore(Init, steps, Close(0));
    steps := steps + [Close(0)];
    RunOneMore(Init, steps, Go(0, StopSending));
    steps := steps + [Go(0, StopSending)];
    RunOneMore(Init, steps, Go(0, DrainDone));
    steps := steps + [Go(0, DrainDone)];
    RunOneMore(Init, steps, Go(1, Offer));
    steps := steps + [Go(1, Offer)];
  }

  // Which drops are counted where

  function IsReason(r: DropReason): DropReason -> int { q => if q == r then 1 else 0 }

  function IsDisco(p: Pkt): int { if p.disco then 1 else 0 }

  function IsOther(p: Pkt): int { if p.disco then 0 else 1 }

  /** The goroutine has counted a drop for this reason in total but not yet by reason. */
  function LagsBy(r: DropReason): Pc -> int { (pc: Pc) => if pc.Drop? && pc.counted == 1 && pc.reason == r then 1 else 0 }

  /** The goroutine has counted a drop of a disco packet, or of another, but not yet by kind. */
  function LagsDisco(pc: Pc): int { if TypeLag(pc) == 1 && pc.d.disco then 1 else 0 }

  function LagsOther(pc: Pc): int { if TypeLag(pc) == 1 && !pc.d.disco then 1 else 0 }

  /** Each counter of drops counts the drops of its reason or kind, but for those still to be counted there. */
  ghost predicate CountedBy(s: State, r: DropReason) {
    && |s.n.byReason| == 6
    && s.n.byReason[ReasonIndex(r)] + Sum(s.threads, LagsBy(r)) == Sum(s.l.reasons, IsReason(r))
    && s.n.droppedDisco + Sum(s.threads, LagsDisco) == Sum(s.l.dropped, IsDisco)
    && s.n.droppedOther + Sum(s.threads, LagsOther) == Sum(s.l.dropped, IsOther)
  }

  lemma StepCountsReason(pc: Pc, c: Conn, act: Act, n: Counters, l: Ledger, r: DropReason, conns: nat)
    requires Starts(pc, c, act) && PcOk(pc, conns) && |n.byReason| == 6
    ensures var n2, l2 := CountersAfter(n, pc, c, act), LedgerAfter(l, pc, c, act);
            && |n2.byReason| == 6
            && n2.byReason[ReasonIndex(r)] + LagsBy(r)(PcAfter(pc, c, act)) - Sum(l2.reasons, IsReason(r))
               == n.byReason[ReasonIndex(r)] + LagsBy(r)(pc) - Sum(l.reasons, IsReason(r))
  {
    if act.CountDrop? && pc.counted == 0 {
      SumAppend(l.reasons, pc.reason, IsReason(r));
    }
  }

  lemma StepCountsKind(pc: Pc, c: Conn, act: Act, n: Counters, l: Ledger, conns: nat)
    requires Starts(pc, c, act) && PcOk(pc, conns)
    ensures var n2, l2, pc2 := CountersAfter(n, pc, c, act), LedgerAfter(l, pc, c, act), PcAfter(pc, c, act);
            && n2.droppedDisco + LagsDisco(pc2) - Sum(l2.dropped, IsDisco) == n.droppedDisco + LagsDisco(pc) - Sum(l.dropped, IsDisco)
            && n2.droppedOther + LagsOther(pc2) - Sum(l2.dropped, IsOther) == n.droppedOther + LagsOther(pc) - Sum(l.dropped, IsOther)
  {
    if act.CountDrop? && pc.counted == 0 {
      SumAppend(l.dropped, pc.d, IsDisco);
      SumAppend(l.dropped, pc.d, IsOther);
    }
  }

  lemma GoCounts(s: State, t: nat, act: Act, r: DropReason)
    requires Inv(s) && CountedBy(s, r) && Enabled(s, Go(t, act))
    ensures CountedBy(Apply(s, Go(t, act)), r)
  {
    var pc := s.threads[t];
    var c := Working(s, pc);
    assert PcOk(pc, |s.conns|);
    StepCountsReason(pc, c, act, s.n, s.l, r, |s.conns|);
    StepCountsKind(pc, c, act, s.n, s.l, |s.conns|);
    SumUpdate(s.threads, t, PcAfter(pc, c, act), LagsBy(r));
    SumUpdate(s.threads, t, PcAfter(pc, c, act), LagsDisco);
    SumUpdate(s.threads, t, PcAfter(pc, c, act), LagsOther);
  }

  lemma NewCounts(s: State, pc: Pc, r: DropReason)
    requires !pc.Drop?
    ensures Sum(s.threads + [pc], LagsBy(r)) == Sum(s.threads, LagsBy(r))
    ensures Sum(s.threads + [pc], LagsDisco) == Sum(s.threads, LagsDisco)
    ensures Sum(s.threads + [pc], LagsOther) == Sum(s.threads, LagsOther)
  {
    SumAppend(s.threads, pc, LagsBy(r));
    SumAppend(s.threads, pc, LagsDisco);
    SumAppend(s.threads, pc, LagsOther);
  }

  lemma {:induction false} RunCountsBy(s: State, steps: seq<Step>, r: DropReason)
    requires Inv(s) && CountedBy(s, r) && ValidRun(s, steps)
    ensures CountedBy(Exec(s, steps), r)
    decreases steps
  {
    if steps != [] {
      StepKeepsInv(s, steps[0]);
      match steps[0] {
        case NewReader => NewCounts(s, Reading, r);
        case NewConn => NewCounts(s, SendIdle(|s.conns|), r);
        case Close(_) =>
        case Go(t, act) => GoCounts(s, t, act, r);
      }
      RunCountsBy(Apply(s, steps[0]), steps[1..], r);
    }
  }

  /**
   In every interleaving, the counter of each reason, and of each kind, is the
   number of drops for that reason, or of that kind, less those that some
   goroutine has still to count there.
   */
  lemma DropsAreCountedByReason(steps: seq<Step>, r: DropReason)
    requires ValidRun(Init, steps)
    ensures CountedBy(Exec(Init, steps), r)
  {
    InitInv();
    InitCountedBy(r);
    RunCountsBy(Init, steps, r);
  }

  lemma InitCountedBy(r: DropReason)
    ensures CountedBy(Init, r)
  {
  }

  /** No goroutine is between the additions that count a drop. */
  ghost predicate Quiet(threads: seq<Pc>) {
    forall i :: 0 <= i < |threads| ==> threads[i].Drop? ==> threads[i].counted == 0
  }

  /**
   In every interleaving, the drops counted in total are those counted by
   reason, and those counted by type, plus the drops that some goroutine has
   still to count there. So the three agree whenever no drop is half counted.
   */
  lemma DropCountersAgree(steps: seq<Step>)
    requires ValidRun(Init, steps)
    ensures var s := Exec(Init, steps);
            && s.n.packetsDropped == Sum(s.n.byReason, Itself) + Sum(s.threads, ReasonLag)
            && s.n.packetsDropped == s.n.droppedDisco + s.n.droppedOther + Sum(s.threads, TypeLag)
            && (Quiet(s.threads) ==> s.n.packetsDropped == Sum(s.n.byReason, Itself) == s.n.droppedDisco + s.n.droppedOther)
  {
    InitInv();
    RunKeepsInv(Init, steps);
    var s := Exec(Init, steps);
    if Quiet(s.threads) {
      NoLag(s.threads, ReasonLag);
      NoLag(s.threads, TypeLag);
    }
  }
}
