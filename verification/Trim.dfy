/**
 Lazy WireGuard configuration: peers idle for five minutes are removed from the
 device and come back on the first packet to or from them.

 Times are nanoseconds of the monotonic clock. A pointer to a send time is an
 index into `cells`, so the send-time table and the packet hooks share a time
 exactly when they hold the same index. The deep hash that skips a
 reconfiguration is taken to be the value it hashes.
 */
module Trim {
  import opened Common

  type PublicKey = nat
  type DiscoKey = nat  // zero is the unset key
  type IP = nat
  type Time = int

  const SECOND: int := 1_000_000_000
  const LAZY_PEER_IDLE_THRESHOLD: int := 300 * SECOND
  const PACKET_SEND_TIME_UPDATE_FREQUENCY: int := 10 * SECOND
  const PACKET_SEND_RECHECK_THRESHOLD: int := 60 * SECOND
  const FIRST_PACKET_ELAPSED: int := 762642 * 3600 * SECOND
  /** The monotonic clock starts this far from zero. */
  const CLOCK_BASE: int := 0x80_0000_0000_0000

  datatype Prefix = Prefix(ip: IP, isSingleIP: bool)

  /** `rest` stands for the peer settings that trimming does not look at. */
  datatype Peer = Peer(pub: PublicKey, disco: DiscoKey, allowedIPs: seq<Prefix>, rest: nat)

  datatype Config = Config(peers: seq<Peer>, rest: nat)

  /** What the trimmed-config hash covers. */
  datatype TrimSig = TrimSig(min: Config, trimmed: set<DiscoKey>, trackDisco: seq<DiscoKey>, trackIPs: seq<IP>)

  /** A packet hook that stored a send time and has still to take the lock and recheck. */
  datatype Pending = Pending(ip: IP, cell: nat, at: Time)

  /** The value of the engine's fields; `deviceLog` lists every config given to the device, `device` is the last. */
  datatype State = State(
    full: Config,
    fullSig: Option<Config>,
    sig: Option<TrimSig>,
    device: Config,
    deviceLog: seq<Config>,
    recvAt: map<DiscoKey, Time>,
    trimmed: set<DiscoKey>,
    sentAt: map<IP, nat>,
    hooks: map<IP, nat>,
    cells: seq<Time>)

  const InitState := State(Config([], 0), None, None, Config([], 0), [], map[], {}, map[], map[], [])

  // ---------------------------------------------------------------------
  // Which peers stay
  // ---------------------------------------------------------------------

  /** `force` is the environment or control-server demand for the full config. */
  predicate IsTrimmable(p: Peer, force: bool) {
    !force && p.disco != 0 && forall i :: 0 <= i < |p.allowedIPs| ==> p.allowedIPs[i].isSingleIP
  }

  function RecvTime(s: State, dk: DiscoKey): Time { if dk in s.recvAt then s.recvAt[dk] else 0 }

  predicate SentSince(s: State, ip: IP, t: Time) {
    ip in s.sentAt && s.sentAt[ip] < |s.cells| && s.cells[s.sentAt[ip]] > t
  }

  predicate ActiveSince(s: State, dk: DiscoKey, ip: IP, t: Time) {
    RecvTime(s, dk) > t || SentSince(s, ip, t)
  }

  predicate RecentlyActive(s: State, p: Peer, cutoff: Time) {
    exists i :: 0 <= i < |p.allowedIPs| && ActiveSince(s, p.disco, p.allowedIPs[i].ip, cutoff)
  }

  predicate Keep(s: State, p: Peer, force: bool, cutoff: Time) {
    IsTrimmable(p, force) ==> RecentlyActive(s, p, cutoff)
  }

  function KeptPeers(s: State, ps: seq<Peer>, force: bool, cutoff: Time): (r: seq<Peer>) {
    if ps == [] then []
    else
      var last := ps[|ps| - 1];
      KeptPeers(s, ps[..|ps| - 1], force, cutoff) + if Keep(s, last, force, cutoff) then [last] else []
  }

  lemma {:induction false} KeptPeersMembers(s: State, ps: seq<Peer>, force: bool, cutoff: Time)
    ensures forall p :: p in KeptPeers(s, ps, force, cutoff) <==> p in ps && Keep(s, p, force, cutoff)
  {
    if ps != [] {
      KeptPeersMembers(s, ps[..|ps| - 1], force, cutoff);
      assert ps == ps[..|ps| - 1] + [ps[|ps| - 1]];
    }
  }

  function TrimmedDisco(s: State, ps: seq<Peer>, force: bool, cutoff: Time): set<DiscoKey> {
    set i | 0 <= i < |ps| && !Keep(s, ps[i], force, cutoff) :: ps[i].disco
  }

  function TrackDisco(ps: seq<Peer>, force: bool): (r: seq<DiscoKey>) {
    if ps == [] then []
    else
      var last := ps[|ps| - 1];
      TrackDisco(ps[..|ps| - 1], force) + if IsTrimmable(last, force) then [last.disco] else []
  }

  function PrefixIPs(ps: seq<Prefix>): (r: seq<IP>)
    ensures |r| == |ps| && forall i :: 0 <= i < |ps| ==> r[i] == ps[i].ip
  {
    seq(|ps|, i requires 0 <= i < |ps| => ps[i].ip)
  }

  function TrackIPs(ps: seq<Peer>, force: bool): (r: seq<IP>) {
    if ps == [] then []
    else
      var last := ps[|ps| - 1];
      TrackIPs(ps[..|ps| - 1], force) + if IsTrimmable(last, force) then PrefixIPs(last.allowedIPs) else []
  }

  /** Every trimmable peer's disco key and addresses are tracked. */
  lemma {:induction false} TracksTrimmable(ps: seq<Peer>, force: bool)
    ensures forall p :: p in ps && IsTrimmable(p, force) ==> p.disco in TrackDisco(ps, force)
    ensures forall p, i :: p in ps && IsTrimmable(p, force) && 0 <= i < |p.allowedIPs| ==>
              p.allowedIPs[i].ip in TrackIPs(ps, force)
  {
    if ps != [] {
      var pre, last := ps[..|ps| - 1], ps[|ps| - 1];
      TracksTrimmable(pre, force);
      assert ps == pre + [last];
      assert IsTrimmable(last, force) ==>
          forall i :: 0 <= i < |last.allowedIPs| ==> PrefixIPs(last.allowedIPs)[i] in TrackIPs(ps, force);
    }
  }

  /** Nothing else is tracked. */
  lemma {:induction false} TracksOnlyTrimmable(ps: seq<Peer>, force: bool)
    ensures forall dk :: dk in TrackDisco(ps, force) ==> exists p :: p in ps && IsTrimmable(p, force) && p.disco == dk
    ensures forall ip :: ip in TrackIPs(ps, force) ==> exists p :: p in ps && IsTrimmable(p, force) && ip in PrefixIPs(p.allowedIPs)
  {
    if ps != [] {
      var pre, last := ps[..|ps| - 1], ps[|ps| - 1];
      TracksOnlyTrimmable(pre, force);
      assert ps == pre + [last];
      assert last in ps && forall p :: p in pre ==> p in ps;
    }
  }

  function Survey(s: State, force: bool, cutoff: Time): TrimSig {
    TrimSig(s.full.(peers := KeptPeers(s, s.full.peers, force, cutoff)),
            TrimmedDisco(s, s.full.peers, force, cutoff),
            TrackDisco(s.full.peers, force),
            TrackIPs(s.full.peers, force))
  }

  // ---------------------------------------------------------------------
  // Steps, as functions of the fields
  // ---------------------------------------------------------------------

  /** The new send-time table, hook table and cells after tracking exactly `ips`. */
  function TrackCells(s: State, ips: seq<IP>): (map<IP, nat>, map<IP, nat>, seq<Time>) {
    if ips == [] then (map[], map[], s.cells)
    else
      var ip := ips[|ips| - 1];
      var (sent, hooks, cells) := TrackCells(s, ips[..|ips| - 1]);
      var isNew := ip !in s.sentAt;
      var cell := if isNew then |cells| else s.sentAt[ip];
      (sent[ip := cell],
       hooks[ip := if ip in s.hooks then s.hooks[ip] else cell],
       if isNew then cells + [0] else cells)
  }

  function UpdateActivityMaps(s: State, trackDisco: seq<DiscoKey>, trackIPs: seq<IP>): State {
    var (sent, hooks, cells) := TrackCells(s, trackIPs);
    s.(recvAt := map dk | dk in trackDisco :: RecvTime(s, dk), sentAt := sent, hooks := hooks, cells := cells)
  }

  function WithoutPeers(ps: seq<Peer>, drop: set<PublicKey>): (r: seq<Peer>)
    ensures forall p :: p in r <==> p in ps && p.pub !in drop
  {
    if ps == [] then []
    else WithoutPeers(ps[..|ps| - 1], drop) + if ps[|ps| - 1].pub in drop then [] else [ps[|ps| - 1]]
  }

  predicate AnyOf(ps: seq<Peer>, keys: set<PublicKey>) {
    exists i :: 0 <= i < |ps| && ps[i].pub in keys
  }

  function ConfigureDevice(s: State, min: Config, discoChanged: set<PublicKey>): State {
    var minner := min.(peers := WithoutPeers(min.peers, discoChanged));
    s.(device := min,
       deviceLog := s.deviceLog + (if AnyOf(min.peers, discoChanged) then [minner] else []) + [min])
  }

  function MaybeReconfig(s: State, discoChanged: set<PublicKey>, force: bool, now: Time): State {
    var g := Survey(s, force, now - LAZY_PEER_IDLE_THRESHOLD);
    if s.sig == Some(g) then s
    else
      ConfigureDevice(UpdateActivityMaps(s.(sig := Some(g), trimmed := g.trimmed), g.trackDisco, g.trackIPs),
                      g.min, discoChanged)
  }

  /** The disco key each public key was last listed with, if not zero. */
  function PrevDisco(ps: seq<Peer>): map<PublicKey, DiscoKey> {
    if ps == [] then map[]
    else
      var last := ps[|ps| - 1];
      var m := PrevDisco(ps[..|ps| - 1]);
      if last.disco == 0 then m else m[last.pub := last.disco]
  }

  function DiscoChanged(prev: map<PublicKey, DiscoKey>, ps: seq<Peer>): set<PublicKey> {
    set i | 0 <= i < |ps| && ps[i].disco != 0 && ps[i].pub in prev && prev[ps[i].pub] != ps[i].disco :: ps[i].pub
  }

  /** `otherChanged` says the router, DNS or listen port changed. */
  function Reconfig(s: State, cfg: Config, otherChanged: bool, force: bool, now: Time): State {
    if s.fullSig == Some(cfg) && !otherChanged then s
    else
      var changed := DiscoChanged(PrevDisco(s.full.peers), cfg.peers);
      MaybeReconfig(s.(fullSig := Some(cfg), full := cfg), changed, force, now)
  }

  /** `now` and `later` are the two readings of the clock in noteReceiveActivity and in the reconfiguration. */
  function NoteReceive(s: State, dk: DiscoKey, force: bool, now: Time, later: Time): State {
    if dk !in s.recvAt then s
    else
      var t := s.(recvAt := s.recvAt[dk := now]);
      if dk in t.trimmed then MaybeReconfig(t, {}, force, later) else t
  }

  function Elapsed(last: Time, now: Time): Time {
    if last == 0 then FIRST_PACKET_ELAPSED else now - last
  }

  /** The lock-free part of the hook for a packet to `ip`, and the recheck it leaves pending. */
  function PacketHook(s: State, ip: IP, now: Time): (State, Option<Pending>) {
    if ip !in s.hooks || s.hooks[ip] >= |s.cells| then (s, None)
    else
      var cell := s.hooks[ip];
      var elapsed := Elapsed(s.cells[cell], now);
      (if elapsed >= PACKET_SEND_TIME_UPDATE_FREQUENCY then s.(cells := s.cells[cell := now]) else s,
       if elapsed >= PACKET_SEND_RECHECK_THRESHOLD then Some(Pending(ip, cell, now)) else None)
  }

  // ---------------------------------------------------------------------
  // The object
  // ---------------------------------------------------------------------

  class UserspaceEngine {
    var lastCfgFull: Config
    var lastEngineSigFull: Option<Config>
    var lastEngineSigTrim: Option<TrimSig>
    var device: Config
    var deviceLog: seq<Config>
    var recvActivityAt: map<DiscoKey, Time>
    var trimmedDisco: set<DiscoKey>
    var sentActivityAt: map<IP, nat>
    var destIPActivityFuncs: map<IP, nat>
    var cells: seq<Time>

    function Fields(): State
      reads this
    {
      State(lastCfgFull, lastEngineSigFull, lastEngineSigTrim, device, deviceLog, recvActivityAt, trimmedDisco,
            sentActivityAt, destIPActivityFuncs, cells)
    }

    constructor ()
      ensures Fields() == InitState
    {
      lastCfgFull, lastEngineSigFull, lastEngineSigTrim := Config([], 0), None, None;
      device, deviceLog := Config([], 0), [];
      recvActivityAt, trimmedDisco, sentActivityAt, destIPActivityFuncs, cells := map[], {}, map[], map[], [];
    }

    method IsActiveSince(dk: DiscoKey, ip: IP, t: Time) returns (b: bool)
      requires forall i :: i in sentActivityAt ==> sentActivityAt[i] < |cells|
      ensures b == ActiveSince(Fields(), dk, ip, t)
    {
      var received := if dk in recvActivityAt then recvActivityAt[dk] else 0;
      if received > t {
        return true;
      }
      if ip !in sentActivityAt {
        return false;
      }
      b := cells[sentActivityAt[ip]] > t;
    }

    method UpdateActivityMapsLocked(trackDisco: seq<DiscoKey>, trackIPs: seq<IP>)
      modifies this
      ensures Fields() == UpdateActivityMaps(old(Fields()), trackDisco, trackIPs)
    {
      var mr: map<DiscoKey, Time> := map[];
      for i := 0 to |trackDisco|
        invariant mr == map dk | dk in trackDisco[..i] :: RecvTime(old(Fields()), dk)
      {
        assert trackDisco[..i + 1] == trackDisco[..i] + [trackDisco[i]];
        mr := mr[trackDisco[i] := if trackDisco[i] in recvActivityAt then recvActivityAt[trackDisco[i]] else 0];
      }
      assert trackDisco[..|trackDisco|] == trackDisco;
      recvActivityAt := mr;

      var oldTime, oldFunc := sentActivityAt, destIPActivityFuncs;
      sentActivityAt, destIPActivityFuncs := map[], map[];
      for i := 0 to |trackIPs|
        invariant (sentActivityAt, destIPActivityFuncs, cells) == TrackCells(old(Fields()), trackIPs[..i])
        invariant Fields() == old(Fields()).(recvAt := mr, sentAt := sentActivityAt, hooks := destIPActivityFuncs, cells := cells)
      {
        assert trackIPs[..i + 1][..i] == trackIPs[..i];
        var ip := trackIPs[i];
        var timePtr := |cells|;
        if ip in oldTime {
          timePtr := oldTime[ip];
        } else {
          cells := cells + [0];
        }
        sentActivityAt := sentActivityAt[ip := timePtr];
        var fn := if ip in oldFunc then oldFunc[ip] else timePtr;
        destIPActivityFuncs := destIPActivityFuncs[ip := fn];
      }
      assert trackIPs[..|trackIPs|] == trackIPs;
    }

    /** The inner loop of the classification: a trimmable peer's addresses and whether it was active. */
    method SurveyPeer(p: Peer, cutoff: Time) returns (ips: seq<IP>, recentlyActive: bool)
      requires forall i :: i in sentActivityAt ==> sentActivityAt[i] < |cells|
      ensures ips == PrefixIPs(p.allowedIPs)
      ensures recentlyActive == RecentlyActive(Fields(), p, cutoff)
    {
      ips, recentlyActive := [], false;
      for j := 0 to |p.allowedIPs|
        invariant ips == PrefixIPs(p.allowedIPs)[..j]
        invariant recentlyActive == exists k :: 0 <= k < j && ActiveSince(Fields(), p.disco, p.allowedIPs[k].ip, cutoff)
      {
        ips := ips + [p.allowedIPs[j].ip];
        if !recentlyActive {
          recentlyActive := IsActiveSince(p.disco, p.allowedIPs[j].ip, cutoff);
        }
      }
    }

    /** The classification loop of maybeReconfigWireguardLocked. */
    method SurveyPeers(force: bool, cutoff: Time, discoChanged: set<PublicKey>) returns (g: TrimSig, needRemoveStep: bool)
      requires forall i :: i in sentActivityAt ==> sentActivityAt[i] < |cells|
      ensures g == Survey(Fields(), force, cutoff)
      ensures needRemoveStep == AnyOf(g.min.peers, discoChanged)
    {
      ghost var s := Fields();
      var full := lastCfgFull;
      var minPeers: seq<Peer>, trackDisco: seq<DiscoKey>, trackIPs: seq<IP>, trimmed: set<DiscoKey> := [], [], [], {};
      needRemoveStep := false;
      for i := 0 to |full.peers|
        invariant minPeers == KeptPeers(s, full.peers[..i], force, cutoff)
        invariant trimmed == TrimmedDisco(s, full.peers[..i], force, cutoff)
        invariant trackDisco == TrackDisco(full.peers[..i], force)
        invariant trackIPs == TrackIPs(full.peers[..i], force)
        invariant needRemoveStep == AnyOf(minPeers, discoChanged)
      {
        var p := full.peers[i];
        TakeNext(s, full.peers, i, force, cutoff);
        var keep := true;
        if IsTrimmable(p, force) {
          trackDisco := trackDisco + [p.disco];
          var ips, recentlyActive := SurveyPeer(p, cutoff);
          trackIPs := trackIPs + ips;
          keep := recentlyActive;
        }
        assert keep == Keep(s, p, force, cutoff);
        if keep {
          AnyOfAppend(minPeers, p, discoChanged);
          minPeers := minPeers + [p];
          needRemoveStep := needRemoveStep || p.pub in discoChanged;
        } else {
          trimmed := trimmed + {p.disco};
        }
      }
      assert full.peers[..|full.peers|] == full.peers;
      g := TrimSig(full.(peers := minPeers), trimmed, trackDisco, trackIPs);
    }

    /** The loop that leaves out the peers whose sessions must be flushed. */
    method FlushedConfig(min: Config, discoChanged: set<PublicKey>) returns (minner: Config, numRemove: nat)
      ensures minner == min.(peers := WithoutPeers(min.peers, discoChanged))
      ensures numRemove > 0 <==> AnyOf(min.peers, discoChanged)
    {
      minner, numRemove := min.(peers := []), 0;
      for i := 0 to |min.peers|
        invariant minner == min.(peers := WithoutPeers(min.peers[..i], discoChanged))
        invariant numRemove > 0 <==> AnyOf(min.peers[..i], discoChanged)
      {
        WithoutNext(min.peers, i, discoChanged);
        if min.peers[i].pub in discoChanged {
          numRemove := numRemove + 1;
          continue;
        }
        minner := minner.(peers := minner.peers + [min.peers[i]]);
      }
      assert min.peers[..|min.peers|] == min.peers;
    }

    method MaybeReconfigWireguardLocked(discoChanged: set<PublicKey>, force: bool, now: Time)
      requires forall i :: i in sentActivityAt ==> sentActivityAt[i] < |cells|
      modifies this
      ensures Fields() == MaybeReconfig(old(Fields()), discoChanged, force, now)
    {
      var g, needRemoveStep := SurveyPeers(force, now - LAZY_PEER_IDLE_THRESHOLD, discoChanged);
      if lastEngineSigTrim == Some(g) {
        return;
      }
      lastEngineSigTrim := Some(g);
      trimmedDisco := g.trimmed;
      UpdateActivityMapsLocked(g.trackDisco, g.trackIPs);
      if needRemoveStep {
        var minner, numRemove := FlushedConfig(g.min, discoChanged);
        if numRemove > 0 {
          deviceLog := deviceLog + [minner];
        }
      }
      device, deviceLog := g.min, deviceLog + [g.min];
    }

    method NoteReceiveActivity(dk: DiscoKey, force: bool, now: Time, later: Time)
      requires forall i :: i in sentActivityAt ==> sentActivityAt[i] < |cells|
      modifies this
      ensures Fields() == NoteReceive(old(Fields()), dk, force, now, later)
    {
      if dk !in recvActivityAt {
        return;
      }
      recvActivityAt := recvActivityAt[dk := now];
      if dk in trimmedDisco {
        MaybeReconfigWireguardLocked({}, force, later);
      }
    }

    method SetConfig(cfg: Config, otherChanged: bool, force: bool, now: Time)
      requires forall i :: i in sentActivityAt ==> sentActivityAt[i] < |cells|
      modifies this
      ensures Fields() == Reconfig(old(Fields()), cfg, otherChanged, force, now)
    {
      var engineChanged := lastEngineSigFull != Some(cfg);
      lastEngineSigFull := Some(cfg);
      if !engineChanged && !otherChanged {
        return;
      }
      var prevEP: map<PublicKey, DiscoKey> := map[];
      for i := 0 to |lastCfgFull.peers|
        invariant prevEP == PrevDisco(lastCfgFull.peers[..i])
      {
        assert lastCfgFull.peers[..i + 1][..i] == lastCfgFull.peers[..i];
        var p := lastCfgFull.peers[i];
        if p.disco != 0 {
          prevEP := prevEP[p.pub := p.disco];
        }
      }
      assert lastCfgFull.peers[..|lastCfgFull.peers|] == lastCfgFull.peers;
      var discoChanged: set<PublicKey> := {};
      for i := 0 to |cfg.peers|
        invariant discoChanged == DiscoChanged(prevEP, cfg.peers[..i])
      {
        assert cfg.peers[..i + 1] == cfg.peers[..i] + [cfg.peers[i]];
        var p := cfg.peers[i];
        if p.disco == 0 {
          continue;
        }
        if p.pub in prevEP && prevEP[p.pub] != p.disco {
          discoChanged := discoChanged + {p.pub};
        }
      }
      assert cfg.peers[..|cfg.peers|] == cfg.peers;
      lastCfgFull := cfg;
      MaybeReconfigWireguardLocked(discoChanged, force, now);
    }

    /** Runs the hook for a packet to `ip`; `recheck` says it must go on to take the lock. */
    method NotePacketSent(ip: IP, now: Time) returns (recheck: bool)
      requires forall i :: i in destIPActivityFuncs ==> destIPActivityFuncs[i] < |cells|
      modifies this
      ensures Fields() == PacketHook(old(Fields()), ip, now).0
      ensures recheck == PacketHook(old(Fields()), ip, now).1.Some?
    {
      if ip !in destIPActivityFuncs {
        return false;
      }
      var timePtr := destIPActivityFuncs[ip];
      var oldTime := cells[timePtr];
      var elapsed := now - oldTime;
      if oldTime == 0 {
        elapsed := FIRST_PACKET_ELAPSED;
      }
      if elapsed >= PACKET_SEND_TIME_UPDATE_FREQUENCY {
        cells := cells[timePtr := now];
      }
      recheck := elapsed >= PACKET_SEND_RECHECK_THRESHOLD;
    }
  }

  lemma AnyOfAppend(ps: seq<Peer>, p: Peer, keys: set<PublicKey>)
    ensures AnyOf(ps + [p], keys) == (AnyOf(ps, keys) || p.pub in keys)
  {
    if p.pub in keys {
      assert (ps + [p])[|ps|].pub in keys;
    }
    if AnyOf(ps, keys) {
      var i :| 0 <= i < |ps| && ps[i].pub in keys;
      assert (ps + [p])[i].pub in keys;
    }
  }

  /** One turn of the loop that leaves peers out. */
  lemma WithoutNext(ps: seq<Peer>, i: nat, drop: set<PublicKey>)
    requires i < |ps|
    ensures WithoutPeers(ps[..i + 1], drop) == WithoutPeers(ps[..i], drop) + (if ps[i].pub in drop then [] else [ps[i]])
    ensures AnyOf(ps[..i + 1], drop) == (AnyOf(ps[..i], drop) || ps[i].pub in drop)
  {
    assert ps[..i + 1][..i] == ps[..i];
    assert ps[..i + 1] == ps[..i] + [ps[i]];
    AnyOfAppend(ps[..i], ps[i], drop);
  }

  /** One turn of the classification loop. */
  lemma TakeNext(s: State, ps: seq<Peer>, i: nat, force: bool, cutoff: Time)
    requires i < |ps|
    ensures var a, b, p := ps[..i], ps[..i + 1], ps[i];
            && KeptPeers(s, b, force, cutoff) == KeptPeers(s, a, force, cutoff) + (if Keep(s, p, force, cutoff) then [p] else [])
            && TrimmedDisco(s, b, force, cutoff) == TrimmedDisco(s, a, force, cutoff) + (if Keep(s, p, force, cutoff) then {} else {p.disco})
            && TrackDisco(b, force) == TrackDisco(a, force) + (if IsTrimmable(p, force) then [p.disco] else [])
            && TrackIPs(b, force) == TrackIPs(a, force) + (if IsTrimmable(p, force) then PrefixIPs(p.allowedIPs) else [])
  {
    var a, b := ps[..i], ps[..i + 1];
    assert b[..|b| - 1] == a;
    forall k | 0 <= k < |b| && !Keep(s, b[k], force, cutoff)
      ensures b[k].disco in TrimmedDisco(s, a, force, cutoff) + (if Keep(s, ps[i], force, cutoff) then {} else {ps[i].disco})
    {
      if k < i { assert a[k] == b[k]; }
    }
    forall k | 0 <= k < |a| && !Keep(s, a[k], force, cutoff)
      ensures a[k].disco in TrimmedDisco(s, b, force, cutoff)
    {
      assert a[k] == b[k];
    }
    assert b[i] == ps[i];
  }

  // ---------------------------------------------------------------------
  // Runs: reconfigurations, received packets and the parts of packet hooks in any order
  // ---------------------------------------------------------------------

  /**
   Where the one goroutine that reads packets to send is: it fetches the hook of
   the packet's address, which is the address's cell; reads the clock and loads
   the cell; stores its time there; and takes the lock to recheck. None but the
   last part holds the lock.
   */
  datatype Hook =
    | Idle
    | Fetched(ip: IP, cell: nat)
    | Loaded(h: Pending, seen: Time)
    | Waiting(h: Pending)

  /**
   `cutoff` is the activity cutoff of the last recomputation, the one that the
   peers now trimmed were trimmed at. `late` is the hook that read the clock
   before that recomputation and stored its time after it without a recheck.
   */
  datatype World = World(s: State, now: Time, hook: Hook, cutoff: Time, late: Option<Pending>)

  const Init := World(InitState, CLOCK_BASE, Idle, CLOCK_BASE - LAZY_PEER_IDLE_THRESHOLD, None)

  datatype Step =
    | Configure(cfg: Config, otherChanged: bool, force: bool, at: Time)
    | Receive(dk: DiscoKey, force: bool, at: Time, later: Time)
    | Fetch(to: IP, at: Time)
    | Load(at: Time)
    | Store(at: Time)
    | Recheck(force: bool, at: Time)

  /** The clock does not run backwards; the bounds on cells hold in every run. */
  predicate Enabled(w: World, step: Step) {
    && step.at >= w.now
    && (step.Receive? ==> step.later >= step.at)
    && (step.Fetch? ==> w.hook.Idle?)
    && (step.Load? ==> w.hook.Fetched? && w.hook.cell < |w.s.cells|)
    && (step.Store? ==> w.hook.Loaded? && w.hook.h.cell < |w.s.cells|)
    && (step.Recheck? ==> w.hook.Waiting?)
  }

  /** The world just after a recomputation. */
  function Recomputed(s: State, now: Time, hook: Hook): World {
    World(s, now, hook, now - LAZY_PEER_IDLE_THRESHOLD, None)
  }

  /** When the last recomputation read the clock. */
  function LastSurvey(w: World): Time { w.cutoff + LAZY_PEER_IDLE_THRESHOLD }

  function StoreTime(w: World, h: Pending, seen: Time): World
    requires h.cell < |w.s.cells|
  {
    var elapsed := Elapsed(seen, h.at);
    var rechecks := elapsed >= PACKET_SEND_RECHECK_THRESHOLD;
    var t := w.(hook := if rechecks then Waiting(h) else Idle);
    if elapsed < PACKET_SEND_TIME_UPDATE_FREQUENCY then t
    else
      t.(s := w.s.(cells := w.s.cells[h.cell := h.at]),
         late := if !rechecks && h.at < LastSurvey(w) then Some(h)
                 else if w.late.Some? && w.late.value.cell == h.cell then None
                 else w.late)
  }

  function Apply(w: World, step: Step): World
    requires Enabled(w, step)
  {
    match step
    case Configure(cfg, otherChanged, force, at) =>
      if w.s.fullSig == Some(cfg) && !otherChanged then w.(now := at)
      else Recomputed(Reconfig(w.s, cfg, otherChanged, force, at), at, w.hook)
    case Receive(dk, force, at, later) =>
      var s := NoteReceive(w.s, dk, force, at, later);
      if dk in w.s.recvAt && dk in w.s.trimmed then Recomputed(s, later, w.hook) else w.(s := s, now := later)
    case Fetch(ip, at) => w.(now := at, hook := if ip in w.s.hooks then Fetched(ip, w.s.hooks[ip]) else Idle)
    case Load(at) =>
      w.(now := at, hook := Loaded(Pending(w.hook.ip, w.hook.cell, at), w.s.cells[w.hook.cell]))
    case Store(at) => StoreTime(w.(now := at), w.hook.h, w.hook.seen)
    case Recheck(force, at) => Recomputed(MaybeReconfig(w.s, {}, force, at), at, Idle)
  }

  ghost predicate ValidRun(w: World, steps: seq<Step>)
    decreases steps
  {
    steps == [] || (Enabled(w, steps[0]) && ValidRun(Apply(w, steps[0]), steps[1..]))
  }

  ghost function Exec(w: World, steps: seq<Step>): World
    requires ValidRun(w, steps)
    decreases steps
  {
    if steps == [] then w else Exec(Apply(w, steps[0]), steps[1..])
  }

  /** Some run from the start ends here. */
  ghost predicate Reachable(w: World) {
    exists steps :: ValidRun(Init, steps) && Exec(Init, steps) == w
  }

  lemma {:induction false} RunOneMore(w: World, steps: seq<Step>, step: Step)
    requires ValidRun(w, steps) && Enabled(Exec(w, steps), step)
    ensures ValidRun(w, steps + [step]) && Exec(w, steps + [step]) == Apply(Exec(w, steps), step)
    decreases steps
  {
    var all := steps + [step];
    if steps == [] {
      var t := Apply(w, step);
      assert all[0] == step && all[1..] == [];
      assert ValidRun(t, []) && Exec(t, []) == t;
    } else {
      assert all[0] == steps[0] && all[1..] == steps[1..] + [step];
      RunOneMore(Apply(w, steps[0]), steps[1..], step);
    }
  }

  /** What is reachable stays reachable step by step. */
  lemma ReachesNext(w: World, step: Step)
    requires Reachable(w) && Enabled(w, step)
    ensures Reachable(Apply(w, step))
  {
    var steps :| ValidRun(Init, steps) && Exec(Init, steps) == w;
    RunOneMore(Init, steps, step);
  }

  lemma StartIsReachable()
    ensures Reachable(Init)
  {
    assert ValidRun(Init, []) && Exec(Init, []) == Init;
  }

  // ---------------------------------------------------------------------
  // Invariants
  // ---------------------------------------------------------------------

  /** The two tables share their cells, and no two addresses share one. */
  ghost predicate Coherent(s: State) {
    && s.hooks == s.sentAt
    && (forall ip :: ip in s.sentAt ==> s.sentAt[ip] < |s.cells|)
    && (forall a, b :: a in s.sentAt && b in s.sentAt && s.sentAt[a] == s.sentAt[b] ==> a == b)
  }

  /** The device and the tables are what the hashed survey said, so skipping loses nothing. */
  ghost predicate SigTie(s: State) {
    match s.sig
    case None => s.device.peers == [] && s.trimmed == {} && s.recvAt == map[] && s.sentAt == map[]
    case Some(g) =>
      && s.device == g.min && s.trimmed == g.trimmed
      && (forall dk :: dk in s.recvAt <==> dk in g.trackDisco)
      && (forall ip :: ip in s.sentAt <==> ip in g.trackIPs)
      && (forall dk :: dk in s.trimmed ==> dk in s.recvAt)
  }

  /**
   The address was last sent to no later than the cutoff its peers were trimmed
   at, or a recheck is pending for it, or its last time was stored late and is
   still more than four minutes older than the last recomputation.
   */
  predicate Stale(w: World, ip: IP) {
    && ip in w.s.sentAt && w.s.sentAt[ip] < |w.s.cells|
    && var cell := w.s.sentAt[ip];
       || w.s.cells[cell] <= w.cutoff
       || (w.hook.Waiting? && w.hook.h.cell == cell)
       || (w.late.Some? && w.late.value.cell == cell && w.s.cells[cell] < w.cutoff + PACKET_SEND_RECHECK_THRESHOLD)
  }

  /** A trimmed peer: nothing was received from it after the cutoff, and each of its addresses is stale. */
  ghost predicate Sleeping(w: World, p: Peer) {
    && p.disco in w.s.trimmed
    && (p.allowedIPs != [] ==> RecvTime(w.s, p.disco) <= w.cutoff)
    && forall i :: 0 <= i < |p.allowedIPs| ==> Stale(w, p.allowedIPs[i].ip)
  }

  /** Every configured peer is in the device or asleep, and the device holds no other. */
  ghost predicate PeersOk(w: World) {
    && (forall p :: p in w.s.full.peers ==> p in w.s.device.peers || Sleeping(w, p))
    && (forall p :: p in w.s.device.peers ==> p in w.s.full.peers)
  }

  /** A cell handed out for this address, and to no other that is tracked now. */
  ghost predicate CellOf(s: State, ip: IP, cell: nat) {
    cell < |s.cells| && forall j :: j in s.sentAt && s.sentAt[j] == cell ==> j == ip
  }

  ghost predicate Holds(s: State, h: Pending, time: Time) {
    CellOf(s, h.ip, h.cell) && s.cells[h.cell] == time
  }

  /** Only the goroutine of the hooks writes cells, so a cell still holds what its hook loaded from it or stored there. */
  ghost predicate HookOk(w: World) {
    match w.hook
    case Idle => true
    case Fetched(ip, cell) => CellOf(w.s, ip, cell)
    case Loaded(h, seen) => h.at <= w.now && Holds(w.s, h, seen)
    case Waiting(h) => h.at <= w.now && Holds(w.s, h, h.at)
  }

  /** A late store is the last hook that read the clock before the last recomputation. */
  ghost predicate LateOk(w: World) {
    w.late.Some? ==>
      && Holds(w.s, w.late.value, w.late.value.at) && w.late.value.at < LastSurvey(w)
      && (w.hook.Loaded? || w.hook.Waiting? ==> w.hook.h.at >= LastSurvey(w))
  }

  ghost predicate Inv(w: World) {
    && w.now >= CLOCK_BASE && LastSurvey(w) <= w.now
    && Coherent(w.s) && SigTie(w.s) && PeersOk(w)
    && (w.s.fullSig.Some? ==> w.s.fullSig.value == w.s.full)
    && (w.s.fullSig.None? ==> w.s.full.peers == [])
  }

  /** What tracking a list of addresses gives: old cells for those already tracked, zero cells for the rest. */
  ghost predicate Tracks(s: State, ips: seq<IP>, sent: map<IP, nat>, cells: seq<Time>) {
    && |s.cells| <= |cells| && cells[..|s.cells|] == s.cells
    && (forall ip :: ip in sent <==> ip in ips)
    && (forall ip :: ip in sent ==> sent[ip] < |cells|)
    && (forall ip :: ip in sent && ip in s.sentAt ==> sent[ip] == s.sentAt[ip])
    && (forall ip :: ip in sent && ip !in s.sentAt ==> |s.cells| <= sent[ip] && cells[sent[ip]] == 0)
    && (forall a, b :: a in sent && b in sent && sent[a] == sent[b] ==> a == b)
  }

  lemma TrackOld(s: State, ips: seq<IP>, sent: map<IP, nat>, cells: seq<Time>, ip: IP)
    requires Coherent(s) && Tracks(s, ips, sent, cells) && ip in s.sentAt
    ensures Tracks(s, ips + [ip], sent[ip := s.sentAt[ip]], cells)
  {
  }

  lemma TrackNew(s: State, ips: seq<IP>, sent: map<IP, nat>, cells: seq<Time>, ip: IP)
    requires Coherent(s) && Tracks(s, ips, sent, cells) && ip !in s.sentAt
    ensures Tracks(s, ips + [ip], sent[ip := |cells|], cells + [0])
  {
    assert (cells + [0])[..|s.cells|] == cells[..|s.cells|];
  }

  lemma {:induction false} TrackCellsSound(s: State, ips: seq<IP>)
    requires Coherent(s)
    ensures var (sent, hooks, cells) := TrackCells(s, ips); hooks == sent && Tracks(s, ips, sent, cells)
  {
    if ips != [] {
      var pre, ip := ips[..|ips| - 1], ips[|ips| - 1];
      TrackCellsSound(s, pre);
      var (sent, hooks, cells) := TrackCells(s, pre);
      assert ips == pre + [ip];
      if ip in s.sentAt {
        TrackOld(s, pre, sent, cells, ip);
        assert TrackCells(s, ips) == (sent[ip := s.sentAt[ip]], sent[ip := s.sentAt[ip]], cells);
      } else {
        TrackNew(s, pre, sent, cells, ip);
        assert TrackCells(s, ips) == (sent[ip := |cells|], sent[ip := |cells|], cells + [0]);
      }
    }
  }

  /** Whatever is tracked before and after keeps its times; an address newly tracked has none. */
  ghost predicate KeepsTimes(s: State, t: State) {
    && (forall ip :: ip in t.sentAt ==> t.sentAt[ip] < |t.cells|)
    && (forall ip :: ip in t.sentAt && ip in s.sentAt ==>
          s.sentAt[ip] < |s.cells| && t.sentAt[ip] == s.sentAt[ip] && t.cells[t.sentAt[ip]] == s.cells[s.sentAt[ip]])
    && (forall ip :: ip in t.sentAt && ip !in s.sentAt ==> t.cells[t.sentAt[ip]] == 0)
    && (forall dk :: dk in t.recvAt ==> t.recvAt[dk] == RecvTime(s, dk))
  }

  /** Addresses and disco keys that stay tracked keep their times. */
  lemma TimesSurvive(s: State, trackDisco: seq<DiscoKey>, trackIPs: seq<IP>)
    requires Coherent(s)
    ensures var t := UpdateActivityMaps(s, trackDisco, trackIPs);
            && Coherent(t)
            && (forall dk :: dk in t.recvAt <==> dk in trackDisco)
            && (forall ip :: ip in t.sentAt <==> ip in trackIPs)
            && KeepsTimes(s, t)
  {
    TrackCellsSound(s, trackIPs);
    var t := UpdateActivityMaps(s, trackDisco, trackIPs);
    forall ip | ip in t.sentAt && ip in s.sentAt ensures t.cells[t.sentAt[ip]] == s.cells[s.sentAt[ip]] {
      assert t.cells[..|s.cells|][s.sentAt[ip]] == s.cells[s.sentAt[ip]];
    }
  }

  /** A recomputation leaves exactly the peers to keep in the device, whether or not it was skipped. */
  lemma ReconfigSettles(s: State, discoChanged: set<PublicKey>, force: bool, now: Time)
    requires Coherent(s) && SigTie(s) && now >= CLOCK_BASE
    ensures var t := MaybeReconfig(s, discoChanged, force, now);
            var g := Survey(s, force, now - LAZY_PEER_IDLE_THRESHOLD);
            && Coherent(t) && SigTie(t) && t.sig == Some(g) && t.device == g.min
            && t.full == s.full && t.fullSig == s.fullSig
            && (forall p :: p in t.device.peers <==> p in s.full.peers && Keep(s, p, force, now - LAZY_PEER_IDLE_THRESHOLD))
            && (forall hook :: PeersOk(Recomputed(t, now, hook)))
  {
    var t := MaybeReconfig(s, discoChanged, force, now);
    var g := Survey(s, force, now - LAZY_PEER_IDLE_THRESHOLD);
    ReconfigTies(s, discoChanged, force, now);
    ReconfigKeepsTimes(s, discoChanged, force, now);
    KeptPeersMembers(s, s.full.peers, force, now - LAZY_PEER_IDLE_THRESHOLD);
    TracksTrimmable(s.full.peers, force);
    forall hook ensures PeersOk(Recomputed(t, now, hook)) {
      forall p | p in t.full.peers && p !in t.device.peers
        ensures Sleeping(Recomputed(t, now, hook), p)
      {
        SleeperIsStale(s, t, p, force, now, hook);
      }
    }
  }

  lemma ReconfigTies(s: State, discoChanged: set<PublicKey>, force: bool, now: Time)
    requires Coherent(s) && SigTie(s)
    ensures var t := MaybeReconfig(s, discoChanged, force, now);
            var g := Survey(s, force, now - LAZY_PEER_IDLE_THRESHOLD);
            && Coherent(t) && SigTie(t) && t.sig == Some(g) && t.device == g.min
            && t.full == s.full && t.fullSig == s.fullSig && t.trimmed == g.trimmed
            && (forall ip :: ip in t.sentAt <==> ip in g.trackIPs)
  {
    var g := Survey(s, force, now - LAZY_PEER_IDLE_THRESHOLD);
    TimesSurvive(s.(sig := Some(g), trimmed := g.trimmed), g.trackDisco, g.trackIPs);
    TracksTrimmable(s.full.peers, force);
    assert forall dk :: dk in g.trimmed ==> dk in g.trackDisco;
  }

  lemma ReconfigKeepsTimes(s: State, discoChanged: set<PublicKey>, force: bool, now: Time)
    requires Coherent(s)
    ensures KeepsTimes(s, MaybeReconfig(s, discoChanged, force, now))
  {
    var g := Survey(s, force, now - LAZY_PEER_IDLE_THRESHOLD);
    if s.sig != Some(g) {
      var u := s.(sig := Some(g), trimmed := g.trimmed);
      TimesSurvive(u, g.trackDisco, g.trackIPs);
      var t := UpdateActivityMaps(u, g.trackDisco, g.trackIPs);
      assert KeepsTimes(s, t) by { assert forall dk :: RecvTime(u, dk) == RecvTime(s, dk); }
    }
  }

  lemma SleeperIsStale(s: State, t: State, p: Peer, force: bool, now: Time, hook: Hook)
    requires Coherent(s) && Coherent(t) && now >= CLOCK_BASE
    requires p in s.full.peers && !Keep(s, p, force, now - LAZY_PEER_IDLE_THRESHOLD)
    requires t.trimmed == Survey(s, force, now - LAZY_PEER_IDLE_THRESHOLD).trimmed
    requires forall i :: 0 <= i < |p.allowedIPs| ==> p.allowedIPs[i].ip in t.sentAt
    requires KeepsTimes(s, t)
    ensures Sleeping(Recomputed(t, now, hook), p)
  {
    var k :| 0 <= k < |s.full.peers| && s.full.peers[k] == p;
    assert p.disco in t.trimmed;
    if p.allowedIPs != [] {
      assert !ActiveSince(s, p.disco, p.allowedIPs[0].ip, now - LAZY_PEER_IDLE_THRESHOLD);
    }
    forall i | 0 <= i < |p.allowedIPs|
      ensures Stale(Recomputed(t, now, hook), p.allowedIPs[i].ip)
    {
      assert !ActiveSince(s, p.disco, p.allowedIPs[i].ip, now - LAZY_PEER_IDLE_THRESHOLD);
      assert p.allowedIPs[i].ip in t.sentAt;
    }
  }

  /** Time passing, and a hook that fetches or loads, keep everything. */
  lemma LookingKeepsInv(w: World, t: World)
    requires Inv(w) && t == w.(now := t.now, hook := t.hook) && t.now >= w.now
    requires t.hook == w.hook || !w.hook.Waiting?
    ensures Inv(t)
  {
    forall p | p in w.s.full.peers && p !in w.s.device.peers ensures Sleeping(t, p) {
      assert Sleeping(w, p);
      forall i | 0 <= i < |p.allowedIPs| ensures Stale(t, p.allowedIPs[i].ip) {
        assert Stale(w, p.allowedIPs[i].ip);
      }
    }
  }

  /** A hook's store leaves a stale address stale: it rechecks, or it was late. */
  lemma StoreKeepsStale(w: World, ip: IP)
    requires Coherent(w.s) && HookOk(w) && LateOk(w) && w.hook.Loaded? && Stale(w, ip)
    ensures Stale(StoreTime(w, w.hook.h, w.hook.seen), ip)
  {
  }

  lemma StoreKeepsInv(w: World, at: Time)
    requires Inv(w) && HookOk(w) && LateOk(w) && Enabled(w, Store(at))
    ensures Inv(Apply(w, Store(at)))
  {
    var v, t := w.(now := at), Apply(w, Store(at));
    LookingKeepsInv(w, v);
    forall p | p in t.s.full.peers && p !in t.s.device.peers ensures Sleeping(t, p) {
      assert Sleeping(v, p);
      forall i | 0 <= i < |p.allowedIPs| ensures Stale(t, p.allowedIPs[i].ip) {
        StoreKeepsStale(v, p.allowedIPs[i].ip);
      }
    }
  }

  lemma ReceiveKeepsInv(w: World, dk: DiscoKey, force: bool, at: Time, later: Time)
    requires Inv(w) && w.now <= at <= later
    ensures Inv(Apply(w, Receive(dk, force, at, later)))
  {
    var v := w.(now := later);
    LookingKeepsInv(w, v);
    if dk in w.s.recvAt {
      var t := w.s.(recvAt := w.s.recvAt[dk := at]);
      assert SigTie(t);
      if dk in t.trimmed {
        ReconfigSettles(t, {}, force, later);
      } else {
        forall p | p in t.full.peers && p !in t.device.peers ensures Sleeping(v.(s := t), p) {
          assert Sleeping(v, p);
          assert forall i :: 0 <= i < |p.allowedIPs| ==> Stale(v, p.allowedIPs[i].ip);
        }
      }
    }
  }

  lemma ConfigureKeepsInv(w: World, cfg: Config, otherChanged: bool, force: bool, at: Time)
    requires Inv(w) && at >= w.now
    ensures Inv(Apply(w, Configure(cfg, otherChanged, force, at)))
  {
    if w.s.fullSig == Some(cfg) && !otherChanged {
      LookingKeepsInv(w, w.(now := at));
    } else {
      var s := w.s.(fullSig := Some(cfg), full := cfg);
      ReconfigSettles(s, DiscoChanged(PrevDisco(w.s.full.peers), cfg.peers), force, at);
    }
  }

  ghost predicate NewCells(s: State, t: State) {
    forall ip :: ip in t.sentAt ==> (ip in s.sentAt && t.sentAt[ip] == s.sentAt[ip]) || t.sentAt[ip] >= |s.cells|
  }

  ghost predicate Grows(a: seq<Time>, b: seq<Time>) { |a| <= |b| && forall k :: 0 <= k < |a| ==> b[k] == a[k] }

  lemma ReconfigGrowsCells(s: State, discoChanged: set<PublicKey>, force: bool, now: Time)
    requires Coherent(s)
    ensures Grows(s.cells, MaybeReconfig(s, discoChanged, force, now).cells)
    ensures NewCells(s, MaybeReconfig(s, discoChanged, force, now))
  {
    var g := Survey(s, force, now - LAZY_PEER_IDLE_THRESHOLD);
    TrackCellsSound(s.(sig := Some(g), trimmed := g.trimmed), g.trackIPs);
    var cells := TrackCells(s.(sig := Some(g), trimmed := g.trimmed), g.trackIPs).2;
    assert forall k :: 0 <= k < |s.cells| ==> cells[k] == cells[..|s.cells|][k];
  }

  /** Apart from a hook's store, times are only added, and an address that is given a cell gets a new one. */
  lemma CellsOnlyGrow(w: World, step: Step)
    requires Coherent(w.s) && Enabled(w, step) && !step.Store?
    ensures Grows(w.s.cells, Apply(w, step).s.cells)
    ensures NewCells(w.s, Apply(w, step).s)
  {
    match step
    case Configure(cfg, _, force, at) =>
      ReconfigGrowsCells(w.s.(fullSig := Some(cfg), full := cfg), DiscoChanged(PrevDisco(w.s.full.peers), cfg.peers), force, at);
    case Receive(dk, force, at, later) => ReconfigGrowsCells(w.s.(recvAt := w.s.recvAt[dk := at]), {}, force, later);
    case Fetch(_, _) =>
    case Load(_) =>
    case Recheck(force, at) => ReconfigGrowsCells(w.s, {}, force, at);
  }

  lemma CellStays(s: State, t: State, ip: IP, cell: nat)
    requires CellOf(s, ip, cell) && Grows(s.cells, t.cells) && NewCells(s, t)
    ensures CellOf(t, ip, cell) && t.cells[cell] == s.cells[cell]
  {
  }

  lemma StepKeepsHook(w: World, step: Step)
    requires Inv(w) && Enabled(w, step) && HookOk(w) && LateOk(w)
    ensures HookOk(Apply(w, step)) && LateOk(Apply(w, step))
  {
    var t := Apply(w, step);
    if !step.Store? {
      CellsOnlyGrow(w, step);
      match w.hook {
        case Idle =>
        case Fetched(ip, cell) => CellStays(w.s, t.s, ip, cell);
        case Loaded(h, _) => CellStays(w.s, t.s, h.ip, h.cell);
        case Waiting(h) => CellStays(w.s, t.s, h.ip, h.cell);
      }
      if t.late.Some? {
        CellStays(w.s, t.s, t.late.value.ip, t.late.value.cell);
      }
    }
  }

  lemma StepKeepsInv(w: World, step: Step)
    requires Inv(w) && HookOk(w) && LateOk(w) && Enabled(w, step)
    ensures Inv(Apply(w, step)) && HookOk(Apply(w, step)) && LateOk(Apply(w, step))
  {
    StepKeepsHook(w, step);
    match step
    case Configure(cfg, otherChanged, force, at) => ConfigureKeepsInv(w, cfg, otherChanged, force, at);
    case Receive(dk, force, at, later) => ReceiveKeepsInv(w, dk, force, at, later);
    case Fetch(_, _) => LookingKeepsInv(w, Apply(w, step));
    case Load(_) => LookingKeepsInv(w, Apply(w, step));
    case Store(at) => StoreKeepsInv(w, at);
    case Recheck(force, at) => ReconfigSettles(w.s, {}, force, at);
  }

  lemma {:induction false} RunKeepsInv(w: World, steps: seq<Step>)
    requires Inv(w) && HookOk(w) && LateOk(w) && ValidRun(w, steps)
    ensures var t := Exec(w, steps); Inv(t) && HookOk(t) && LateOk(t)
    decreases steps
  {
    if steps != [] {
      StepKeepsInv(w, steps[0]);
      RunKeepsInv(Apply(w, steps[0]), steps[1..]);
    }
  }

  lemma ReachableInv(w: World)
    requires Reachable(w)
    ensures Inv(w) && HookOk(w) && LateOk(w)
  {
    var steps :| ValidRun(Init, steps) && Exec(Init, steps) == w;
    RunKeepsInv(Init, steps);
  }

  /** A hook that nothing interrupts before its recheck does what the method for the whole of it does. */
  lemma UninterruptedHook(w: World, ip: IP, at: Time)
    requires Reachable(w) && w.hook.Idle? && at >= w.now && ip in w.s.hooks
    ensures Enabled(w, Fetch(ip, at)) && Enabled(Apply(w, Fetch(ip, at)), Load(at))
    ensures Enabled(Apply(Apply(w, Fetch(ip, at)), Load(at)), Store(at))
    ensures var t := Apply(Apply(Apply(w, Fetch(ip, at)), Load(at)), Store(at));
            var (s, recheck) := PacketHook(w.s, ip, at);
            t.s == s && t.hook == if recheck.Some? then Waiting(recheck.value) else Idle
  {
    ReachableInv(w);
  }

  // ---------------------------------------------------------------------
  // Main results
  // ---------------------------------------------------------------------

  predicate Routes(p: Peer, ip: IP) {
    exists i :: 0 <= i < |p.allowedIPs| && p.allowedIPs[i].ip == ip
  }

  /**
   A packet received from a peer that has an address leaves the peer in the
   device, if less than the idle threshold passes inside the call.
   */
  lemma ReceiveWakes(w: World, dk: DiscoKey, force: bool, at: Time, later: Time, p: Peer)
    requires Reachable(w) && w.now <= at <= later < at + LAZY_PEER_IDLE_THRESHOLD
    requires p in w.s.full.peers && p.disco == dk && p.allowedIPs != []
    ensures p in Apply(w, Receive(dk, force, at, later)).s.device.peers
  {
    ReachableInv(w);
    if p !in w.s.device.peers || dk in w.s.trimmed {
      assert p !in w.s.device.peers ==> Sleeping(w, p);
      var t := w.s.(recvAt := w.s.recvAt[dk := at]);
      assert SigTie(t);
      ReconfigSettles(t, {}, force, later);
      assert ActiveSince(t, dk, p.allowedIPs[0].ip, later - LAZY_PEER_IDLE_THRESHOLD);
    }
  }

  /** The packet was to this peer, to an address still tracked as it was then, less than the idle threshold ago. */
  predicate Counts(s: State, h: Pending, p: Peer, at: Time) {
    Routes(p, h.ip) && h.ip in s.sentAt && s.sentAt[h.ip] == h.cell && at < h.at + LAZY_PEER_IDLE_THRESHOLD
  }

  /** The packet of the hook that is about to recheck counts for the peer, or that of the hook that stored late. */
  predicate HookCounts(w: World, p: Peer, at: Time) {
    || (w.hook.Waiting? && Counts(w.s, w.hook.h, p, at))
    || (w.late.Some? && Counts(w.s, w.late.value, p, at))
  }

  /** A packet that counts, and whose time is still stored, makes its peer active. */
  lemma CountsIsActive(s: State, h: Pending, p: Peer, at: Time)
    requires Counts(s, h, p, at) && Holds(s, h, h.at)
    ensures RecentlyActive(s, p, at - LAZY_PEER_IDLE_THRESHOLD)
  {
    var i :| 0 <= i < |p.allowedIPs| && p.allowedIPs[i].ip == h.ip;
    assert ActiveSince(s, p.disco, p.allowedIPs[i].ip, at - LAZY_PEER_IDLE_THRESHOLD);
  }

  lemma StaleActivity(w: World, p: Peer, i: nat, at: Time)
    requires Inv(w) && HookOk(w) && LateOk(w) && i < |p.allowedIPs| && Stale(w, p.allowedIPs[i].ip) && at >= w.now
    requires SentSince(w.s, p.allowedIPs[i].ip, at - LAZY_PEER_IDLE_THRESHOLD)
    ensures HookCounts(w, p, at)
  {
    assert Routes(p, p.allowedIPs[i].ip);
  }

  /** What can make a sleeping peer count as active: a packet just received from it, or a hook that counts for it. */
  lemma SleeperActivity(w: World, s: State, p: Peer, at: Time)
    requires Inv(w) && HookOk(w) && LateOk(w) && Sleeping(w, p) && at >= w.now
    requires s == w.s.(recvAt := s.recvAt)
    ensures RecentlyActive(s, p, at - LAZY_PEER_IDLE_THRESHOLD)
       <==> (p.allowedIPs != [] && RecvTime(s, p.disco) > at - LAZY_PEER_IDLE_THRESHOLD) || HookCounts(w, p, at)
  {
    var cutoff := at - LAZY_PEER_IDLE_THRESHOLD;
    forall i | 0 <= i < |p.allowedIPs| && SentSince(s, p.allowedIPs[i].ip, cutoff)
      ensures HookCounts(w, p, at)
    {
      StaleActivity(w, p, i, at);
    }
    if p.allowedIPs != [] && RecvTime(s, p.disco) > cutoff {
      assert ActiveSince(s, p.disco, p.allowedIPs[0].ip, cutoff);
    }
    if w.hook.Waiting? && Counts(w.s, w.hook.h, p, at) {
      CountsIsActive(s, w.hook.h, p, at);
    }
    if w.late.Some? && Counts(w.s, w.late.value, p, at) {
      CountsIsActive(s, w.late.value, p, at);
    }
  }

  /**
   Exactly when a packet received from a sleeping peer wakes it: the peer has an
   address and the two readings of the clock inside the call are less than the
   idle threshold apart, or a hook counts for it.
   */
  lemma ReceiveWakesExactly(w: World, force: bool, at: Time, later: Time, p: Peer)
    requires Reachable(w) && w.now <= at <= later
    requires p in w.s.full.peers && p !in w.s.device.peers && IsTrimmable(p, force)
    ensures p in Apply(w, Receive(p.disco, force, at, later)).s.device.peers
       <==> (p.allowedIPs != [] && later < at + LAZY_PEER_IDLE_THRESHOLD) || HookCounts(w, p, later)
  {
    ReachableInv(w);
    var t := w.s.(recvAt := w.s.recvAt[p.disco := at]);
    assert SigTie(t);
    SleeperActivity(w, t, p, later);
    ReconfigSettles(t, {}, force, later);
  }

  /**
   Exactly when the recheck of a packet hook wakes a sleeping peer: its packet,
   or that of the hook that stored late, was to an address of the peer, less
   than the idle threshold ago, and the address was not dropped and tracked
   anew in between.
   */
  lemma RecheckWakesExactly(w: World, force: bool, at: Time, p: Peer)
    requires Reachable(w) && Enabled(w, Recheck(force, at))
    requires p in w.s.full.peers && p !in w.s.device.peers && IsTrimmable(p, force)
    ensures p in Apply(w, Recheck(force, at)).s.device.peers <==> HookCounts(w, p, at)
  {
    ReachableInv(w);
    SleeperActivity(w, w.s, p, at);
    ReconfigSettles(w.s, {}, force, at);
  }

  /** When a hook's recheck finishes, every peer for which a hook counts is in the device, asleep before or not. */
  lemma RecheckWakes(w: World, force: bool, at: Time, p: Peer)
    requires Reachable(w) && Enabled(w, Recheck(force, at)) && p in w.s.full.peers && HookCounts(w, p, at)
    ensures p in Apply(w, Recheck(force, at)).s.device.peers
  {
    ReachableInv(w);
    var h := if w.hook.Waiting? && Counts(w.s, w.hook.h, p, at) then w.hook.h else w.late.value;
    CountsIsActive(w.s, h, p, at);
    ReconfigSettles(w.s, {}, force, at);
  }

  /** The hook's cell is still its address's, as it was when the hook was fetched. */
  predicate StillItsCell(s: State, h: Pending) { h.ip in s.sentAt ==> s.sentAt[h.ip] == h.cell }

  /** The last recomputation was at most four minutes after the hook read the clock. */
  predicate InTime(w: World, h: Pending) {
    LastSurvey(w) <= h.at + (LAZY_PEER_IDLE_THRESHOLD - PACKET_SEND_RECHECK_THRESHOLD)
  }

  /** The thresholds make the first packet to a stale address recheck. */
  lemma StaleSendRechecks(w: World)
    requires Inv(w) && HookOk(w) && LateOk(w) && w.hook.Loaded?
    requires Stale(w, w.hook.h.ip) && StillItsCell(w.s, w.hook.h) && InTime(w, w.hook.h)
    ensures Elapsed(w.hook.seen, w.hook.h.at) >= PACKET_SEND_RECHECK_THRESHOLD
  {
  }

  /**
   Once the lock-free part of a hook is done, a recheck is pending or the
   packet's peers are in the device, if the cell fetched is still the address's
   and the hook was not held up over a recomputation for more than four minutes.
   */
  lemma SendRechecksOrIsAwake(w: World, at: Time, p: Peer)
    requires Reachable(w) && Enabled(w, Store(at))
    requires p in w.s.full.peers && Routes(p, w.hook.h.ip)
    requires StillItsCell(w.s, w.hook.h) && InTime(w, w.hook.h)
    ensures var t := Apply(w, Store(at)); t.hook.Waiting? || p in t.s.device.peers
  {
    ReachableInv(w);
    var i :| 0 <= i < |p.allowedIPs| && p.allowedIPs[i].ip == w.hook.h.ip;
    if p !in w.s.device.peers {
      assert Sleeping(w, p) && Stale(w, p.allowedIPs[i].ip);
      StaleSendRechecks(w);
    }
  }

  /** The rest of a hook that has loaded its cell, if nothing comes in between. */
  function Finish(w: World, force: bool, at: Time): World
    requires Enabled(w, Store(at))
  {
    var t := Apply(w, Store(at));
    if t.hook.Waiting? then Apply(t, Recheck(force, at)) else t
  }

  /**
   Exactly when a hook that finishes wakes a sleeping peer: at least a minute
   had passed since the time it loaded, and its packet counts for the peer or
   that of a hook that stored late does.
   */
  lemma SendWakesExactly(w: World, force: bool, at: Time, p: Peer)
    requires Reachable(w) && Enabled(w, Store(at))
    requires p in w.s.full.peers && p !in w.s.device.peers && IsTrimmable(p, force)
    ensures p in Finish(w, force, at).s.device.peers
       <==> && Elapsed(w.hook.seen, w.hook.h.at) >= PACKET_SEND_RECHECK_THRESHOLD
            && (Counts(w.s, w.hook.h, p, at) || (w.late.Some? && Counts(w.s, w.late.value, p, at)))
  {
    ReachableInv(w);
    var t := Apply(w, Store(at));
    ReachesNext(w, Store(at));
    if t.hook.Waiting? {
      RecheckWakesExactly(t, force, at, p);
    }
  }

  // ---------------------------------------------------------------------
  // What is in the device
  // ---------------------------------------------------------------------

  /** The peer routes a subnet, or cannot be found by disco. */
  predicate CannotSleep(p: Peer) { p.disco == 0 || exists i :: 0 <= i < |p.allowedIPs| && !p.allowedIPs[i].isSingleIP }

  /** A packet was received from the peer, if it has an address, or sent to one of its addresses, after the time. */
  predicate UsedSince(s: State, p: Peer, t: Time) {
    || (p.allowedIPs != [] && RecvTime(s, p.disco) > t)
    || exists i :: 0 <= i < |p.allowedIPs| && SentSince(s, p.allowedIPs[i].ip, t)
  }

  lemma UsedIsActive(s: State, p: Peer, t: Time)
    ensures RecentlyActive(s, p, t) <==> UsedSince(s, p, t)
  {
    if p.allowedIPs != [] && RecvTime(s, p.disco) > t {
      assert ActiveSince(s, p.disco, p.allowedIPs[0].ip, t);
    }
    forall i | 0 <= i < |p.allowedIPs| && SentSince(s, p.allowedIPs[i].ip, t) ensures RecentlyActive(s, p, t) {
      assert ActiveSince(s, p.disco, p.allowedIPs[i].ip, t);
    }
  }

  lemma KeptMeans(s: State, p: Peer, force: bool, cutoff: Time)
    ensures Keep(s, p, force, cutoff) <==> force || CannotSleep(p) || UsedSince(s, p, cutoff)
  {
    UsedIsActive(s, p, cutoff);
  }

  /**
   After a recomputation a configured peer is in the device exactly if the full
   config is forced, the peer cannot sleep, or it was used in the five minutes
   before; then also the trimmed disco keys are those of the peers left out.
   */
  ghost predicate HoldsExactly(s: State, t: State, force: bool, now: Time) {
    && (forall p :: p in t.device.peers <==>
          p in s.full.peers && (force || CannotSleep(p) || UsedSince(s, p, now - LAZY_PEER_IDLE_THRESHOLD)))
    && TrimmedAreOut(t)
    && (force ==> t.device == s.full)
  }

  /** Some configured peer with this disco key is not in the device. */
  ghost predicate IsOut(s: State, dk: DiscoKey) {
    exists p :: p in s.full.peers && p !in s.device.peers && p.disco == dk
  }

  ghost predicate TrimmedAreOut(s: State) { forall dk :: dk in s.trimmed <==> IsOut(s, dk) }

  lemma {:induction false} AllKept(s: State, ps: seq<Peer>, cutoff: Time)
    ensures KeptPeers(s, ps, true, cutoff) == ps
  {
    if ps != [] {
      AllKept(s, ps[..|ps| - 1], cutoff);
    }
  }

  lemma RecomputationHolds(s: State, discoChanged: set<PublicKey>, force: bool, now: Time)
    requires Coherent(s) && SigTie(s)
    ensures HoldsExactly(s, MaybeReconfig(s, discoChanged, force, now), force, now)
  {
    ReconfigTies(s, discoChanged, force, now);
    SurveyHolds(s, MaybeReconfig(s, discoChanged, force, now), force, now);
  }

  lemma SurveyHolds(s: State, t: State, force: bool, now: Time)
    requires var g := Survey(s, force, now - LAZY_PEER_IDLE_THRESHOLD);
             t.full == s.full && t.device == g.min && t.trimmed == g.trimmed
    ensures HoldsExactly(s, t, force, now)
  {
    var cutoff := now - LAZY_PEER_IDLE_THRESHOLD;
    KeptPeersMembers(s, s.full.peers, force, cutoff);
    forall p
      ensures p in t.device.peers <==> p in s.full.peers && (force || CannotSleep(p) || UsedSince(s, p, cutoff))
    {
      KeptMeans(s, p, force, cutoff);
    }
    TrimmedAre(s, t, force, cutoff);
    if force { AllKept(s, s.full.peers, cutoff); }
  }

  lemma TrimmedAre(s: State, t: State, force: bool, cutoff: Time)
    requires t.full == s.full && t.trimmed == TrimmedDisco(s, s.full.peers, force, cutoff)
    requires forall p :: p in t.device.peers <==> p in s.full.peers && Keep(s, p, force, cutoff)
    ensures TrimmedAreOut(t)
  {
    forall dk | dk in t.trimmed ensures IsOut(t, dk) {
      var i :| 0 <= i < |s.full.peers| && !Keep(s, s.full.peers[i], force, cutoff) && s.full.peers[i].disco == dk;
      assert s.full.peers[i] in t.full.peers && s.full.peers[i] !in t.device.peers;
    }
    forall dk | IsOut(t, dk) ensures dk in t.trimmed {
      var p :| p in t.full.peers && p !in t.device.peers && p.disco == dk;
      var i :| 0 <= i < |s.full.peers| && s.full.peers[i] == p;
    }
  }

  /** In every run, every recomputation holds exactly the peers to hold: a changed config, a recheck, a packet from a trimmed peer. */
  lemma DeviceIsExact(w: World, step: Step)
    requires Reachable(w) && Enabled(w, step)
    ensures var t := Apply(w, step).s;
            && (step.Configure? && (w.s.fullSig != Some(step.cfg) || step.otherChanged) ==>
                  t.full == step.cfg && HoldsExactly(w.s.(full := step.cfg), t, step.force, step.at))
            && (step.Recheck? ==> t.full == w.s.full && HoldsExactly(w.s, t, step.force, step.at))
            && (step.Receive? && step.dk in w.s.trimmed ==>
                  t.full == w.s.full && HoldsExactly(w.s.(recvAt := w.s.recvAt[step.dk := step.at]), t, step.force, step.later))
  {
    ReachableInv(w);
    match step
    case Configure(cfg, otherChanged, force, at) =>
      if w.s.fullSig != Some(cfg) || otherChanged { ConfigureHolds(w.s, cfg, otherChanged, force, at); }
    case Receive(dk, force, at, later) =>
      if dk in w.s.trimmed { ReceiveHolds(w.s, dk, force, at, later); }
    case Recheck(force, at) =>
      ReconfigTies(w.s, {}, force, at);
      RecomputationHolds(w.s, {}, force, at);
    case Fetch(_, _) =>
    case Load(_) =>
    case Store(_) =>
  }

  lemma ConfigureHolds(s: State, cfg: Config, otherChanged: bool, force: bool, at: Time)
    requires Coherent(s) && SigTie(s) && (s.fullSig != Some(cfg) || otherChanged)
    ensures var t := Reconfig(s, cfg, otherChanged, force, at); t.full == cfg && HoldsExactly(s.(full := cfg), t, force, at)
  {
    var s1 := s.(fullSig := Some(cfg), full := cfg);
    var changed := DiscoChanged(PrevDisco(s.full.peers), cfg.peers);
    ReconfigTies(s1, changed, force, at);
    RecomputationHolds(s1, changed, force, at);
    SameUse(s.(full := cfg), s1);
  }

  lemma ReceiveHolds(s: State, dk: DiscoKey, force: bool, at: Time, later: Time)
    requires Coherent(s) && SigTie(s) && dk in s.trimmed
    ensures var t := NoteReceive(s, dk, force, at, later);
            t.full == s.full && HoldsExactly(s.(recvAt := s.recvAt[dk := at]), t, force, later)
  {
    var s1 := s.(recvAt := s.recvAt[dk := at]);
    assert SigTie(s1);
    ReconfigTies(s1, {}, force, later);
    RecomputationHolds(s1, {}, force, later);
  }

  lemma SameUse(s: State, t: State)
    requires s.recvAt == t.recvAt && s.sentAt == t.sentAt && s.cells == t.cells
    ensures forall p, x :: UsedSince(s, p, x) <==> UsedSince(t, p, x)
  {
    assert forall ip, x :: SentSince(s, ip, x) <==> SentSince(t, ip, x);
    assert forall dk :: RecvTime(s, dk) == RecvTime(t, dk);
  }

  /** A configured peer that cannot sleep is in the device; the trimmed disco keys are those of the peers left out. */
  ghost predicate OutMaySleep(s: State) {
    && (forall p :: p in s.full.peers && p !in s.device.peers ==> !CannotSleep(p))
    && TrimmedAreOut(s)
  }

  lemma StepKeepsOut(w: World, step: Step)
    requires Reachable(w) && Enabled(w, step) && OutMaySleep(w.s)
    ensures OutMaySleep(Apply(w, step).s)
  {
    DeviceIsExact(w, step);
    ReachableInv(w);
    var t := Apply(w, step).s;
    if t.full == w.s.full && t.device == w.s.device && t.trimmed == w.s.trimmed {
      SameOut(w.s, t);
    }
  }

  lemma SameOut(s: State, t: State)
    requires t.full == s.full && t.device == s.device && t.trimmed == s.trimmed && OutMaySleep(s)
    ensures OutMaySleep(t)
  {
    assert forall dk :: IsOut(s, dk) <==> IsOut(t, dk);
  }

  lemma {:induction false} RunKeepsOut(w: World, steps: seq<Step>)
    requires Reachable(w) && ValidRun(w, steps) && OutMaySleep(w.s)
    ensures OutMaySleep(Exec(w, steps).s)
    decreases steps
  {
    if steps != [] {
      StepKeepsOut(w, steps[0]);
      ReachesNext(w, steps[0]);
      RunKeepsOut(Apply(w, steps[0]), steps[1..]);
    }
  }

  /**
   In every reachable state a configured peer that routes a subnet, or has no
   disco key, is in the device, and a disco key is noted as trimmed exactly if
   some configured peer with it is not.
   */
  lemma SubnetRoutersStay(w: World)
    requires Reachable(w)
    ensures forall p :: p in w.s.full.peers && (p.disco == 0 || exists i :: 0 <= i < |p.allowedIPs| && !p.allowedIPs[i].isSingleIP) ==>
              p in w.s.device.peers
    ensures forall dk :: dk in w.s.trimmed <==> IsOut(w.s, dk)
  {
    var steps :| ValidRun(Init, steps) && Exec(Init, steps) == w;
    StartIsReachable();
    RunKeepsOut(Init, steps);
  }

  // What the device was given

  /** The device has the last config it was given. */
  ghost predicate LogOk(s: State) {
    if s.deviceLog == [] then s.device == Config([], 0) else s.device == s.deviceLog[|s.deviceLog| - 1]
  }

  lemma ReconfigKeepsLog(s: State, changed: set<PublicKey>, force: bool, now: Time)
    requires LogOk(s)
    ensures LogOk(MaybeReconfig(s, changed, force, now))
  {
  }

  lemma StepKeepsLog(w: World, step: Step)
    requires LogOk(w.s) && Enabled(w, step)
    ensures LogOk(Apply(w, step).s)
  {
    match step
    case Configure(cfg, _, force, at) =>
      ReconfigKeepsLog(w.s.(fullSig := Some(cfg), full := cfg), DiscoChanged(PrevDisco(w.s.full.peers), cfg.peers), force, at);
    case Receive(dk, force, at, later) => ReconfigKeepsLog(w.s.(recvAt := w.s.recvAt[dk := at]), {}, force, later);
    case Recheck(force, at) => ReconfigKeepsLog(w.s, {}, force, at);
    case Fetch(_, _) =>
    case Load(_) =>
    case Store(_) =>
  }

  lemma {:induction false} RunKeepsLog(w: World, steps: seq<Step>)
    requires ValidRun(w, steps) && LogOk(w.s)
    ensures LogOk(Exec(w, steps).s)
    decreases steps
  {
    if steps != [] {
      StepKeepsLog(w, steps[0]);
      RunKeepsLog(Apply(w, steps[0]), steps[1..]);
    }
  }

  /** In every run the device has the last config it was given, or none was given yet. */
  lemma DeviceHasLastConfig(w: World)
    requires Reachable(w)
    ensures LogOk(w.s)
  {
    var steps :| ValidRun(Init, steps) && Exec(Init, steps) == w;
    RunKeepsLog(Init, steps);
  }

  /** The config lists the public key with a non-zero disco key other than the one it was last listed with. */
  ghost predicate Restarted(prev: map<PublicKey, DiscoKey>, cfg: Config, pub: PublicKey) {
    exists k :: 0 <= k < |cfg.peers| && cfg.peers[k].pub == pub && cfg.peers[k].disco != 0 && pub in prev && prev[pub] != cfg.peers[k].disco
  }

  lemma ChangedAreRestarted(prev: map<PublicKey, DiscoKey>, cfg: Config, pub: PublicKey)
    ensures pub in DiscoChanged(prev, cfg.peers) <==> Restarted(prev, cfg, pub)
  {
  }

  /**
   Every config given to the device by a reconfiguration holds every peer of the
   last one that has not restarted, and no others: at most the restarted ones are
   left out, and only from the one before the last.
   */
  lemma OthersAreNotFlushed(w: World, cfg: Config, otherChanged: bool, force: bool, at: Time, i: nat, p: Peer)
    requires Reachable(w) && at >= w.now
    requires |w.s.deviceLog| <= i < |Reconfig(w.s, cfg, otherChanged, force, at).deviceLog|
    ensures var t := Reconfig(w.s, cfg, otherChanged, force, at);
            && |t.deviceLog| <= |w.s.deviceLog| + 2
            && (p in t.deviceLog[i].peers <==>
                  p in t.device.peers && (i == |t.deviceLog| - 1 || !Restarted(PrevDisco(w.s.full.peers), cfg, p.pub)))
  {
    var changed := DiscoChanged(PrevDisco(w.s.full.peers), cfg.peers);
    ChangedAreRestarted(PrevDisco(w.s.full.peers), cfg, p.pub);
    var s1 := w.s.(fullSig := Some(cfg), full := cfg);
    var g := Survey(s1, force, at - LAZY_PEER_IDLE_THRESHOLD);
    GivenConfigs(UpdateActivityMaps(s1.(sig := Some(g), trimmed := g.trimmed), g.trackDisco, g.trackIPs), g.min, changed, i, p);
  }

  lemma GivenConfigs(s: State, min: Config, changed: set<PublicKey>, i: nat, p: Peer)
    requires |s.deviceLog| <= i < |ConfigureDevice(s, min, changed).deviceLog|
    ensures var log := ConfigureDevice(s, min, changed).deviceLog;
            && |log| <= |s.deviceLog| + 2
            && (p in log[i].peers <==> p in min.peers && (i == |log| - 1 || p.pub !in changed))
  {
  }

  /** A recheck or a received packet gives the device at most one config. */
  lemma OnlyReconfigsFlush(w: World, step: Step)
    requires Reachable(w) && Enabled(w, step) && !step.Configure?
    ensures |Apply(w, step).s.deviceLog| <= |w.s.deviceLog| + 1
  {
    var none: set<PublicKey> := {};
    assert forall ps :: !AnyOf(ps, none);
  }

  /**
   A packet's time is stored for its address, or one less than ten seconds older
   is; a stored time is only replaced by one at least ten seconds newer.
   */
  lemma StoredTimeIsFresh(w: World, at: Time)
    requires Reachable(w) && Enabled(w, Store(at))
    ensures var h, before, after := w.hook.h, w.s.cells, Apply(w, Store(at)).s.cells;
            && |after| == |before| && h.cell < |before|
            && (after[h.cell] == h.at || (after[h.cell] == before[h.cell] && h.at < before[h.cell] + 10 * SECOND))
            && (after[h.cell] != before[h.cell] ==> before[h.cell] == 0 || h.at >= before[h.cell] + 10 * SECOND)
            && forall c :: 0 <= c < |before| && c != h.cell ==> after[c] == before[c]
  {
    ReachableInv(w);
  }

  // ---------------------------------------------------------------------
  // Runs in which a peer sleeps on
  // ---------------------------------------------------------------------

  /** A trimmable peer with one address, configured alone and not heard from. */
  predicate Solo(s: State, p: Peer, ip: IP) {
    p.disco != 0 && p.allowedIPs == [Prefix(ip, true)] && s.full.peers == [p] && RecvTime(s, p.disco) == 0
  }

  /** A recomputation keeps the address's time, or gives it a new cell, and keeps the peer if the time is recent. */
  lemma SoloSettles(s: State, p: Peer, ip: IP, changed: set<PublicKey>, at: Time)
    requires Coherent(s) && SigTie(s) && at >= CLOCK_BASE && Solo(s, p, ip)
    ensures var t := MaybeReconfig(s, changed, false, at);
            && Solo(t, p, ip) && Grows(s.cells, t.cells) && ip in t.sentAt
            && (if ip in s.sentAt then t.sentAt[ip] == s.sentAt[ip] else t.sentAt[ip] >= |s.cells|)
            && (p in t.device.peers <==> SentSince(s, ip, at - LAZY_PEER_IDLE_THRESHOLD))
  {
    ReconfigSettles(s, changed, false, at);
    ReconfigKeepsTimes(s, changed, false, at);
    ReconfigGrowsCells(s, changed, false, at);
    TracksTrimmable(s.full.peers, false);
    assert p in s.full.peers && IsTrimmable(p, false) && p.allowedIPs[0].ip == ip;
    assert RecentlyActive(s, p, at - LAZY_PEER_IDLE_THRESHOLD) <==> SentSince(s, ip, at - LAZY_PEER_IDLE_THRESHOLD);
  }

  /** With no peer left nothing is tracked. */
  lemma EmptySettles(s: State, changed: set<PublicKey>, at: Time)
    requires Coherent(s) && SigTie(s) && at >= CLOCK_BASE && s.full.peers == []
    ensures var t := MaybeReconfig(s, changed, false, at);
            t.full == s.full && t.fullSig == s.fullSig && t.sentAt == map[] && t.recvAt == map[] && Grows(s.cells, t.cells)
  {
    ReconfigSettles(s, changed, false, at);
    ReconfigGrowsCells(s, changed, false, at);
  }

  /** The peer is configured alone and was not sent a packet. */
  ghost predicate Fresh(w: World, p: Peer, ip: IP, from: nat) {
    && Reachable(w) && Solo(w.s, p, ip) && w.now == CLOCK_BASE && p !in w.s.device.peers && w.late.None?
    && ip in w.s.hooks && from <= w.s.hooks[ip] < |w.s.cells|
  }

  lemma PutIn(w: World, p: Peer, ip: IP)
    requires Reachable(w) && w.now == CLOCK_BASE && w.s.full.peers == [] && w.s.sentAt == map[] && w.s.recvAt == map[]
    requires p.disco != 0 && p.allowedIPs == [Prefix(ip, true)]
    ensures var t := Apply(w, Configure(Config([p], 0), false, false, CLOCK_BASE));
            Fresh(t, p, ip, |w.s.cells|) && t.hook == w.hook && Grows(w.s.cells, t.s.cells)
  {
    var step := Configure(Config([p], 0), false, false, CLOCK_BASE);
    ReachesNext(w, step);
    ReachableInv(w);
    ReachableInv(Apply(w, step));
    var s := w.s.(fullSig := Some(Config([p], 0)), full := Config([p], 0));
    SoloSettles(s, p, ip, DiscoChanged(PrevDisco(w.s.full.peers), [p]), CLOCK_BASE);
  }

  lemma TakeOut(w: World, p: Peer)
    requires Reachable(w) && w.now == CLOCK_BASE && w.s.full.peers == [p]
    ensures var t := Apply(w, Configure(Config([], 0), false, false, CLOCK_BASE));
            && Reachable(t) && t.now == CLOCK_BASE && t.s.full.peers == [] && t.s.sentAt == map[] && t.s.recvAt == map[]
            && t.hook == w.hook && Grows(w.s.cells, t.s.cells)
  {
    var step := Configure(Config([], 0), false, false, CLOCK_BASE);
    ReachesNext(w, step);
    ReachableInv(w);
    var s := w.s.(fullSig := Some(Config([], 0)), full := Config([], 0));
    EmptySettles(s, DiscoChanged(PrevDisco(w.s.full.peers), []), CLOCK_BASE);
  }

  /** The peer is taken out and put back while a hook for its address is under way, and sleeps on another cell. */
  lemma Replaced(w: World, p: Peer, ip: IP) returns (t: World)
    requires Reachable(w) && w.now == CLOCK_BASE && Solo(w.s, p, ip)
    ensures Fresh(t, p, ip, |w.s.cells|) && t.hook == w.hook && Grows(w.s.cells, t.s.cells)
  {
    TakeOut(w, p);
    var v := Apply(w, Configure(Config([], 0), false, false, CLOCK_BASE));
    PutIn(v, p, ip);
    t := Apply(v, Configure(Config([p], 0), false, false, CLOCK_BASE));
  }

  /** A packet is sent, and nothing interrupts its hook before the recheck. */
  lemma SendPacket(w: World, ip: IP, at: Time) returns (t: World)
    requires Reachable(w) && w.hook.Idle? && at >= w.now && ip in w.s.hooks
    ensures Reachable(t) && t.now == at && t.s == PacketHook(w.s, ip, at).0
    ensures var recheck := PacketHook(w.s, ip, at).1; t.hook == if recheck.Some? then Waiting(recheck.value) else Idle
  {
    UninterruptedHook(w, ip, at);
    ReachesNext(w, Fetch(ip, at));
    var w1 := Apply(w, Fetch(ip, at));
    ReachesNext(w1, Load(at));
    var w2 := Apply(w1, Load(at));
    ReachesNext(w2, Store(at));
    t := Apply(w2, Store(at));
  }

  /** The peer is configured and sent a packet, whose recheck is pending. */
  lemma FirstPacket(p: Peer, ip: IP) returns (w: World)
    requires p.disco != 0 && p.allowedIPs == [Prefix(ip, true)]
    ensures Reachable(w) && w.now == CLOCK_BASE && Solo(w.s, p, ip) && w.hook.Waiting?
    ensures w.hook.h.ip == ip && w.hook.h.at == CLOCK_BASE && ip in w.s.sentAt && w.s.sentAt[ip] == w.hook.h.cell
  {
    StartIsReachable();
    PutIn(Init, p, ip);
    var v := Apply(Init, Configure(Config([p], 0), false, false, CLOCK_BASE));
    ReachableInv(v);
    assert v.s.cells[v.s.hooks[ip]] <= CLOCK_BASE - LAZY_PEER_IDLE_THRESHOLD by {
      assert Sleeping(v, p) && Stale(v, p.allowedIPs[0].ip);
    }
    w := SendPacket(v, ip, CLOCK_BASE);
  }

  /** There is a run in which a peer is still asleep when the recheck of a packet just sent to it has finished. */
  lemma PeerSleepsThrough(p: Peer, ip: IP) returns (w: World)
    requires p.disco != 0 && p.allowedIPs == [Prefix(ip, true)]
    ensures Reachable(w) && Enabled(w, Recheck(false, CLOCK_BASE))
    ensures w.hook.h.ip == ip && w.hook.h.at == CLOCK_BASE && p in w.s.full.peers
    ensures p !in Apply(w, Recheck(false, CLOCK_BASE)).s.device.peers
  {
    var v := FirstPacket(p, ip);
    ReachableInv(v);
    w := Replaced(v, p, ip);
    ReachableInv(w);
    assert IsTrimmable(p, false) && p in w.s.full.peers;
    RecheckWakesExactly(w, false, CLOCK_BASE, p);
  }

  /** The peer is awake after its first packet, and the hook for the next has been fetched. */
  lemma SecondPacket(p: Peer, ip: IP) returns (w: World)
    requires p.disco != 0 && p.allowedIPs == [Prefix(ip, true)]
    ensures Reachable(w) && w.now == CLOCK_BASE && Solo(w.s, p, ip) && p in w.s.device.peers
    ensures w.hook.Fetched? && w.hook.ip == ip && ip in w.s.sentAt && w.s.sentAt[ip] == w.hook.cell < |w.s.cells|
    ensures w.s.cells[w.hook.cell] == CLOCK_BASE
  {
    var v := FirstPacket(p, ip);
    ReachableInv(v);
    SoloSettles(v.s, p, ip, {}, CLOCK_BASE);
    ReachesNext(v, Recheck(false, CLOCK_BASE));
    var v1 := Apply(v, Recheck(false, CLOCK_BASE));
    ReachableInv(v1);
    ReachesNext(v1, Fetch(ip, CLOCK_BASE));
    w := Apply(v1, Fetch(ip, CLOCK_BASE));
  }

  /** A hook that loaded a time less than a minute old does not recheck. */
  lemma QuickStore(w: World, at: Time)
    requires Enabled(w, Store(at)) && w.hook.seen != 0 && w.hook.h.at < w.hook.seen + PACKET_SEND_RECHECK_THRESHOLD
    ensures var t := Apply(w, Store(at)); t.hook.Idle? && t.s.full == w.s.full && t.s.device == w.s.device
  {
  }

  /** There is a run in which a hook finishes without a recheck one second after its peer, put back meanwhile, fell asleep. */
  lemma HookOutlivesItsCell(p: Peer, ip: IP) returns (w: World)
    requires p.disco != 0 && p.allowedIPs == [Prefix(ip, true)]
    ensures Reachable(w) && Enabled(w, Store(CLOCK_BASE + SECOND)) && w.hook.h == Pending(ip, w.hook.h.cell, CLOCK_BASE + SECOND)
    ensures InTime(w, w.hook.h) && !StillItsCell(w.s, w.hook.h)
    ensures var t := Apply(w, Store(CLOCK_BASE + SECOND)); t.hook.Idle? && p in t.s.full.peers && p !in t.s.device.peers
  {
    var v := SecondPacket(p, ip);
    var v1 := Replaced(v, p, ip);
    ReachableInv(v1);
    ReachesNext(v1, Load(CLOCK_BASE + SECOND));
    w := Apply(v1, Load(CLOCK_BASE + SECOND));
    assert p in w.s.full.peers;
    QuickStore(w, CLOCK_BASE + SECOND);
  }

  /** The peer is trimmed while a hook for its address is under way. */
  lemma FallsAsleep(w: World, p: Peer, ip: IP, at: Time) returns (t: World)
    requires Reachable(w) && Solo(w.s, p, ip) && at >= w.now
    requires ip in w.s.sentAt && w.s.sentAt[ip] < |w.s.cells| && w.s.cells[w.s.sentAt[ip]] <= at - LAZY_PEER_IDLE_THRESHOLD
    ensures Reachable(t) && t.now == at && LastSurvey(t) == at && t.hook == w.hook
    ensures Solo(t.s, p, ip) && p !in t.s.device.peers && Grows(w.s.cells, t.s.cells)
    ensures ip in t.s.sentAt && t.s.sentAt[ip] == w.s.sentAt[ip]
  {
    ReachableInv(w);
    var cfg := w.s.full;
    var s := w.s.(fullSig := Some(cfg));
    SoloSettles(s, p, ip, DiscoChanged(PrevDisco(cfg.peers), cfg.peers), at);
    ReachesNext(w, Configure(cfg, true, false, at));
    t := Apply(w, Configure(cfg, true, false, at));
  }

  /** There is a run in which a hook is held up while its peer is trimmed, and finishes without a recheck. */
  lemma HookIsHeldUp(p: Peer, ip: IP) returns (w: World)
    requires p.disco != 0 && p.allowedIPs == [Prefix(ip, true)]
    ensures Reachable(w) && Enabled(w, Store(CLOCK_BASE + LAZY_PEER_IDLE_THRESHOLD)) && w.hook.h.ip == ip
    ensures StillItsCell(w.s, w.hook.h) && !InTime(w, w.hook.h)
    ensures var t := Apply(w, Store(CLOCK_BASE + LAZY_PEER_IDLE_THRESHOLD));
            t.hook.Idle? && p in t.s.full.peers && p !in t.s.device.peers
  {
    var v := SecondPacket(p, ip);
    ReachesNext(v, Load(CLOCK_BASE + 30 * SECOND));
    var v1 := Apply(v, Load(CLOCK_BASE + 30 * SECOND));
    w := FallsAsleep(v1, p, ip, CLOCK_BASE + LAZY_PEER_IDLE_THRESHOLD);
    assert p in w.s.full.peers;
    QuickStore(w, CLOCK_BASE + LAZY_PEER_IDLE_THRESHOLD);
  }

  /** There is a run in which a packet received from a trimmed peer that has no address leaves it asleep. */
  lemma AddresslessPeerSleepsOn(p: Peer) returns (w: World)
    requires p.disco != 0 && p.allowedIPs == []
    ensures Reachable(w) && w.now == CLOCK_BASE && p in w.s.full.peers && p !in w.s.device.peers
    ensures p !in Apply(w, Receive(p.disco, false, CLOCK_BASE, CLOCK_BASE)).s.device.peers
  {
    StartIsReachable();
    var cfg := Config([p], 0);
    ReachesNext(Init, Configure(cfg, false, false, CLOCK_BASE));
    w := Apply(Init, Configure(cfg, false, false, CLOCK_BASE));
    var s := InitState.(fullSig := Some(cfg), full := cfg);
    ReconfigSettles(s, DiscoChanged(PrevDisco([]), [p]), false, CLOCK_BASE);
    assert IsTrimmable(p, false) && p in s.full.peers && !Keep(s, p, false, CLOCK_BASE - LAZY_PEER_IDLE_THRESHOLD);
    ReceiveWakesExactly(w, false, CLOCK_BASE, CLOCK_BASE, p);
  }

  /** In every run the hooks and the send-time table stay one, and the log line for an untracked idle peer is unreachable. */
  lemma ActivityMapsCoherent(w: World)
    requires Reachable(w)
    ensures && w.s.hooks == w.s.sentAt
            && (forall ip :: ip in w.s.hooks ==> w.s.hooks[ip] < |w.s.cells|)
            && (forall dk :: dk in w.s.trimmed ==> dk in w.s.recvAt)
  {
    ReachableInv(w);
  }

  /** After every recomputation in every run the device holds the config just computed, even when it was skipped as unchanged. */
  lemma SkipIsHarmless(w: World, discoChanged: set<PublicKey>, force: bool, now: Time)
    requires Reachable(w) && now >= w.now
    ensures MaybeReconfig(w.s, discoChanged, force, now).device == Survey(w.s, force, now - LAZY_PEER_IDLE_THRESHOLD).min
  {
    ReachableInv(w);
    ReconfigSettles(w.s, discoChanged, force, now);
  }

  /** Configuring a peer that must be flushed puts a config without it before the last one. */
  lemma FlushIsLogged(s: State, min: Config, changed: set<PublicKey>, p: Peer)
    requires p in min.peers && p.pub in changed
    ensures var log := ConfigureDevice(s, min, changed).deviceLog;
            && |log| == |s.deviceLog| + 2
            && forall q :: q in log[|s.deviceLog|].peers ==> q.pub != p.pub
  {
    var j :| 0 <= j < |min.peers| && min.peers[j] == p;
    assert AnyOf(min.peers, changed);
  }

  /**
   A peer that a reconfiguration brings into the device, with a non-zero disco
   key other than the one its public key was last listed with, is left out of a
   config given to the device just before, so an old session of it is flushed.
   */
  lemma RestartedPeerIsFlushed(w: World, cfg: Config, otherChanged: bool, force: bool, at: Time, p: Peer)
    requires Reachable(w) && at >= w.now && p.disco != 0
    requires p.pub in PrevDisco(w.s.full.peers) && PrevDisco(w.s.full.peers)[p.pub] != p.disco
    requires p !in w.s.device.peers && p in Reconfig(w.s, cfg, otherChanged, force, at).device.peers
    ensures var t := Reconfig(w.s, cfg, otherChanged, force, at);
            exists i :: |w.s.deviceLog| <= i < |t.deviceLog| - 1 && forall q :: q in t.deviceLog[i].peers ==> q.pub != p.pub
  {
    ReachableInv(w);
    var t := Reconfig(w.s, cfg, otherChanged, force, at);
    var s1 := w.s.(fullSig := Some(cfg), full := cfg);
    var changed := DiscoChanged(PrevDisco(w.s.full.peers), cfg.peers);
    ReconfigSettles(s1, changed, force, at);
    assert s1.device != t.device;
    var g := Survey(s1, force, at - LAZY_PEER_IDLE_THRESHOLD);
    assert p.pub in changed by {
      var k :| 0 <= k < |cfg.peers| && cfg.peers[k] == p;
    }
    FlushIsLogged(UpdateActivityMaps(s1.(sig := Some(g), trimmed := g.trimmed), g.trackDisco, g.trackIPs), g.min, changed, p);
  }

  ghost predicate DistinctKeys(ps: seq<Peer>) {
    forall i, j :: 0 <= i < |ps| && 0 <= j < |ps| && ps[i].pub == ps[j].pub ==> i == j
  }

  /** A public key's previous disco key is the one in its last listing with a non-zero one. */
  lemma {:induction false} PrevDiscoIsLast(ps: seq<Peer>, i: nat)
    requires i < |ps| && ps[i].disco != 0
    requires forall k :: i < k < |ps| && ps[k].pub == ps[i].pub ==> ps[k].disco == 0
    ensures ps[i].pub in PrevDisco(ps) && PrevDisco(ps)[ps[i].pub] == ps[i].disco
  {
    var n := |ps| - 1;
    if i < n {
      assert forall k :: 0 <= k < n ==> ps[..n][k] == ps[k];
      PrevDiscoIsLast(ps[..n], i);
    }
  }

  lemma {:induction false} PrevDiscoWasListed(ps: seq<Peer>, pub: PublicKey)
    requires pub in PrevDisco(ps)
    ensures exists i :: 0 <= i < |ps| && ps[i].pub == pub && ps[i].disco != 0
  {
    var n := |ps| - 1;
    if ps[n].disco == 0 || ps[n].pub != pub {
      PrevDiscoWasListed(ps[..n], pub);
      var i :| 0 <= i < |ps[..n]| && ps[..n][i].pub == pub && ps[..n][i].disco != 0;
      assert ps[i] == ps[..n][i];
    }
  }

  /**
   With each public key listed once before, a peer whose non-zero disco key
   changes is flushed when it is in the device before and after.
   */
  lemma ChangedPeerIsFlushed(w: World, cfg: Config, otherChanged: bool, force: bool, at: Time, before: Peer, after: Peer)
    requires Reachable(w) && at >= w.now && DistinctKeys(w.s.full.peers)
    requires before in w.s.device.peers && after in Reconfig(w.s, cfg, otherChanged, force, at).device.peers
    requires before.pub == after.pub && before.disco != after.disco && before.disco != 0 && after.disco != 0
    ensures var t := Reconfig(w.s, cfg, otherChanged, force, at);
            exists i :: |w.s.deviceLog| <= i < |t.deviceLog| - 1 && forall q :: q in t.deviceLog[i].peers ==> q.pub != after.pub
  {
    ReachableInv(w);
    var i :| 0 <= i < |w.s.full.peers| && w.s.full.peers[i] == before;
    PrevDiscoIsLast(w.s.full.peers, i);
    assert after !in w.s.full.peers;
    RestartedPeerIsFlushed(w, cfg, otherChanged, force, at, after);
  }
}
