/**
 A map session: incremental responses go in, complete network maps come out.
 The session keeps nodes in the heap, edits them in place and hands them out;
 what it hands out agrees with a fold over plain maps, and stays as it was.
 */
module MapSession {
  import opened Common
  import opened PeerDelta

  type UserID = int

  datatype UserProfile = UserProfile(id: UserID, displayName: string)

  datatype DNSConfig = DNSConfig(nameservers: seq<string>, domains: seq<string>, proxied: bool, other: string)

  const NO_DNS := DNSConfig([], [], false, "")

  datatype MachineStatus = MachineUnknown | MachineUnauthorized | MachineAuthorized

  /** What the session is given once: options, and the functions that are not part of this model. */
  datatype Env = Env(
    keepSharerAndUserSplit: bool,
    proxyDNS: bool,
    magicDNSSuffix: string -> string,
    displayNames: (Fixed, string) -> string,
    parseFilter: seq<string> -> seq<string>)

  // ---------------------------------------------------------------------
  // Responses and network maps as values
  // ---------------------------------------------------------------------

  datatype Peer = Peer(id: NodeID, info: Info)

  /** A response: fields that are None, empty or "" leave things as they are. */
  datatype Resp = Resp(
    peers: map<NodeID, Info>, changed: map<NodeID, Info>, removed: set<NodeID>,
    seen: map<NodeID, bool>, online: map<NodeID, bool>, now: int, rest: RespRest)

  /** The fields that are plain values in the response, too, and the self node. */
  datatype RespRest = RespRest(
    node: Option<Peer>, derpMap: Option<string>, packetFilter: Option<seq<string>>, dnsConfig: Option<DNSConfig>,
    collectServices: Option<bool>, domain: string, userProfiles: seq<UserProfile>,
    dns: seq<string>, searchPaths: seq<string>, debug: Option<string>)

  /** What a session remembers besides the peers and the self node. */
  datatype Memory = Memory(
    dns: DNSConfig, derpMap: Option<string>, filter: seq<string>, collectServices: bool, domain: string,
    profiles: map<UserID, UserProfile>)

  datatype Session = Session(peers: map<NodeID, Info>, node: Option<Peer>, memory: Memory)

  const START := Session(map[], None, Memory(NO_DNS, None, [], false, "", map[]))

  /** The self node's fields, spread over the network map. */
  datatype Self = Self(
    name: string, expiry: Option<int>, addresses: seq<int>, user: UserID, hostinfo: Option<int>, status: MachineStatus)

  /** The fields of a network map that hold no nodes. */
  datatype Plain = Plain(
    domain: string, dns: DNSConfig, filter: seq<string>, collectServices: bool, derpMap: Option<string>,
    debug: Option<string>, self: Self)

  datatype NetMap = NetMap(
    peers: map<NodeID, Info>, selfNode: Option<Peer>, plain: Plain, profiles: map<UserID, UserProfile>)

  // ---------------------------------------------------------------------
  // The fold over plain maps
  // ---------------------------------------------------------------------

  function Or<T>(o: Option<T>, d: T): T { if o.Some? then o.value else d }

  function OrElse<T>(o: Option<T>, d: Option<T>): Option<T> { if o.Some? then o else d }

  /** A response with peers is complete and its deltas are ignored; one without is a delta. */
  function NextPeers(peers: map<NodeID, Info>, r: Resp): map<NodeID, Info> {
    if r.peers != map[] then r.peers
    else Marked(Replayed(peers, r.changed, r.removed), r.seen, r.online, r.now)
  }

  function AddProfiles(profiles: map<UserID, UserProfile>, ups: seq<UserProfile>): map<UserID, UserProfile> {
    if ups == [] then profiles
    else var up := ups[|ups| - 1]; AddProfiles(profiles, ups[..|ups| - 1])[up.id := up]
  }

  function NextMemory(env: Env, m: Memory, r: RespRest): Memory {
    Memory(
      Or(r.dnsConfig, m.dns),
      OrElse(r.derpMap, m.derpMap),
      if r.packetFilter.Some? then env.parseFilter(r.packetFilter.value) else m.filter,
      Or(r.collectServices, m.collectServices),
      if r.domain != "" then r.domain else m.domain,
      AddProfiles(m.profiles, r.userProfiles))
  }

  function Next(env: Env, s: Session, r: Resp): Session {
    Session(NextPeers(s.peers, r), OrElse(r.rest.node, s.node), NextMemory(env, s.memory, r.rest))
  }

  /** The session after all these responses. */
  function After(env: Env, rs: seq<Resp>): Session {
    if rs == [] then START else Next(env, After(env, rs[..|rs| - 1]), rs[|rs| - 1])
  }

  function SelfOf(node: Option<Peer>): Self {
    match node
    case None => Self("", None, [], 0, None, MachineUnknown)
    case Some(Peer(_, x)) =>
      Self(x.fixed.name, Some(x.fixed.keyExpiry), x.fixed.addresses, x.user, Some(x.fixed.hostinfo),
           if x.fixed.machineAuthorized then MachineAuthorized else MachineUnauthorized)
  }

  function Named(env: Env, x: Info, suffix: string): Info {
    x.(displayNames := Some(env.displayNames(x.fixed, suffix)))
  }

  /** A peer as handed out: with its names, and belonging to its sharer unless the two are kept apart. */
  function Presented(env: Env, x: Info, suffix: string): Info {
    var y := Named(env, x, suffix);
    if x.sharer != 0 && !env.keepSharerAndUserSplit then y.(user := x.sharer) else y
  }

  /** The users a presented peer refers to. */
  function UsersOf(env: Env, x: Info): set<UserID> {
    if x.sharer != 0 && env.keepSharerAndUserSplit then {x.user, x.sharer} else {x.user}
  }

  function NamedSelf(env: Env, node: Option<Peer>): Option<Peer> {
    if node.None? then None
    else Some(Peer(node.value.id, Named(env, node.value.info, env.magicDNSSuffix(SelfOf(node).name))))
  }

  function Suffix(env: Env, s: Session): string { env.magicDNSSuffix(SelfOf(s.node).name) }

  function PresentedAll(env: Env, m: map<NodeID, Info>, suffix: string): map<NodeID, Info> {
    map id | id in m :: Presented(env, m[id], suffix)
  }

  function PresentedPeers(env: Env, s: Session): map<NodeID, Info> {
    PresentedAll(env, s.peers, Suffix(env, s))
  }

  function UsersOfAll(env: Env, peers: map<NodeID, Info>): set<UserID> {
    set id, u | id in peers && u in UsersOf(env, peers[id]) :: u
  }

  function Users(env: Env, s: Session): set<UserID> {
    {SelfOf(s.node).user} + UsersOfAll(env, PresentedPeers(env, s))
  }

  /** The profiles of these users, as far as they are known. */
  function Restricted(profiles: map<UserID, UserProfile>, users: set<UserID>): map<UserID, UserProfile> {
    map u | u in profiles && u in users :: profiles[u]
  }

  function WithOverrides(env: Env, dns: DNSConfig, r: RespRest): DNSConfig {
    DNSConfig(
      if |r.dns| > 0 then r.dns else dns.nameservers,
      if |r.searchPaths| > 0 then r.searchPaths else dns.domains,
      dns.proxied || env.proxyDNS,
      dns.other)
  }

  /** The network map for a session that has just taken in response r. */
  function Inflate(env: Env, s: Session, r: Resp): NetMap {
    NetMap(
      PresentedPeers(env, s),
      NamedSelf(env, s.node),
      Plain(s.memory.domain, WithOverrides(env, s.memory.dns, r.rest), s.memory.filter,
            s.memory.collectServices, s.memory.derpMap, r.rest.debug, SelfOf(s.node)),
      Restricted(s.memory.profiles, Users(env, s)))
  }

  /** Each remembered value is the latest that any response carried. */
  lemma {:induction false} LatestWins(env: Env, rs: seq<Resp>, i: nat)
    requires i < |rs|
    ensures (forall k :: i < k < |rs| ==> rs[k].rest.node.None?) && rs[i].rest.node.Some? ==>
              After(env, rs).node == rs[i].rest.node
    ensures (forall k :: i < k < |rs| ==> rs[k].rest.derpMap.None?) && rs[i].rest.derpMap.Some? ==>
              After(env, rs).memory.derpMap == rs[i].rest.derpMap
    ensures (forall k :: i < k < |rs| ==> rs[k].rest.dnsConfig.None?) && rs[i].rest.dnsConfig.Some? ==>
              After(env, rs).memory.dns == rs[i].rest.dnsConfig.value
    ensures (forall k :: i < k < |rs| ==> rs[k].rest.domain == "") && rs[i].rest.domain != "" ==>
              After(env, rs).memory.domain == rs[i].rest.domain
    ensures (forall k :: i < k < |rs| ==> rs[k].rest.collectServices.None?) && rs[i].rest.collectServices.Some? ==>
              After(env, rs).memory.collectServices == rs[i].rest.collectServices.value
    ensures (forall k :: i < k < |rs| ==> rs[k].rest.packetFilter.None?) && rs[i].rest.packetFilter.Some? ==>
              After(env, rs).memory.filter == env.parseFilter(rs[i].rest.packetFilter.value)
  {
    var before := rs[..|rs| - 1];
    if i < |rs| - 1 {
      assert forall k :: 0 <= k < |before| ==> before[k] == rs[k];
      LatestWins(env, before, i);
    }
  }

  lemma {:induction false} ProfileAdded(profiles: map<UserID, UserProfile>, ups: seq<UserProfile>, k: nat)
    requires k < |ups| && forall j :: k < j < |ups| ==> ups[j].id != ups[k].id
    ensures ups[k].id in AddProfiles(profiles, ups) && AddProfiles(profiles, ups)[ups[k].id] == ups[k]
  {
    if k < |ups| - 1 { ProfileAdded(profiles, ups[..|ups| - 1], k); }
  }

  lemma {:induction false} ProfileStays(profiles: map<UserID, UserProfile>, ups: seq<UserProfile>, u: UserID)
    requires u in profiles && forall j :: 0 <= j < |ups| ==> ups[j].id != u
    ensures u in AddProfiles(profiles, ups) && AddProfiles(profiles, ups)[u] == profiles[u]
  {
    if ups != [] { ProfileStays(profiles, ups[..|ups| - 1], u); }
  }

  /** A user's profile is the last one that any response carried for that user. */
  lemma {:induction false} LatestProfile(env: Env, rs: seq<Resp>, i: nat, k: nat)
    requires i < |rs| && k < |rs[i].rest.userProfiles|
    requires forall j :: k < j < |rs[i].rest.userProfiles| ==> rs[i].rest.userProfiles[j].id != rs[i].rest.userProfiles[k].id
    requires forall m, j :: i < m < |rs| && 0 <= j < |rs[m].rest.userProfiles| ==>
               rs[m].rest.userProfiles[j].id != rs[i].rest.userProfiles[k].id
    ensures var up, profiles := rs[i].rest.userProfiles[k], After(env, rs).memory.profiles;
            up.id in profiles && profiles[up.id] == up
  {
    var before, r := rs[..|rs| - 1], rs[|rs| - 1];
    var profiles := After(env, before).memory.profiles;
    if i < |rs| - 1 {
      assert forall m :: 0 <= m < |before| ==> before[m] == rs[m];
      LatestProfile(env, before, i, k);
      ProfileStays(profiles, r.rest.userProfiles, rs[i].rest.userProfiles[k].id);
    } else {
      ProfileAdded(profiles, r.rest.userProfiles, k);
    }
  }

  /** What no response carried is as at the start. */
  lemma {:induction false} NothingCarried(env: Env, rs: seq<Resp>)
    ensures (forall k :: 0 <= k < |rs| ==> rs[k].rest.node.None?) ==> After(env, rs).node.None?
    ensures (forall k :: 0 <= k < |rs| ==> rs[k].rest.derpMap.None?) ==> After(env, rs).memory.derpMap.None?
    ensures (forall k :: 0 <= k < |rs| ==> rs[k].rest.dnsConfig.None?) ==> After(env, rs).memory.dns == NO_DNS
    ensures (forall k :: 0 <= k < |rs| ==> rs[k].rest.domain == "") ==> After(env, rs).memory.domain == ""
    ensures (forall k :: 0 <= k < |rs| ==> rs[k].rest.collectServices.None?) ==> !After(env, rs).memory.collectServices
    ensures (forall k :: 0 <= k < |rs| ==> rs[k].rest.packetFilter.None?) ==> After(env, rs).memory.filter == []
  {
    if rs != [] {
      var before := rs[..|rs| - 1];
      assert forall k :: 0 <= k < |before| ==> before[k] == rs[k];
      NothingCarried(env, before);
    }
  }

  /** Some response carried this profile. */
  ghost predicate Carried(rs: seq<Resp>, up: UserProfile) {
    exists i :: 0 <= i < |rs| && up in rs[i].rest.userProfiles
  }

  lemma {:induction false} AddedIsOldOrNew(profiles: map<UserID, UserProfile>, ups: seq<UserProfile>, u: UserID)
    requires u in AddProfiles(profiles, ups)
    ensures var up := AddProfiles(profiles, ups)[u]; (up in ups && up.id == u) || (u in profiles && profiles[u] == up)
  {
    if ups != [] && ups[|ups| - 1].id != u { AddedIsOldOrNew(profiles, ups[..|ups| - 1], u); }
  }

  /** A profile that the session has for a user was carried for that user. */
  lemma {:induction false} ProfilesWereCarried(env: Env, rs: seq<Resp>, u: UserID)
    requires u in After(env, rs).memory.profiles
    ensures var up := After(env, rs).memory.profiles[u]; up.id == u && Carried(rs, up)
  {
    var before, r := rs[..|rs| - 1], rs[|rs| - 1];
    var past := After(env, before).memory.profiles;
    AddedIsOldOrNew(past, r.rest.userProfiles, u);
    var up := After(env, rs).memory.profiles[u];
    if !(up in r.rest.userProfiles && up.id == u) {
      ProfilesWereCarried(env, before, u);
      var i :| 0 <= i < |before| && up in before[i].rest.userProfiles;
      assert rs[i] == before[i];
    }
  }

  /** A peer nobody mentions again is still what the last mention made it. */
  lemma {:induction false} PeersPersist(env: Env, rs: seq<Resp>, i: nat, id: NodeID)
    requires i <= |rs|
    requires forall k :: i <= k < |rs| ==> rs[k].peers == map[] && Silent(rs[k], id)
    ensures var past, now := After(env, rs[..i]).peers, After(env, rs).peers;
            (id in now <==> id in past) && (id in past ==> now[id] == past[id])
  {
    if i < |rs| {
      var before := rs[..|rs| - 1];
      assert before[..i] == rs[..i];
      PeersPersist(env, before, i, id);
    } else {
      assert rs[..i] == rs;
    }
  }

  predicate Silent(r: Resp, id: NodeID) {
    id !in r.changed && id !in r.removed && id !in r.seen && id !in r.online
  }

  // ---------------------------------------------------------------------
  // What the responses decide about a peer
  // ---------------------------------------------------------------------

  /** The response settles whether a peer is there: a full list does for every ID, a delta for those it changes or removes. */
  predicate Settles(r: Resp, id: NodeID) { r.peers != map[] || id in r.changed || id in r.removed }

  /** The node a response lists for an ID, if any: in its full list, or else among the changed. */
  function Listed(r: Resp, id: NodeID): Option<Info> {
    var list := if r.peers != map[] then r.peers else r.changed;
    if id in list then Some(list[id]) else None
  }

  /** A delta that says whether the peer was seen, and one that says whether it is online. */
  predicate TellsSeen(r: Resp, id: NodeID) { r.peers == map[] && id in r.seen }

  predicate TellsOnline(r: Resp, id: NodeID) { r.peers == map[] && id in r.online }

  /**
   A peer is in the session exactly if the last response that settles its ID
   lists it, and apart from its last-seen time and its online flag it is the
   node listed there.
   */
  lemma {:induction false} LastMentionDecides(env: Env, rs: seq<Resp>, i: nat, id: NodeID)
    requires i < |rs| && Settles(rs[i], id)
    requires forall k :: i < k < |rs| ==> !Settles(rs[k], id)
    ensures var peers, listed := After(env, rs).peers, Listed(rs[i], id);
            && (id in peers <==> listed.Some?)
            && (id in peers ==> peers[id] == listed.value.(lastSeen := peers[id].lastSeen, online := peers[id].online))
  {
    if i < |rs| - 1 {
      var before := rs[..|rs| - 1];
      assert forall k :: 0 <= k < |before| ==> before[k] == rs[k];
      LastMentionDecides(env, before, i, id);
    }
  }

  /** A peer whose ID no response settles is not in the session. */
  lemma {:induction false} NeverMentioned(env: Env, rs: seq<Resp>, id: NodeID)
    requires forall k :: 0 <= k < |rs| ==> !Settles(rs[k], id)
    ensures id !in After(env, rs).peers
  {
    if rs != [] {
      var before := rs[..|rs| - 1];
      assert forall k :: 0 <= k < |before| ==> before[k] == rs[k];
      NeverMentioned(env, before, id);
    }
  }

  /**
   A peer's last-seen time is what the last delta since its listing told, the
   time of that delta or none; if no delta told, it is the listed one.
   */
  lemma {:induction false} LastSeenIsLastTold(env: Env, rs: seq<Resp>, i: nat, j: nat, id: NodeID)
    requires i <= j < |rs| && Settles(rs[i], id) && id in After(env, rs).peers
    requires forall k :: i < k < |rs| ==> !Settles(rs[k], id)
    requires forall k :: j < k < |rs| ==> !TellsSeen(rs[k], id)
    ensures var x := After(env, rs).peers[id];
            && (TellsSeen(rs[j], id) ==> x.lastSeen == if rs[j].seen[id] then Some(rs[j].now) else None)
            && (j == i && !TellsSeen(rs[i], id) ==> Listed(rs[i], id).Some? && x.lastSeen == Listed(rs[i], id).value.lastSeen)
  {
    var before, past := rs[..|rs| - 1], After(env, rs[..|rs| - 1]).peers;
    if j < |rs| - 1 {
      assert forall k :: 0 <= k < |before| ==> before[k] == rs[k];
      SilentKeeps(past, rs[|rs| - 1], id);
      LastSeenIsLastTold(env, before, i, j, id);
    } else {
      LastResponseTells(past, rs[j], id);
    }
  }

  /** A response that does not settle the ID keeps the peer, apart from what it tells of it. */
  lemma SilentKeeps(past: map<NodeID, Info>, r: Resp, id: NodeID)
    requires !Settles(r, id)
    ensures id in NextPeers(past, r) <==> id in past
    ensures id in past && !TellsSeen(r, id) ==> NextPeers(past, r)[id].lastSeen == past[id].lastSeen
    ensures id in past && !TellsOnline(r, id) ==> NextPeers(past, r)[id].online == past[id].online
  {
  }

  /** What a response that has the peer tells of it, or else lists. */
  lemma LastResponseTells(past: map<NodeID, Info>, r: Resp, id: NodeID)
    requires id in NextPeers(past, r)
    ensures var x := NextPeers(past, r)[id];
            && (TellsSeen(r, id) ==> x.lastSeen == if r.seen[id] then Some(r.now) else None)
            && (TellsOnline(r, id) ==> x.online == Some(r.online[id]))
            && (Settles(r, id) ==>
                  && Listed(r, id).Some?
                  && (!TellsSeen(r, id) ==> x.lastSeen == Listed(r, id).value.lastSeen)
                  && (!TellsOnline(r, id) ==> x.online == Listed(r, id).value.online))
  {
  }

  /** A peer's online flag is what the last delta since its listing told; if none told, it is the listed one. */
  lemma {:induction false} OnlineIsLastTold(env: Env, rs: seq<Resp>, i: nat, j: nat, id: NodeID)
    requires i <= j < |rs| && Settles(rs[i], id) && id in After(env, rs).peers
    requires forall k :: i < k < |rs| ==> !Settles(rs[k], id)
    requires forall k :: j < k < |rs| ==> !TellsOnline(rs[k], id)
    ensures var x := After(env, rs).peers[id];
            && (TellsOnline(rs[j], id) ==> x.online == Some(rs[j].online[id]))
            && (j == i && !TellsOnline(rs[i], id) ==> Listed(rs[i], id).Some? && x.online == Listed(rs[i], id).value.online)
  {
    var before, past := rs[..|rs| - 1], After(env, rs[..|rs| - 1]).peers;
    if j < |rs| - 1 {
      assert forall k :: 0 <= k < |before| ==> before[k] == rs[k];
      SilentKeeps(past, rs[|rs| - 1], id);
      OnlineIsLastTold(env, before, i, j, id);
    } else {
      LastResponseTells(past, rs[j], id);
    }
  }

  /** A response as it comes over the wire: its lists may be in any order, but no ID is twice in one list. */
  datatype Wire = Wire(
    peers: seq<Peer>, changed: seq<Peer>, removed: seq<NodeID>,
    seen: map<NodeID, bool>, online: map<NodeID, bool>, now: int, rest: RespRest)

  ghost predicate DistinctPeers(ps: seq<Peer>) {
    forall i, j :: 0 <= i < j < |ps| ==> ps[i].id != ps[j].id
  }

  ghost predicate WellFormed(w: Wire) { DistinctPeers(w.peers) && DistinctPeers(w.changed) }

  function ToMap(ps: seq<Peer>): map<NodeID, Info> {
    if ps == [] then map[] else ToMap(ps[..|ps| - 1])[ps[|ps| - 1].id := ps[|ps| - 1].info]
  }

  ghost function Value(w: Wire): Resp {
    Resp(ToMap(w.peers), ToMap(w.changed), IDSet(w.removed), w.seen, w.online, w.now, w.rest)
  }

  lemma {:induction false} ToMapHolds(ps: seq<Peer>, p: Peer)
    requires DistinctPeers(ps)
    ensures p in ps <==> p.id in ToMap(ps) && ToMap(ps)[p.id] == p.info
  {
    if ps != [] {
      var n := |ps| - 1;
      ToMapHolds(ps[..n], p);
      assert ps == ps[..n] + [ps[n]];
      if p.id in ToMap(ps[..n]) { ToMapKeys(ps[..n], p.id); }
    }
  }

  lemma {:induction false} ToMapKeys(ps: seq<Peer>, id: NodeID)
    requires id in ToMap(ps)
    ensures exists p :: p in ps && p.id == id
  {
    var n := |ps| - 1;
    if id == ps[n].id {
      assert ps[n] in ps;
    } else {
      ToMapKeys(ps[..n], id);
      var p :| p in ps[..n] && p.id == id;
      assert p in ps;
    }
  }

  /** A response as a value holds exactly what came over the wire. */
  lemma ValueIsWire(w: Wire, p: Peer, id: NodeID)
    requires WellFormed(w)
    ensures var r := Value(w);
            && (p in w.peers <==> p.id in r.peers && r.peers[p.id] == p.info)
            && (p in w.changed <==> p.id in r.changed && r.changed[p.id] == p.info)
            && (id in w.removed <==> id in r.removed)
            && r.seen == w.seen && r.online == w.online && r.now == w.now && r.rest == w.rest
  {
    ToMapHolds(w.peers, p);
    ToMapHolds(w.changed, p);
  }

  // ---------------------------------------------------------------------
  // Responses and network maps in the heap
  // ---------------------------------------------------------------------

  class MapResponse {
    var peers: seq<Node>
    var peersChanged: seq<Node>
    var peersRemoved: seq<NodeID>
    const peerSeenChange: map<NodeID, bool>
    const onlineChange: map<NodeID, bool>
    const node: Node?
    const derpMap: Option<string>
    const packetFilter: Option<seq<string>>
    const dnsConfig: Option<DNSConfig>
    const collectServices: Option<bool>
    const domain: string
    const userProfiles: seq<UserProfile>
    const dns: seq<string>
    const searchPaths: seq<string>
    const debug: Option<string>

    constructor (w: Wire, peers: seq<Node>, peersChanged: seq<Node>, node: Node?)
      ensures this.peers == peers && this.peersChanged == peersChanged && this.node == node
      ensures peersRemoved == w.removed && peerSeenChange == w.seen && onlineChange == w.online
      ensures nodes == (set n | n in peers) + (set n | n in peersChanged)
      ensures CarriesRest(w.rest.(node := NodeValue(node)))
    {
      this.peers, this.peersChanged, peersRemoved, this.node := peers, peersChanged, w.removed, node;
      peerSeenChange, onlineChange := w.seen, w.online;
      var r := w.rest;
      derpMap, packetFilter, dnsConfig := r.derpMap, r.packetFilter, r.dnsConfig;
      collectServices, domain, userProfiles := r.collectServices, r.domain, r.userProfiles;
      dns, searchPaths, debug := r.dns, r.searchPaths, r.debug;
      nodes := (set n | n in peers) + (set n | n in peersChanged);
    }

    /** Gives the response its full list; a delta is then dropped. */
    method Complete(full: seq<Node>)
      modifies this`peers, this`peersChanged, this`peersRemoved
      ensures peers == full
      ensures old(|peers|) == 0 ==> peersChanged == [] && peersRemoved == []
      ensures old(|peers|) > 0 ==> peersChanged == old(peersChanged) && peersRemoved == old(peersRemoved)
    {
      if |peers| == 0 {
        peersChanged, peersRemoved := [], [];
      }
      peers := full;
    }

    /** The nodes it came with, other than the self node; the session may edit or keep these. */
    ghost const nodes: set<Node>

    /** The response carries this value: distinct IDs in each list, and a self node of its own. */
    ghost predicate Carries(r: Resp)
      reads this`peers, this`peersChanged, this`peersRemoved, nodes`info, (if node == null then {} else {node})`info
    {
      CarriesPeers(r) && node !in nodes && CarriesRest(r.rest)
    }

    ghost predicate CarriesPeers(r: Resp)
      reads this`peers, this`peersChanged, this`peersRemoved, nodes`info
    {
      && (forall n | n in peers :: n in nodes) && (forall n | n in peersChanged :: n in nodes)
      && DistinctIDs(peers) && Table(peers) == r.peers
      && DistinctIDs(peersChanged) && Table(peersChanged) == r.changed
      && r.removed == IDSet(peersRemoved)
      && r.seen == peerSeenChange && r.online == onlineChange
    }

    ghost predicate CarriesRest(r: RespRest)
      reads (if node == null then {} else {node})`info
    {
      && r.node == NodeValue(node)
      && r == RespRest(
                r.node, derpMap, packetFilter, dnsConfig, collectServices, domain, userProfiles,
                dns, searchPaths, debug)
    }
  }

  ghost function NodeValue(n: Node?): Option<Peer>
    reads (if n == null then {} else {n})`info
  {
    if n == null then None else Some(Peer(n.id, n.info))
  }

  class NetworkMap {
    const peers: seq<Node>
    var selfNode: Node?
    var plain: Plain
    var userProfiles: map<UserID, UserProfile>

    constructor (peers: seq<Node>, plain: Plain)
      ensures this.peers == peers && selfNode == null && this.plain == plain && userProfiles == map[]
    {
      this.peers, this.plain := peers, plain;
      selfNode, userProfiles := null, map[];
    }

    ghost function Nodes(): set<Node>
      reads this
    {
      (set n | n in peers) + if selfNode == null then {} else {selfNode}
    }

    /** The map shows this value: peers in ID order, and everything else as it is. */
    ghost predicate Shows(v: NetMap)
      reads this, Nodes()`info
    {
      && StrictlySorted(peers) && Table(peers) == v.peers
      && NodeValue(selfNode) == v.selfNode
      && plain == v.plain
      && userProfiles == v.profiles
    }
  }

  // ---------------------------------------------------------------------
  // Undoing the delta
  // ---------------------------------------------------------------------

  /** The size hint of the merged list must not be negative. */
  predicate Room(peers: map<NodeID, Info>, r: Resp) {
    r.peers == map[] ==> |r.removed| <= |peers.Keys|
  }

  ghost function IDSet(ids: seq<NodeID>): set<NodeID> { set id | id in ids }

  method RemovedSet(ids: seq<NodeID>) returns (removed: set<NodeID>)
    ensures removed == IDSet(ids)
  {
    removed := {};
    for i := 0 to |ids|
      invariant removed == IDSet(ids[..i])
    {
      removed := removed + {ids[i]};
    }
    assert ids[..|ids|] == ids;
  }

  method SortedNodes(v: seq<Node>) returns (w: seq<Node>)
    requires DistinctIDs(v)
    ensures StrictlySorted(w) && Table(w) == Table(v)
    ensures forall n :: n in w <==> n in v
  {
    w := v;
    var sorted := NodesSorted(w);
    if !sorted {
      w := SortNodes(w);
      TableHolds(v);
      forall id | id in Table(v)
        ensures id in IDs(w)
      {
        assert id in IDs(v);
      }
      TableIs(w, Table(v));
    }
  }

  /** The delta part: drops the removed, takes the changed, keeps the order. */
  method ApplyDelta(prev: seq<Node>, peersChanged: seq<Node>, peersRemoved: seq<NodeID>) returns (newFull: seq<Node>)
    requires StrictlySorted(prev) && DistinctIDs(peersChanged)
    requires |IDSet(peersRemoved)| <= |prev|
    ensures StrictlySorted(newFull)
    ensures Table(newFull) == Replayed(Table(prev), Table(peersChanged), IDSet(peersRemoved))
    ensures forall n :: n in newFull ==> n in prev || n in peersChanged
  {
    var removed := RemovedSet(peersRemoved);
    var changed := SortedNodes(peersChanged);
    newFull := prev;
    if removed != {} || |changed| > 0 {
      var capacity: nat := |prev| - |removed|;  // the size hint for the new list
      newFull := MergeDelta(prev, changed, removed);
      MergeIsReplay(prev, changed, removed, newFull);
      assert forall n :: n in newFull ==> Merged(n, prev, changed, removed);
    } else {
      assert Replayed(Table(prev), Table(changed), removed) == Table(prev);
    }
  }

  method DeltaPeers(prev: seq<Node>, changed: seq<Node>, removed: seq<NodeID>,
                    seen: map<NodeID, bool>, online: map<NodeID, bool>, now: int)
    returns (newFull: seq<Node>)
    requires StrictlySorted(prev) && DistinctIDs(changed)
    requires |IDSet(removed)| <= |prev|
    modifies prev`info, changed`info
    ensures StrictlySorted(newFull)
    ensures Table(newFull) == Marked(Replayed(old(Table(prev)), old(Table(changed)), IDSet(removed)), seen, online, now)
    ensures forall n :: n in newFull ==> n in prev || n in changed
  {
    newFull := ApplyDelta(prev, changed, removed);
    assert forall i :: 0 <= i < |newFull| ==> newFull[i] in prev || newFull[i] in changed;
    MarkPeers(newFull, seen, online, now);
  }

  /** The complete list of peers: the response's own, or else what its delta makes of the previous one. */
  method FullPeers(resp: MapResponse, prev: seq<Node>, now: int, ghost r: Resp) returns (full: seq<Node>)
    requires resp.CarriesPeers(r) && r.now == now
    requires StrictlySorted(prev) && Room(Table(prev), r)
    modifies resp.nodes`info, prev`info
    ensures StrictlySorted(full) && Table(full) == NextPeers(old(Table(prev)), r)
    ensures forall n :: n in full ==> n in resp.nodes || n in prev
  {
    TableSize(resp.peers);
    if |resp.peers| > 0 {
      full := SortedNodes(resp.peers);
    } else {
      TableSize(prev);
      full := DeltaPeers(
        prev, resp.peersChanged, resp.peersRemoved, resp.peerSeenChange, resp.onlineChange, now);
    }
  }

  /** Makes the response's peer list complete; a delta is then used up. */
  method UndeltaPeers(resp: MapResponse, prev: seq<Node>, now: int, ghost r: Resp)
    requires resp.CarriesPeers(r) && r.now == now
    requires StrictlySorted(prev) && Room(Table(prev), r)
    modifies resp`peers, resp`peersChanged, resp`peersRemoved, resp.nodes`info, prev`info
    ensures StrictlySorted(resp.peers) && Table(resp.peers) == NextPeers(old(Table(prev)), r)
    ensures forall n :: n in resp.peers ==> n in resp.nodes || n in prev
    ensures old(|resp.peers|) == 0 ==> resp.peersChanged == [] && resp.peersRemoved == []
    ensures old(|resp.peers|) > 0 ==> resp.peersChanged == old(resp.peersChanged) && resp.peersRemoved == old(resp.peersRemoved)
  {
    var full := FullPeers(resp, prev, now, r);
    ghost var m := Table(full);
    resp.Complete(full);
    assert Table(full) == m;
  }

  /** The complete list, and copies of it for the session to keep. */
  method PeersToShowAndKeep(resp: MapResponse, prev: seq<Node>, now: int, ghost r: Resp)
    returns (peers: seq<Node>, copies: seq<Node>)
    requires resp.CarriesPeers(r) && r.now == now
    requires StrictlySorted(prev) && Room(Table(prev), r)
    modifies resp`peers, resp`peersChanged, resp`peersRemoved, resp.nodes`info, prev`info
    ensures StrictlySorted(peers) && Table(peers) == NextPeers(old(Table(prev)), r)
    ensures StrictlySorted(copies) && Table(copies) == Table(peers)
    ensures forall n :: n in peers ==> n in resp.nodes || n in prev
    ensures forall n :: n in copies ==> fresh(n)
  {
    UndeltaPeers(resp, prev, now, r);
    peers := resp.peers;
    copies := CloneNodes(peers);
  }

  // ---------------------------------------------------------------------
  // The session
  // ---------------------------------------------------------------------

  /** The users that these nodes refer to. */
  ghost function UsersIn(env: Env, v: seq<Node>): set<UserID>
    reads v`info
  {
    if v == [] then {} else UsersIn(env, v[..|v| - 1]) + UsersOf(env, v[|v| - 1].info)
  }

  lemma UsersOfOneMore(env: Env, m: map<NodeID, Info>, id: NodeID, x: Info)
    requires id !in m
    ensures UsersOfAll(env, m[id := x]) == UsersOfAll(env, m) + UsersOf(env, x)
  {
    var more := m[id := x];
    forall u
      ensures u in UsersOfAll(env, more) <==> u in UsersOfAll(env, m) + UsersOf(env, x)
    {
      if u in UsersOf(env, x) {
        assert u in UsersOf(env, more[id]);
      } else if u in UsersOfAll(env, m) {
        var k :| k in m && u in UsersOf(env, m[k]);
        assert u in UsersOf(env, more[k]);
      }
    }
  }

  lemma {:induction false} UsersInTable(env: Env, v: seq<Node>)
    requires DistinctIDs(v)
    ensures UsersIn(env, v) == UsersOfAll(env, Table(v))
  {
    if v != [] {
      var k := |v| - 1;
      UsersInTable(env, v[..k]);
      TableHolds(v[..k]);
      assert v[k].id !in Table(v[..k]);
      UsersOfOneMore(env, Table(v[..k]), v[k].id, v[k].info);
    }
  }

  /** Presenting nodes one by one is presenting their table. */
  lemma PresentedTable(env: Env, v: seq<Node>, m: map<NodeID, Info>, suffix: string)
    requires DistinctIDs(v)
    requires forall n | n in v :: n.id in m && n.info == Presented(env, m[n.id], suffix)
    requires forall id | id in m :: id in IDs(v)
    ensures Table(v) == PresentedAll(env, m, suffix)
  {
    TableIs(v, PresentedAll(env, m, suffix));
  }

  class MapSession {
    const env: Env
    var lastNode: Node?
    var last: Memory  // the fields that keep the last value of something
    var previousPeers: seq<Node>
    var netMapBuilding: NetworkMap?
    ghost var model: Session

    constructor (env: Env)
      ensures Valid() && this.env == env && model == START
      ensures previousPeers == [] && lastNode == null
    {
      this.env := env;
      lastNode, previousPeers, netMapBuilding := null, [], null;
      last := Memory(NO_DNS, None, [], false, "", map[]);
      model := START;
    }

    /** The fields hold what the model says; the self node is not among the peers. */
    ghost predicate Valid()
      reads this`last, this`lastNode, this`previousPeers, this`model,
            previousPeers`info, (if lastNode == null then {} else {lastNode})`info
    {
      && StrictlySorted(previousPeers) && Table(previousPeers) == model.peers
      && NodeValue(lastNode) == model.node
      && lastNode !in previousPeers
      && last == model.memory
    }

    /** Takes over what the response says; what it leaves out stays. */
    method Remember(resp: MapResponse, ghost r: RespRest)
      requires resp.CarriesRest(r)
      modifies this`last
      ensures last == NextMemory(env, old(last), r)
    {
      for i := 0 to |resp.userProfiles|
        invariant last == old(last).(profiles := AddProfiles(old(last).profiles, resp.userProfiles[..i]))
      {
        assert resp.userProfiles[..i + 1][..i] == resp.userProfiles[..i];
        last := last.(profiles := last.profiles[resp.userProfiles[i].id := resp.userProfiles[i]]);
      }
      assert resp.userProfiles[..|resp.userProfiles|] == resp.userProfiles;
      if resp.derpMap.Some? { last := last.(derpMap := resp.derpMap); }
      if resp.packetFilter.Some? { last := last.(filter := env.parseFilter(resp.packetFilter.value)); }
      if resp.dnsConfig.Some? { last := last.(dns := resp.dnsConfig.value); }
      if resp.collectServices.Some? { last := last.(collectServices := resp.collectServices.value); }
      if resp.domain != "" { last := last.(domain := resp.domain); }
    }

    method AddUserProfile(userID: UserID, ghost users: set<UserID>)
      requires netMapBuilding != null
      requires netMapBuilding.userProfiles == Restricted(last.profiles, users)
      modifies netMapBuilding`userProfiles
      ensures netMapBuilding.userProfiles == Restricted(last.profiles, users + {userID})
    {
      var nm := netMapBuilding;
      if userID in nm.userProfiles { return; }
      if userID in last.profiles {
        nm.userProfiles := nm.userProfiles[userID := last.profiles[userID]];
      }
    }

    /** Puts a copy of the self node, and its fields, into the map being built. */
    method FillSelf(nm: NetworkMap)
      requires nm.plain.self == SelfOf(None) && nm.selfNode == null
      modifies nm`selfNode, nm`plain
      ensures nm.plain == old(nm.plain).(self := SelfOf(NodeValue(lastNode)))
      ensures NodeValue(nm.selfNode) == NodeValue(lastNode)
      ensures nm.selfNode != null ==> fresh(nm.selfNode)
    {
      if lastNode != null {
        var node := lastNode.Clone();
        nm.selfNode := node;
        var fixed := node.info.fixed;
        nm.plain := nm.plain.(self := Self(
          fixed.name, Some(fixed.keyExpiry), fixed.addresses, node.info.user, Some(fixed.hostinfo),
          if fixed.machineAuthorized then MachineAuthorized else MachineUnauthorized));
      }
    }

    /** Names one peer, settles whom it belongs to, and adds the profiles it refers to. */
    method PresentPeer(peer: Node, suffix: string, ghost users: set<UserID>)
      requires netMapBuilding != null
      requires netMapBuilding.userProfiles == Restricted(last.profiles, users)
      modifies peer`info, netMapBuilding`userProfiles
      ensures peer.info == Presented(env, old(peer.info), suffix)
      ensures netMapBuilding.userProfiles == Restricted(last.profiles, users + UsersOf(env, peer.info))
    {
      peer.info := Named(env, peer.info, suffix);
      ghost var users' := users;
      if peer.info.sharer != 0 {
        if env.keepSharerAndUserSplit {
          AddUserProfile(peer.info.sharer, users);
          users' := users' + {peer.info.sharer};
        } else {
          peer.info := peer.info.(user := peer.info.sharer);
        }
      }
      AddUserProfile(peer.info.user, users');
      assert users' + {peer.info.user} == users + UsersOf(env, peer.info);
    }

    /** Presents peer after peer, and adds the profiles of exactly the users that they then refer to. */
    method PresentPeers(peers: seq<Node>, suffix: string, ghost base: set<UserID>)
      requires DistinctIDs(peers) && netMapBuilding != null
      requires netMapBuilding.userProfiles == Restricted(last.profiles, base)
      modifies peers`info, netMapBuilding`userProfiles
      ensures netMapBuilding.userProfiles == Restricted(last.profiles, base + UsersIn(env, peers))
      ensures forall n | n in peers :: n.info == Presented(env, old(n.info), suffix)
    {
      ghost var users := base;
      assert base + UsersIn(env, peers[..0]) == base;
      for i := 0 to |peers|
        invariant netMapBuilding.userProfiles == Restricted(last.profiles, users)
        invariant users == base + UsersIn(env, peers[..i])
        invariant forall k :: i <= k < |peers| ==> peers[k].info == old(peers[k].info)
        invariant forall k :: 0 <= k < i ==> peers[k].info == Presented(env, old(peers[k].info), suffix)
      {
        assert peers[..i + 1][..i] == peers[..i];
        ghost var before := UsersIn(env, peers[..i]);
        PresentPeer(peers[i], suffix, users);
        assert UsersIn(env, peers[..i]) == before;
        users := users + UsersOf(env, peers[i].info);
      }
      assert peers[..|peers|] == peers;
    }

    method PresentAll(peers: seq<Node>, suffix: string, ghost base: set<UserID>)
      requires DistinctIDs(peers) && netMapBuilding != null
      requires netMapBuilding.userProfiles == Restricted(last.profiles, base)
      modifies peers`info, netMapBuilding`userProfiles
      ensures Table(peers) == PresentedAll(env, old(Table(peers)), suffix)
      ensures netMapBuilding.userProfiles == Restricted(last.profiles, base + UsersOfAll(env, Table(peers)))
    {
      ghost var m := Table(peers);
      TableHolds(peers);
      PresentPeers(peers, suffix, base);
      PresentedTable(env, peers, m, suffix);
      UsersInTable(env, peers);
    }

    /**
     The network map for a response. The map shows what the fold over plain maps
     gives, and the session has moved on with it. Only the response and its nodes
     and the session and its peers are written to; from then on the session holds
     fresh copies, while the nodes it held before belong to the map.
     */
    method NetmapForResponse(resp: MapResponse, now: int, ghost r: Resp) returns (nm: NetworkMap)
      requires Valid() && resp.Carries(r) && r.now == now
      requires Room(model.peers, r)
      requires lastNode !in resp.nodes && resp.node !in previousPeers
      modifies this`previousPeers, this`lastNode, this`model, this`last, this`netMapBuilding,
               previousPeers`info, resp`peers, resp`peersChanged, resp`peersRemoved, resp.nodes`info
      ensures Valid() && model == Next(env, old(model), r)
      ensures fresh(nm) && nm.Shows(Inflate(env, model, r))
      ensures forall n :: n in nm.peers ==> n in old(previousPeers) || n in resp.nodes
      ensures nm.selfNode != null ==> fresh(nm.selfNode)
      ensures forall n :: n in previousPeers ==> fresh(n) && n !in nm.peers && n != nm.selfNode
      ensures lastNode == (if resp.node != null then resp.node else old(lastNode)) && lastNode !in nm.peers
    {
      var peers := Absorb(resp, now, r);
      nm := InflateMap(peers, resp, r);
    }

    /** The map for the session as it now is; the session is not affected. */
    method InflateMap(peers: seq<Node>, resp: MapResponse, ghost r: Resp) returns (nm: NetworkMap)
      requires Valid() && StrictlySorted(peers) && Table(peers) == model.peers
      requires lastNode !in peers && forall n :: n in previousPeers ==> n !in peers
      requires resp.dns == r.rest.dns && resp.searchPaths == r.rest.searchPaths && resp.debug == r.rest.debug
      modifies this`netMapBuilding, peers`info
      ensures Valid()
      ensures fresh(nm) && nm.peers == peers && nm.Shows(Inflate(env, model, r))
      ensures nm.selfNode != null ==> fresh(nm.selfNode)
    {
      nm := BuildMap(peers, resp, model, r);
      StillValid();
    }

    /** Takes the response in. */
    method Absorb(resp: MapResponse, now: int, ghost r: Resp) returns (peers: seq<Node>)
      requires Valid() && resp.Carries(r) && r.now == now
      requires Room(model.peers, r)
      requires lastNode !in resp.nodes && resp.node !in previousPeers
      modifies this`previousPeers, this`lastNode, this`model, this`last,
               previousPeers`info, resp`peers, resp`peersChanged, resp`peersRemoved, resp.nodes`info
      ensures Valid() && model == Next(env, old(model), r)
      ensures StrictlySorted(peers) && Table(peers) == model.peers
      ensures forall n :: n in peers ==> n in old(previousPeers) || n in resp.nodes
      ensures forall n :: n in previousPeers ==> fresh(n) && n !in peers
      ensures lastNode == if resp.node != null then resp.node else old(lastNode)
    {
      peers := TakePeers(resp, now, r);
      ghost var m := Table(peers);
      KeepRest(resp, r.rest);
      assert Table(peers) == m;
    }

    /** The session depends on its own peers and self node only. */
    twostate lemma StillValid()
      requires old(Valid())
      requires previousPeers == old(previousPeers) && lastNode == old(lastNode)
      requires model == old(model) && last == old(last)
      requires forall n :: n in previousPeers ==> n.info == old(n.info)
      requires NodeValue(lastNode) == old(NodeValue(lastNode))
      ensures Valid()
    {
      SameTableAfter(previousPeers);
    }

    /** Takes the peers in. The complete list is the response's from now on; the session keeps copies. */
    method TakePeers(resp: MapResponse, now: int, ghost r: Resp) returns (peers: seq<Node>)
      requires Valid() && resp.CarriesPeers(r) && r.now == now
      requires Room(model.peers, r)
      requires resp.node !in resp.nodes && resp.node !in previousPeers && lastNode !in resp.nodes
      modifies this`previousPeers, this`model,
               previousPeers`info, resp`peers, resp`peersChanged, resp`peersRemoved, resp.nodes`info
      ensures Valid() && model == old(model).(peers := NextPeers(old(model).peers, r))
      ensures StrictlySorted(peers) && Table(peers) == model.peers
      ensures forall n :: n in peers ==> n in old(previousPeers) || n in resp.nodes
      ensures forall n :: n in previousPeers ==> fresh(n) && n !in peers
      ensures NodeValue(resp.node) == old(NodeValue(resp.node))
    {
      peers := ReplacePeers(resp, now, r);
    }

    method ReplacePeers(resp: MapResponse, now: int, ghost r: Resp) returns (peers: seq<Node>)
      requires resp.CarriesPeers(r) && r.now == now
      requires StrictlySorted(previousPeers) && Table(previousPeers) == model.peers && Room(model.peers, r)
      modifies this`previousPeers, this`model,
               previousPeers`info, resp`peers, resp`peersChanged, resp`peersRemoved, resp.nodes`info
      ensures model == old(model).(peers := NextPeers(old(model).peers, r))
      ensures StrictlySorted(previousPeers) && Table(previousPeers) == model.peers
      ensures StrictlySorted(peers) && Table(peers) == model.peers
      ensures forall n :: n in peers ==> n in old(previousPeers) || n in resp.nodes
      ensures forall n :: n in previousPeers ==> fresh(n) && n !in peers
    {
      ghost var next := model.(peers := NextPeers(model.peers, r));
      var copies;
      peers, copies := PeersToShowAndKeep(resp, previousPeers, now, r);
      assert Table(copies) == Table(peers) == next.peers;
      Keep(copies, next);
      assert Table(copies) == Table(peers) == next.peers;
    }

    method Keep(copies: seq<Node>, ghost next: Session)
      modifies this`previousPeers, this`model
      ensures previousPeers == copies && model == next
    {
      previousPeers, model := copies, next;
    }

    /** Takes the rest in: the memory and the self node. */
    method KeepRest(resp: MapResponse, ghost r: RespRest)
      requires Valid() && resp.CarriesRest(r) && resp.node !in previousPeers
      modifies this`lastNode, this`model, this`last
      ensures Valid()
      ensures model == Session(old(model).peers, OrElse(r.node, old(model).node), NextMemory(env, old(model).memory, r))
      ensures lastNode == if resp.node != null then resp.node else old(lastNode)
    {
      Remember(resp, r);
      if resp.node != null { lastNode := resp.node; }
      model := Session(model.peers, OrElse(r.node, model.node), NextMemory(env, model.memory, r));
    }

    /** Builds the map from the session as it now is. */
    method BuildMap(peers: seq<Node>, resp: MapResponse, ghost s: Session, ghost r: Resp) returns (nm: NetworkMap)
      requires StrictlySorted(peers) && Table(peers) == s.peers
      requires NodeValue(lastNode) == s.node && last == s.memory
      requires resp.dns == r.rest.dns && resp.searchPaths == r.rest.searchPaths && resp.debug == r.rest.debug
      modifies this`netMapBuilding, peers`info
      ensures fresh(nm) && nm.peers == peers && nm.Shows(Inflate(env, s, r))
      ensures nm.selfNode != null ==> fresh(nm.selfNode)
    {
      nm := StartMap(peers, resp.debug);
      FinishPeers(nm);
      OverrideDNS(nm, resp, r.rest);
      netMapBuilding := null;
    }

    method StartMap(peers: seq<Node>, debug: Option<string>) returns (nm: NetworkMap)
      modifies this`netMapBuilding
      ensures fresh(nm) && netMapBuilding == nm && nm.peers == peers
      ensures nm.plain == Plain(
                            last.domain, last.dns, last.filter, last.collectServices, last.derpMap, debug,
                            SelfOf(NodeValue(lastNode)))
      ensures NodeValue(nm.selfNode) == NamedSelf(env, NodeValue(lastNode))
      ensures nm.selfNode != null ==> fresh(nm.selfNode)
      ensures nm.userProfiles == Restricted(last.profiles, {nm.plain.self.user})
    {
      nm := new NetworkMap(peers, Plain(
        last.domain, last.dns, last.filter, last.collectServices, last.derpMap, debug, SelfOf(None)));
      netMapBuilding := nm;
      FillSelf(nm);
      AddUserProfile(nm.plain.self.user, {});
      assert {} + {nm.plain.self.user} == {nm.plain.self.user};
      if nm.selfNode != null {
        nm.selfNode.info := Named(env, nm.selfNode.info, env.magicDNSSuffix(nm.plain.self.name));
      }
    }

    method FinishPeers(nm: NetworkMap)
      requires netMapBuilding == nm && nm.selfNode !in nm.peers && StrictlySorted(nm.peers)
      requires nm.userProfiles == Restricted(last.profiles, {nm.plain.self.user})
      modifies nm.peers`info, nm`userProfiles
      ensures var all := PresentedAll(env, old(Table(nm.peers)), env.magicDNSSuffix(nm.plain.self.name));
              && Table(nm.peers) == all
              && nm.userProfiles == Restricted(last.profiles, {nm.plain.self.user} + UsersOfAll(env, all))
      ensures NodeValue(nm.selfNode) == old(NodeValue(nm.selfNode))
    {
      var suffix := env.magicDNSSuffix(nm.plain.self.name);
      PresentAll(nm.peers, suffix, {nm.plain.self.user});
    }

    method OverrideDNS(nm: NetworkMap, resp: MapResponse, ghost r: RespRest)
      requires resp.dns == r.dns && resp.searchPaths == r.searchPaths
      modifies nm`plain
      ensures nm.plain == old(nm.plain).(dns := WithOverrides(env, old(nm.plain).dns, r))
    {
      var dns := nm.plain.dns;
      if |resp.dns| > 0 { dns := dns.(nameservers := resp.dns); }
      if |resp.searchPaths| > 0 { dns := dns.(domains := resp.searchPaths); }
      if env.proxyDNS { dns := dns.(proxied := true); }
      nm.plain := nm.plain.(dns := dns);
    }
  }

  // ---------------------------------------------------------------------
  // Whole sessions
  // ---------------------------------------------------------------------

  /** The network map for the last of these responses. */
  function LastMap(env: Env, rs: seq<Resp>): NetMap
    requires rs != []
  {
    Inflate(env, After(env, rs), rs[|rs| - 1])
  }

  /** The map refers to a user: as its own, as a peer's, or as a sharer kept apart. */
  ghost predicate RefersTo(env: Env, nm: NetMap, u: UserID) {
    || u == nm.plain.self.user
    || exists id :: id in nm.peers && (nm.peers[id].user == u || (env.keepSharerAndUserSplit && nm.peers[id].sharer == u != 0))
  }

  /**
   The map's peers are the session's, named with the suffix of the map's own
   name, and a shared peer belongs to its sharer unless the two are kept apart.
   */
  lemma MapShowsPeers(env: Env, rs: seq<Resp>, id: NodeID)
    requires rs != []
    ensures var nm, peers := LastMap(env, rs), After(env, rs).peers;
            && (id in nm.peers <==> id in peers)
            && (id in peers ==>
                  var x := nm.peers[id];
                  && x.sharer == peers[id].sharer && x.fixed == peers[id].fixed
                  && x.lastSeen == peers[id].lastSeen && x.online == peers[id].online
                  && x.displayNames == Some(env.displayNames(x.fixed, env.magicDNSSuffix(nm.plain.self.name)))
                  && (x.sharer != 0 && !env.keepSharerAndUserSplit ==> x.user == x.sharer)
                  && (x.sharer == 0 || env.keepSharerAndUserSplit ==> x.user == peers[id].user))
  {
  }

  /** The map's profiles are those known of exactly the users that it refers to. */
  lemma MapShowsProfiles(env: Env, rs: seq<Resp>, u: UserID)
    requires rs != []
    ensures var nm, known := LastMap(env, rs), After(env, rs).memory.profiles;
            && (u in nm.profiles <==> u in known && RefersTo(env, nm, u))
            && (u in nm.profiles ==> nm.profiles[u] == known[u])
  {
    var nm, s := LastMap(env, rs), After(env, rs);
    assert nm.peers == PresentedPeers(env, s);
    if RefersTo(env, nm, u) && u != nm.plain.self.user {
      var id :| id in nm.peers && (nm.peers[id].user == u || (env.keepSharerAndUserSplit && nm.peers[id].sharer == u != 0));
      assert u in UsersOf(env, nm.peers[id]);
      assert u in UsersOfAll(env, nm.peers);
    }
    if u in UsersOfAll(env, nm.peers) {
      var id :| id in nm.peers && u in UsersOf(env, nm.peers[id]);
      assert RefersTo(env, nm, u);
    }
  }

  /** The map's own fields are those of its self node, which is the session's with its name filled in. */
  lemma MapShowsSelf(env: Env, rs: seq<Resp>)
    requires rs != []
    ensures var nm, node := LastMap(env, rs), After(env, rs).node;
            var self := nm.plain.self;
            && (nm.selfNode.Some? <==> node.Some?)
            && (nm.selfNode.None? ==> self == Self("", None, [], 0, None, MachineUnknown))
            && (nm.selfNode.Some? ==>
                  var me := nm.selfNode.value;
                  && me == Peer(node.value.id, node.value.info.(displayNames := me.info.displayNames))
                  && me.info.displayNames == Some(env.displayNames(me.info.fixed, env.magicDNSSuffix(self.name)))
                  && self.name == me.info.fixed.name && self.expiry == Some(me.info.fixed.keyExpiry)
                  && self.addresses == me.info.fixed.addresses && self.user == me.info.user
                  && self.hostinfo == Some(me.info.fixed.hostinfo) && !self.status.MachineUnknown?
                  && (self.status.MachineAuthorized? <==> me.info.fixed.machineAuthorized))
  {
  }

  /**
   The rest of the map is what the session remembers, except for the servers and
   search paths that its own response gives, which are not remembered.
   */
  lemma MapShowsRest(env: Env, rs: seq<Resp>)
    requires rs != []
    ensures var plain, m, r := LastMap(env, rs).plain, After(env, rs).memory, rs[|rs| - 1].rest;
            && plain.domain == m.domain && plain.filter == m.filter && plain.collectServices == m.collectServices
            && plain.derpMap == m.derpMap && plain.debug == r.debug && plain.dns.other == m.dns.other
            && (r.dns != [] ==> plain.dns.nameservers == r.dns)
            && (r.dns == [] ==> plain.dns.nameservers == m.dns.nameservers)
            && (r.searchPaths != [] ==> plain.dns.domains == r.searchPaths)
            && (r.searchPaths == [] ==> plain.dns.domains == m.dns.domains)
            && (plain.dns.proxied <==> m.dns.proxied || env.proxyDNS)
  {
  }

  /** All maps of a session. */
  function Maps(env: Env, rs: seq<Resp>): seq<NetMap> {
    if rs == [] then [] else Maps(env, rs[..|rs| - 1]) + [LastMap(env, rs)]
  }

  lemma {:induction false} MapsAre(env: Env, rs: seq<Resp>)
    ensures |Maps(env, rs)| == |rs|
    ensures forall i :: 0 <= i < |rs| ==> Maps(env, rs)[i] == LastMap(env, rs[..i + 1])
  {
    if rs != [] {
      var before := rs[..|rs| - 1];
      MapsAre(env, before);
      forall i | 0 <= i < |rs|
        ensures Maps(env, rs)[i] == LastMap(env, rs[..i + 1])
      {
        if i < |before| { assert before[..i + 1] == rs[..i + 1]; } else { assert rs[..i + 1] == rs; }
      }
    }
  }

  lemma OneMore(env: Env, past: seq<Resp>, r: Resp)
    ensures After(env, past + [r]) == Next(env, After(env, past), r)
    ensures Maps(env, past + [r]) == Maps(env, past) + [Inflate(env, After(env, past + [r]), r)]
  {
    assert (past + [r])[..|past|] == past;
  }

  /** These maps show these values, and are made of these nodes. */
  ghost predicate Given(nms: seq<NetworkMap>, vs: seq<NetMap>, given: set<Node>)
    reads nms, given`info
  {
    |nms| == |vs| && forall k :: 0 <= k < |nms| ==> nms[k].Nodes() <= given && nms[k].Shows(vs[k])
  }

  lemma GivenOneMore(nms: seq<NetworkMap>, vs: seq<NetMap>, given: set<Node>, nm: NetworkMap, v: NetMap)
    requires Given(nms, vs, given) && nm.Shows(v)
    ensures Given(nms + [nm], vs + [v], given + nm.Nodes())
  {
  }

  method NewNodes(ps: seq<Peer>) returns (v: seq<Node>)
    requires DistinctPeers(ps)
    ensures DistinctIDs(v) && Table(v) == ToMap(ps)
    ensures forall n :: n in v ==> fresh(n)
  {
    v := [];
    for i := 0 to |ps|
      invariant |v| == i && forall k :: 0 <= k < i ==> v[k].id == ps[k].id && v[k].info == ps[k].info
      invariant forall n :: n in v ==> fresh(n)
    {
      var n := new Node(ps[i].id, ps[i].info);
      v := v + [n];
    }
    NewTable(v, ps);
  }

  lemma {:induction false} NewTable(v: seq<Node>, ps: seq<Peer>)
    requires |v| == |ps| && forall k :: 0 <= k < |v| ==> v[k].id == ps[k].id && v[k].info == ps[k].info
    ensures Table(v) == ToMap(ps)
  {
    if v != [] { NewTable(v[..|v| - 1], ps[..|ps| - 1]); }
  }

  /** Every response is decoded into objects of its own. */
  method Decode(w: Wire) returns (resp: MapResponse)
    requires WellFormed(w)
    ensures fresh(resp) && resp.Carries(Value(w))
    ensures forall n :: n in resp.nodes || n == resp.node ==> fresh(n)
  {
    var peers := NewNodes(w.peers);
    var changed := NewNodes(w.changed);
    var node: Node? := null;
    if w.rest.node.Some? { node := new Node(w.rest.node.value.id, w.rest.node.value.info); }
    resp := new MapResponse(w, peers, changed, node);
  }

  /** The session takes in one response and gives out its map. It writes to nothing but itself and the nodes it keeps. */
  method Respond(ms: MapSession, w: Wire) returns (nm: NetworkMap)
    requires ms.Valid() && WellFormed(w) && Room(ms.model.peers, Value(w))
    modifies ms`previousPeers, ms`lastNode, ms`model, ms`last, ms`netMapBuilding, ms.previousPeers`info
    ensures ms.Valid() && ms.model == Next(ms.env, old(ms.model), Value(w))
    ensures fresh(nm) && nm.Shows(Inflate(ms.env, ms.model, Value(w)))
    ensures forall n :: n in ms.previousPeers ==> fresh(n) && n !in nm.peers && n != nm.selfNode
  {
    var resp := Decode(w);
    nm := ms.NetmapForResponse(resp, w.now, Value(w));
  }

  /** So the maps given before stay as they are. */
  method Serve(ms: MapSession, w: Wire, ghost nms: seq<NetworkMap>, ghost vs: seq<NetMap>, ghost given: set<Node>)
    returns (nm: NetworkMap)
    requires ms.Valid() && WellFormed(w) && Room(ms.model.peers, Value(w))
    requires Given(nms, vs, given) && forall n :: n in ms.previousPeers ==> n !in given
    modifies ms`previousPeers, ms`lastNode, ms`model, ms`last, ms`netMapBuilding, ms.previousPeers`info
    ensures ms.Valid() && ms.model == Next(ms.env, old(ms.model), Value(w))
    ensures fresh(nm) && forall n :: n in ms.previousPeers ==> fresh(n) && n !in given + nm.Nodes()
    ensures Given(nms + [nm], vs + [Inflate(ms.env, ms.model, Value(w))], given + nm.Nodes())
  {
    nm := Respond(ms, w);
    GivenOneMore(nms, vs, given, nm, Inflate(ms.env, ms.model, Value(w)));
  }

  ghost function Values(ws: seq<Wire>): seq<Resp> {
    if ws == [] then [] else Values(ws[..|ws| - 1]) + [Value(ws[|ws| - 1])]
  }

  lemma {:induction false} ValuesSize(ws: seq<Wire>)
    ensures |Values(ws)| == |ws|
  {
    if ws != [] { ValuesSize(ws[..|ws| - 1]); }
  }

  /** The session after these responses, and the maps it has given out. */
  ghost predicate HasServed(ms: MapSession, ws: seq<Wire>, nms: seq<NetworkMap>, given: set<Node>)
    reads ms, ms.previousPeers`info, (if ms.lastNode == null then {} else {ms.lastNode})`info, nms, given`info
  {
    && ms.Valid() && ms.model == After(ms.env, Values(ws))
    && Given(nms, Maps(ms.env, Values(ws)), given)
    && forall n | n in ms.previousPeers :: n !in given
  }

  method ServeNext(ms: MapSession, w: Wire, ghost past: seq<Wire>, ghost nms: seq<NetworkMap>, ghost given: set<Node>)
    returns (nm: NetworkMap)
    requires HasServed(ms, past, nms, given) && WellFormed(w) && Room(ms.model.peers, Value(w))
    modifies ms`previousPeers, ms`lastNode, ms`model, ms`last, ms`netMapBuilding, ms.previousPeers`info
    ensures HasServed(ms, past + [w], nms + [nm], given + nm.Nodes())
    ensures fresh(nm) && forall n :: n in ms.previousPeers ==> fresh(n)
  {
    assert (past + [w])[..|past|] == past;
    OneMore(ms.env, Values(past), Value(w));
    nm := Serve(ms, w, nms, Maps(ms.env, Values(past)), given);
  }

  lemma TakeOneMore(ws: seq<Wire>, i: nat)
    requires i < |ws|
    ensures ws[..i + 1] == ws[..i] + [ws[i]]
  {
  }

  lemma TakeAll(ws: seq<Wire>)
    ensures ws[..|ws|] == ws
  {
  }

  /**
   A whole session, from its first response to its last. When it is over, every
   map handed out on the way still shows exactly what the fold over all
   responses up to its own gives: later responses have changed none of them.
   */
  method Replay(ms: MapSession, ws: seq<Wire>) returns (nms: seq<NetworkMap>)
    requires ms.Valid() && ms.model == START && ms.previousPeers == []
    requires forall i :: 0 <= i < |ws| ==> WellFormed(ws[i])
    requires forall i :: 0 <= i < |ws| ==> Room(After(ms.env, Values(ws[..i])).peers, Value(ws[i]))
    modifies ms
    ensures |nms| == |ws| == |Values(ws)|
    ensures forall i :: 0 <= i < |nms| ==> nms[i].Shows(LastMap(ms.env, Values(ws)[..i + 1]))
  {
    nms := [];
    ghost var given: set<Node> := {};
    for i := 0 to |ws|
      invariant HasServed(ms, ws[..i], nms, given) && |nms| == i
      invariant forall n :: n in ms.previousPeers ==> fresh(n)
    {
      forall k | 0 <= k < |ms.previousPeers|
        ensures fresh(ms.previousPeers[k])
      {
        assert ms.previousPeers[k] in ms.previousPeers;
      }
      TakeOneMore(ws, i);
      var nm := ServeNext(ms, ws[i], ws[..i], nms, given);
      nms, given := nms + [nm], given + nm.Nodes();
    }
    TakeAll(ws);
    ValuesSize(ws);
    MapsAre(ms.env, Values(ws));
  }
}
