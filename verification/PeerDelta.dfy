/**
 Peer lists and their deltas: nodes live in the heap and are edited in place,
 lists are kept sorted by node ID.
 */
module PeerDelta {
  import opened Common

  /** A signed 64-bit number. */
  type NodeID = x: int | -0x8000_0000_0000_0000 <= x < 0x8000_0000_0000_0000

  /** The part of a node that no one edits after it is decoded. */
  datatype Fixed = Fixed(name: string, addresses: seq<int>, keyExpiry: int, hostinfo: int, machineAuthorized: bool)

  /** A node's value apart from its ID. `displayNames` is filled in by the client; sharer 0 is none. */
  datatype Info = Info(
    user: int, sharer: int, lastSeen: Option<int>, online: Option<bool>, displayNames: Option<string>, fixed: Fixed)

  class Node {
    const id: NodeID
    var info: Info

    constructor (id: NodeID, info: Info)
      ensures this.id == id && this.info == info
    {
      this.id, this.info := id, info;
    }

    /** A deep copy: it shares nothing with the original. */
    method Clone() returns (n: Node)
      ensures fresh(n) && n.id == id && n.info == info
    {
      n := new Node(id, info);
    }
  }

  // ---------------------------------------------------------------------
  // Sorted lists
  // ---------------------------------------------------------------------

  ghost predicate StrictlySorted(v: seq<Node>) {
    forall i, j :: 0 <= i < j < |v| ==> v[i].id < v[j].id
  }

  ghost predicate Ordered(v: seq<Node>) {
    forall i, j :: 0 <= i < j < |v| ==> v[i].id <= v[j].id
  }

  ghost predicate DistinctIDs(v: seq<Node>) {
    forall i, j :: 0 <= i < j < |v| ==> v[i].id != v[j].id
  }

  ghost function IDs(v: seq<Node>): set<NodeID> { set n | n in v :: n.id }

  /** The list as a map from ID to value. */
  ghost function Table(v: seq<Node>): map<NodeID, Info>
    reads v`info
  {
    if v == [] then map[] else Table(v[..|v| - 1])[v[|v| - 1].id := v[|v| - 1].info]
  }

  /** Each node is in the map with its value, and each ID in the map is a node's. */
  ghost predicate Holds(v: seq<Node>, m: map<NodeID, Info>)
    reads v`info
  {
    && (forall n | n in v :: n.id in m && m[n.id] == n.info)
    && (forall id | id in m :: id in IDs(v))
  }

  lemma {:induction false} TableHolds(v: seq<Node>)
    requires DistinctIDs(v)
    ensures Holds(v, Table(v))
  {
    if v != [] {
      var k := |v| - 1;
      assert v == v[..k] + [v[k]];
      TableHolds(v[..k]);
    }
  }

  lemma TableIs(v: seq<Node>, m: map<NodeID, Info>)
    requires DistinctIDs(v) && Holds(v, m)
    ensures Table(v) == m
  {
    TableHolds(v);
    forall id
      ensures id in m <==> id in Table(v)
    {
    }
  }

  lemma {:induction false} TableSize(v: seq<Node>)
    requires DistinctIDs(v)
    ensures |Table(v).Keys| == |v|
    ensures Table(v) == map[] <==> v == []
  {
    if v != [] {
      var k := |v| - 1;
      TableSize(v[..k]);
      TableHolds(v[..k]);
      assert v[k].id !in Table(v[..k]);
      assert v[k].id in Table(v);
      assert Table(v).Keys == Table(v[..k]).Keys + {v[k].id};
    }
  }

  /** Compares neighbours only, which decides the order of the whole list. */
  method NodesSorted(v: seq<Node>) returns (sorted: bool)
    ensures sorted == StrictlySorted(v)
  {
    for i := 0 to |v|
      invariant forall j, k :: 0 <= j < k < i ==> v[j].id < v[k].id
    {
      if i > 0 && v[i].id <= v[i - 1].id { return false; }
    }
    return true;
  }

  /** Sorts by ID. With distinct IDs the outcome is the one strictly sorted list of these nodes. */
  method SortNodes(v: seq<Node>) returns (w: seq<Node>)
    ensures Ordered(w) && multiset(w) == multiset(v)
    ensures forall n :: n in w <==> n in v
    ensures DistinctIDs(v) ==> StrictlySorted(w)
  {
    w := [];
    for i := 0 to |v|
      invariant Ordered(w) && multiset(w) == multiset(v[..i])
      invariant forall n :: n in w <==> n in v[..i]
      invariant DistinctIDs(v) ==> StrictlySorted(w)
    {
      assert v[..i + 1] == v[..i] + [v[i]];
      w := InsertNode(w, v[i]);
      if DistinctIDs(v) {
        assert forall k :: 0 <= k < i ==> v[k].id != v[i].id;
      }
    }
    assert v[..|v|] == v;
  }

  method InsertNode(w: seq<Node>, x: Node) returns (r: seq<Node>)
    requires Ordered(w)
    ensures Ordered(r) && multiset(r) == multiset(w) + multiset{x}
    ensures forall n :: n in r <==> n in w || n == x
    ensures StrictlySorted(w) && x.id !in IDs(w) ==> StrictlySorted(r)
  {
    var k := |w|;
    while k > 0 && x.id < w[k - 1].id
      invariant 0 <= k <= |w|
      invariant forall j :: k <= j < |w| ==> x.id < w[j].id
    {
      k := k - 1;
    }
    r := w[..k] + [x] + w[k..];
    InsertedKeepsNodes(w, k, x);
    InsertedKeepsOrder(w, k, x);
  }

  lemma InsertedKeepsNodes(w: seq<Node>, k: nat, x: Node)
    requires k <= |w|
    ensures multiset(w[..k] + [x] + w[k..]) == multiset(w) + multiset{x}
    ensures forall n :: n in w[..k] + [x] + w[k..] <==> n in w || n == x
  {
    assert w == w[..k] + w[k..];
  }

  lemma InsertedKeepsOrder(w: seq<Node>, k: nat, x: Node)
    requires k <= |w| && Ordered(w)
    requires forall j :: k <= j < |w| ==> x.id < w[j].id
    requires k > 0 ==> w[k - 1].id <= x.id
    ensures Ordered(w[..k] + [x] + w[k..])
    ensures StrictlySorted(w) && x.id !in IDs(w) ==> StrictlySorted(w[..k] + [x] + w[k..])
  {
    var r := w[..k] + [x] + w[k..];
    forall i, j | 0 <= i < j < |r|
      ensures r[i].id <= r[j].id
      ensures StrictlySorted(w) && x.id !in IDs(w) ==> r[i].id < r[j].id
    {
      if i < k && j == k {
        assert w[i] in w && w[i].id <= w[k - 1].id;
      }
    }
  }

  /** Two strictly sorted lists of the same nodes are the same list. */
  lemma {:induction false} SortedIsUnique(v: seq<Node>, w: seq<Node>)
    requires StrictlySorted(v) && StrictlySorted(w)
    requires forall n :: n in v <==> n in w
    ensures v == w
    decreases |v|
  {
    if v == [] {
      assert forall i :: 0 <= i < |w| ==> w[i] in w;
    } else {
      assert v[0] in w;
      assert w[0] in v;
      assert v == [v[0]] + v[1..] && w == [w[0]] + w[1..];
      forall n ensures n in v[1..] <==> n in w[1..] {
        if n in v[1..] { assert n in w && n != v[0]; }
        if n in w[1..] { assert n in v && n != w[0]; }
      }
      SortedIsUnique(v[1..], w[1..]);
    }
  }

  // ---------------------------------------------------------------------
  // Merging a delta
  // ---------------------------------------------------------------------

  /** What a delta leaves: the changed nodes, and the previous ones that were neither removed nor changed. */
  ghost predicate Merged(n: Node, prev: seq<Node>, changed: seq<Node>, removed: set<NodeID>) {
    n in changed || Stays(n, prev, changed, removed)
  }

  /**
   Walks both lists at once. All changed nodes are in the result, in order, and
   besides them only previous nodes that were not removed. If the lists are
   strictly sorted, so is the result, and it holds for each ID the changed node
   if there is one, or else the previous node if it was not removed; a node both
   removed and changed stays.
   */
  method MergeDelta(prev: seq<Node>, changed: seq<Node>, removed: set<NodeID>) returns (newFull: seq<Node>)
    ensures Ordered(newFull) && Includes(newFull, prev, changed, removed)
    ensures StrictlySorted(prev) && StrictlySorted(changed) ==>
              StrictlySorted(newFull) && forall n :: n in newFull <==> Merged(n, prev, changed, removed)
  {
    ghost var strict := StrictlySorted(prev) && StrictlySorted(changed);
    var i, j := 0, 0;
    newFull := [];
    while i < |prev| && j < |changed|
      invariant 0 <= i <= |prev| && 0 <= j <= |changed|
      invariant Includes(newFull, prev[..i], changed[..j], removed)
      invariant strict ==> Merging(newFull, prev, i, changed, j, removed)
      decreases |prev| - i + |changed| - j
    {
      if strict { MergeStep(newFull, prev, i, changed, j, removed); }
      IncludesMore(newFull, prev, i, changed, j, removed);
      var pID, cID := prev[i].id, changed[j].id;
      if pID in removed {
        i := i + 1;
      } else if pID < cID {
        newFull := newFull + [prev[i]];
        i := i + 1;
      } else if pID == cID {
        newFull := newFull + [changed[j]];
        i, j := i + 1, j + 1;
      } else {
        newFull := newFull + [changed[j]];
        j := j + 1;
      }
    }
    if strict { ChangedRest(newFull, prev, i, changed, j, removed); }
    assert changed == changed[..j] + changed[j..];
    newFull := newFull + changed[j..];
    newFull := AppendPrev(newFull, prev, i, changed, removed, strict);
    newFull := SortNodes(newFull);
  }

  /** All changed nodes, and besides them only previous nodes that were not removed. */
  ghost predicate Includes(newFull: seq<Node>, prev: seq<Node>, changed: seq<Node>, removed: set<NodeID>) {
    && (forall n | n in newFull :: n in changed || (n in prev && n.id !in removed))
    && (forall n | n in changed :: n in newFull)
  }

  lemma IncludesMore(newFull: seq<Node>, prev: seq<Node>, i: nat, changed: seq<Node>, j: nat, removed: set<NodeID>)
    requires i < |prev| && j < |changed| && Includes(newFull, prev[..i], changed[..j], removed)
    ensures Includes(newFull, prev[..i + 1], changed[..j], removed)
    ensures prev[i].id !in removed ==> Includes(newFull + [prev[i]], prev[..i + 1], changed[..j], removed)
    ensures Includes(newFull + [changed[j]], prev[..i], changed[..j + 1], removed)
    ensures Includes(newFull + [changed[j]], prev[..i + 1], changed[..j + 1], removed)
  {
    assert prev[..i + 1] == prev[..i] + [prev[i]];
    assert changed[..j + 1] == changed[..j] + [changed[j]];
  }

  /** Appends the previous nodes from `start` on that were not removed. */
  method AppendPrev(done: seq<Node>, prev: seq<Node>, start: nat, changed: seq<Node>, removed: set<NodeID>, ghost strict: bool)
    returns (newFull: seq<Node>)
    requires start <= |prev| && Includes(done, prev[..start], changed, removed)
    requires strict ==> StrictlySorted(prev) && StrictlySorted(changed)
    requires strict ==> Merging(done, prev, start, changed, |changed|, removed)
    ensures Includes(newFull, prev, changed, removed)
    ensures strict ==> StrictlySorted(newFull) && forall n :: n in newFull <==> Merged(n, prev, changed, removed)
  {
    newFull := done;
    for i := start to |prev|
      invariant Includes(newFull, prev[..i], changed, removed)
      invariant strict ==> Merging(newFull, prev, i, changed, |changed|, removed)
    {
      if strict { PrevStep(newFull, prev, i, changed, |changed|, removed); }
      assert prev[..i + 1] == prev[..i] + [prev[i]];
      if prev[i].id !in removed {
        newFull := newFull + [prev[i]];
      }
    }
    assert prev[..|prev|] == prev && changed[..|changed|] == changed;
  }

  /** The merge has consumed i previous and j changed nodes. */
  ghost predicate Merging(newFull: seq<Node>, prev: seq<Node>, i: nat, changed: seq<Node>, j: nat, removed: set<NodeID>) {
    && i <= |prev| && j <= |changed|
    && StrictlySorted(newFull)
    && Below(newFull, prev[i..]) && Below(newFull, changed[j..])
    && (forall n | n in newFull :: n in changed[..j] || Stays(n, prev[..i], changed, removed))
    && (forall n | n in changed[..j] :: n in newFull)
    && (forall n | n in prev[..i] :: Stays(n, prev[..i], changed, removed) ==> n in newFull)
  }

  ghost predicate Stays(n: Node, prev: seq<Node>, changed: seq<Node>, removed: set<NodeID>) {
    n in prev && n.id !in removed && n.id !in IDs(changed)
  }

  /** Every ID in the one list is below every ID in the other. */
  ghost predicate Below(v: seq<Node>, w: seq<Node>) {
    forall m, n :: m in v && n in w ==> m.id < n.id
  }

  /** Consuming a previous node that comes before all changed nodes that are left. */
  lemma PrevStep(newFull: seq<Node>, prev: seq<Node>, i: nat, changed: seq<Node>, j: nat, removed: set<NodeID>)
    requires StrictlySorted(prev) && StrictlySorted(changed)
    requires Merging(newFull, prev, i, changed, j, removed)
    requires i < |prev|
    requires j < |changed| ==> prev[i].id < changed[j].id || prev[i].id in removed
    ensures prev[i].id in removed ==> Merging(newFull, prev, i + 1, changed, j, removed)
    ensures prev[i].id !in removed ==> Merging(newFull + [prev[i]], prev, i + 1, changed, j, removed)
  {
    var p := prev[i];
    assert prev[..i + 1] == prev[..i] + [p];
    assert p in prev[i..];
    if p.id !in removed {
      NotChanged(newFull, changed, j, p);
      assert forall n :: n in prev[i + 1..] ==> p.id < n.id;
    }
  }

  lemma NotChanged(newFull: seq<Node>, changed: seq<Node>, j: nat, p: Node)
    requires j <= |changed| && StrictlySorted(changed)
    requires j < |changed| ==> p.id < changed[j].id
    requires forall n :: n in changed[..j] ==> n in newFull
    requires forall n :: n in newFull ==> n.id < p.id
    ensures p.id !in IDs(changed)
    ensures forall n :: n in changed[j..] ==> p.id < n.id
  {
    forall n | n in changed
      ensures n.id != p.id
    {
      var k :| 0 <= k < |changed| && changed[k] == n;
      if k < j { assert changed[..j][k] == n; }
    }
  }

  /** Consuming a changed node, and with it a previous node of the same ID. */
  lemma ChangedStep(newFull: seq<Node>, prev: seq<Node>, i: nat, changed: seq<Node>, j: nat, removed: set<NodeID>)
    requires StrictlySorted(prev) && StrictlySorted(changed)
    requires Merging(newFull, prev, i, changed, j, removed)
    requires i < |prev| && j < |changed| && changed[j].id <= prev[i].id
    ensures changed[j].id < prev[i].id ==> Merging(newFull + [changed[j]], prev, i, changed, j + 1, removed)
    ensures changed[j].id == prev[i].id ==> Merging(newFull + [changed[j]], prev, i + 1, changed, j + 1, removed)
  {
    var c := changed[j];
    assert changed[..j + 1] == changed[..j] + [c];
    assert prev[..i + 1] == prev[..i] + [prev[i]];
    assert c in changed[j..] && c.id in IDs(changed);
    assert forall n :: n in changed[j + 1..] ==> c.id < n.id;
    assert forall n :: n in prev[i + 1..] ==> prev[i].id < n.id;
  }

  lemma MergeStep(newFull: seq<Node>, prev: seq<Node>, i: nat, changed: seq<Node>, j: nat, removed: set<NodeID>)
    requires StrictlySorted(prev) && StrictlySorted(changed)
    requires Merging(newFull, prev, i, changed, j, removed)
    requires i < |prev| && j < |changed|
    ensures var p, c := prev[i], changed[j];
            && (p.id in removed ==> Merging(newFull, prev, i + 1, changed, j, removed))
            && (p.id !in removed && p.id < c.id ==> Merging(newFull + [p], prev, i + 1, changed, j, removed))
            && (p.id == c.id ==> Merging(newFull + [c], prev, i + 1, changed, j + 1, removed))
            && (c.id < p.id ==> Merging(newFull + [c], prev, i, changed, j + 1, removed))
  {
    if prev[i].id in removed || prev[i].id < changed[j].id {
      PrevStep(newFull, prev, i, changed, j, removed);
    }
    if changed[j].id <= prev[i].id {
      ChangedStep(newFull, prev, i, changed, j, removed);
    }
  }

  /** Appending all changed nodes that are left, once one list is used up. */
  lemma ChangedRest(newFull: seq<Node>, prev: seq<Node>, i: nat, changed: seq<Node>, j: nat, removed: set<NodeID>)
    requires StrictlySorted(prev) && StrictlySorted(changed)
    requires Merging(newFull, prev, i, changed, j, removed)
    requires i == |prev| || j == |changed|
    ensures Merging(newFull + changed[j..], prev, i, changed, |changed|, removed)
  {
    assert changed == changed[..j] + changed[j..];
    assert changed[..|changed|] == changed;
    assert StrictlySorted(changed[j..]);
    SortedConcat(newFull, changed[j..]);
  }

  lemma SortedConcat(v: seq<Node>, w: seq<Node>)
    requires StrictlySorted(v) && StrictlySorted(w) && Below(v, w)
    ensures StrictlySorted(v + w)
  {
    var r := v + w;
    forall i, j | 0 <= i < j < |r|
      ensures r[i].id < r[j].id
    {
      if i < |v| && j >= |v| { assert v[i] in v && w[j - |v|] in w; }
    }
  }

  /** The merge on maps. */
  function Replayed(prev: map<NodeID, Info>, changed: map<NodeID, Info>, removed: set<NodeID>): map<NodeID, Info> {
    (prev - removed) + changed
  }

  lemma MergeIsReplay(prev: seq<Node>, changed: seq<Node>, removed: set<NodeID>, newFull: seq<Node>)
    requires StrictlySorted(prev) && StrictlySorted(changed) && StrictlySorted(newFull)
    requires forall n :: n in newFull <==> Merged(n, prev, changed, removed)
    ensures Table(newFull) == Replayed(Table(prev), Table(changed), removed)
  {
    TableHolds(prev);
    TableHolds(changed);
    MergeHolds(prev, changed, removed, newFull, Table(prev), Table(changed));
    TableIs(newFull, Replayed(Table(prev), Table(changed), removed));
  }

  lemma MergeHolds(prev: seq<Node>, changed: seq<Node>, removed: set<NodeID>, newFull: seq<Node>,
                   pm: map<NodeID, Info>, cm: map<NodeID, Info>)
    requires Holds(prev, pm) && Holds(changed, cm)
    requires forall n :: n in newFull <==> Merged(n, prev, changed, removed)
    ensures Holds(newFull, Replayed(pm, cm, removed))
  {
    var m := Replayed(pm, cm, removed);
    forall n | n in newFull
      ensures n.id in m && m[n.id] == n.info
    {
      assert Merged(n, prev, changed, removed);
      if n !in changed && n.id in cm { assert n.id in IDs(changed); }
    }
    forall id | id in m
      ensures id in IDs(newFull)
    {
      if id in cm {
        assert id in IDs(changed);
        var n :| n in changed && n.id == id;
        assert Merged(n, prev, changed, removed);
      } else {
        assert id in IDs(prev);
        var n :| n in prev && n.id == id;
        assert Merged(n, prev, changed, removed);
      }
    }
  }

  // ---------------------------------------------------------------------
  // Editing in place, and copying
  // ---------------------------------------------------------------------

  function SeenInfo(x: Info, id: NodeID, seen: map<NodeID, bool>, now: int): Info {
    if id in seen then x.(lastSeen := if seen[id] then Some(now) else None) else x
  }

  function OnlineInfo(x: Info, id: NodeID, online: map<NodeID, bool>): Info {
    if id in online then x.(online := Some(online[id])) else x
  }

  /** The last node of each ID. */
  function LastByID(v: seq<Node>): map<NodeID, Node> {
    if v == [] then map[] else LastByID(v[..|v| - 1])[v[|v| - 1].id := v[|v| - 1]]
  }

  lemma {:induction false} LastByIDFinds(v: seq<Node>)
    ensures forall n :: n in v ==> n.id in LastByID(v)
    ensures forall id :: id in LastByID(v) ==> LastByID(v)[id] in v && LastByID(v)[id].id == id
  {
    if v != [] {
      LastByIDFinds(v[..|v| - 1]);
      assert v == v[..|v| - 1] + [v[|v| - 1]];
    }
  }

  /** The table shows the last node of each ID. */
  lemma {:induction false} TableOfLast(v: seq<Node>)
    ensures Table(v) == map id | id in LastByID(v) :: LastByID(v)[id].info
  {
    if v != [] { TableOfLast(v[..|v| - 1]); }
  }

  method IndexByID(v: seq<Node>) returns (byID: map<NodeID, Node>)
    ensures byID == LastByID(v)
  {
    byID := map[];
    for i := 0 to |v|
      invariant byID == LastByID(v[..i])
    {
      assert v[..i + 1][..i] == v[..i];
      byID := byID[v[i].id := v[i]];
    }
    assert v[..|v|] == v;
  }

  /** Goes through the changes in any order. Of nodes that share an ID only the last is edited. */
  method MarkSeen(v: seq<Node>, byID: map<NodeID, Node>, seen: map<NodeID, bool>, now: int)
    requires byID == LastByID(v)
    modifies v`info
    ensures forall id :: id in byID ==> byID[id].info == SeenInfo(old(byID[id].info), id, seen, now)
    ensures forall n :: n in v && (n.id in byID ==> byID[n.id] != n) ==> n.info == old(n.info)
  {
    LastByIDFinds(v);
    var todo: set<NodeID> := seen.Keys;
    while todo != {}
      invariant todo <= seen.Keys
      invariant forall id :: id in byID ==>
                  byID[id].info == if id in todo then old(byID[id].info) else SeenInfo(old(byID[id].info), id, seen, now)
      invariant forall n :: n in v && (n.id in byID ==> byID[n.id] != n) ==> n.info == old(n.info)
      decreases |todo|
    {
      var id :| id in todo;
      todo := todo - {id};
      if id in byID {
        var n := byID[id];
        n.info := n.info.(lastSeen := if seen[id] then Some(now) else None);
      }
    }
  }

  method MarkOnline(v: seq<Node>, byID: map<NodeID, Node>, online: map<NodeID, bool>)
    requires byID == LastByID(v)
    modifies v`info
    ensures forall id :: id in byID ==> byID[id].info == OnlineInfo(old(byID[id].info), id, online)
    ensures forall n :: n in v && (n.id in byID ==> byID[n.id] != n) ==> n.info == old(n.info)
  {
    LastByIDFinds(v);
    var todo: set<NodeID> := online.Keys;
    while todo != {}
      invariant todo <= online.Keys
      invariant forall id :: id in byID ==>
                  byID[id].info == if id in todo then old(byID[id].info) else OnlineInfo(old(byID[id].info), id, online)
      invariant forall n :: n in v && (n.id in byID ==> byID[n.id] != n) ==> n.info == old(n.info)
      decreases |todo|
    {
      var id :| id in todo;
      todo := todo - {id};
      if id in byID {
        var n := byID[id];
        n.info := n.info.(online := Some(online[id]));
      }
    }
  }

  /** Every peer after its seen and online changes. */
  function Marked(m: map<NodeID, Info>, seen: map<NodeID, bool>, online: map<NodeID, bool>, now: int): map<NodeID, Info> {
    map id | id in m :: OnlineInfo(SeenInfo(m[id], id, seen, now), id, online)
  }

  method MarkPeers(v: seq<Node>, seen: map<NodeID, bool>, online: map<NodeID, bool>, now: int)
    modifies v`info
    ensures Table(v) == Marked(old(Table(v)), seen, online, now)
    ensures forall n :: n in v && (n.id in LastByID(v) ==> LastByID(v)[n.id] != n) ==> n.info == old(n.info)
  {
    TableOfLast(v);
    if |seen| != 0 || |online| != 0 {
      var byID := IndexByID(v);
      LastByIDFinds(v);
      MarkSeen(v, byID, seen, now);
      MarkOnline(v, byID, online);
    }
    TableOfLast(v);
  }

  /** Copies that share no node with anything older. */
  method CloneNodes(v: seq<Node>) returns (w: seq<Node>)
    ensures |w| == |v| && forall k :: 0 <= k < |v| ==> w[k].id == v[k].id && w[k].info == v[k].info
    ensures Table(w) == Table(v) && (StrictlySorted(v) ==> StrictlySorted(w))
    ensures forall n :: n in w ==> fresh(n)
  {
    w := [];
    for i := 0 to |v|
      invariant |w| == i && forall k :: 0 <= k < i ==> w[k].id == v[k].id && w[k].info == v[k].info
      invariant forall n :: n in w ==> fresh(n)
    {
      var n := v[i].Clone();
      w := w + [n];
    }
    SameTable(v, w);
  }

  lemma {:induction false} SameTable(v: seq<Node>, w: seq<Node>)
    requires |w| == |v| && forall k :: 0 <= k < |v| ==> w[k].id == v[k].id && w[k].info == v[k].info
    ensures Table(w) == Table(v)
  {
    if v != [] { SameTable(v[..|v| - 1], w[..|w| - 1]); }
  }

  twostate lemma {:induction false} SameTableAfter(v: seq<Node>)
    requires forall n :: n in v ==> n.info == old(n.info)
    ensures Table(v) == old(Table(v))
  {
    if v != [] { SameTableAfter(v[..|v| - 1]); }
  }
}
