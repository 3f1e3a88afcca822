/** Data holders, their replication lineages, and the most complete one
    (internal/redis/replication_state.go). */
module Lineage {
  import opened Common

  datatype Role = Master | Replica | UnknownRole
  datatype Link = LinkUp | LinkDown | LinkUnknown

  /** One gathered Redis node. `authFailed` says the probe was refused for its credential. */
  datatype RedisNode = RedisNode(
    podName: string, ip: string, role: Role, masterHost: string, link: Link,
    offset: int, keys: int, replid: string, replid2: string,
    reachable: bool, authFailed: bool)

  /** The gather's node map, keyed by address. */
  type RedisNodes = map<string, RedisNode>

  ghost predicate WellKeyed(nodes: RedisNodes) {
    forall ip <- nodes :: nodes[ip].ip == ip
  }

  /** A live server whose keyspace could not be read. */
  predicate UnprovablyEmpty(n: RedisNode) {
    !n.reachable && n.authFailed
  }

  function AuthFailedNodes(nodes: RedisNodes): set<RedisNode> {
    set ip | ip in nodes && UnprovablyEmpty(nodes[ip]) :: nodes[ip]
  }

  function DataHolders(nodes: RedisNodes): set<RedisNode> {
    set ip | ip in nodes && nodes[ip].reachable && nodes[ip].keys > 0 :: nodes[ip]
  }

  // ---------------------------------------------------------------- lineage

  /** An unset master_replid2 is reported as all zeros. */
  predicate ZeroReplid(r: string) {
    forall c <- r :: c == '0'
  }

  /** The lineage identities a holder carries. */
  function Ids(h: RedisNode): set<string> {
    (if ZeroReplid(h.replid) then {} else {h.replid}) +
    (if ZeroReplid(h.replid2) then {} else {h.replid2})
  }

  /** No identity is carried on both sides. */
  ghost predicate Unrelated(g: set<RedisNode>, rest: set<RedisNode>) {
    forall a <- g, b <- rest :: Ids(a) !! Ids(b)
  }

  /** Independent write histories: the holders fall into two non-empty groups that share no
      replication identity. */
  ghost predicate Diverged(holders: set<RedisNode>) {
    exists g: set<RedisNode> :: {} < g < holders && Unrelated(g, holders - g)
  }

  /** More than one holder has been writable on its own. */
  ghost predicate Forked(holders: set<RedisNode>) {
    exists a, b :: a in holders && b in holders && a != b && a.role == b.role == Master
  }

  /** The link of one identity: it stays among the registered ones, keeps its root, and falls
      along `depth`. */
  ghost predicate LinkOk(parent: map<string, string>, rep: map<string, string>, depth: map<string, nat>, x: string)
    requires x in parent
  {
    && x in rep && x in depth
    && parent[x] in parent && parent[x] in rep && parent[x] in depth
    && rep[x] in parent && rep[x] in rep && rep[x] in depth
    && rep[parent[x]] == rep[x] && rep[rep[x]] == rep[x]
    && (parent[x] == x <==> rep[x] == x)
    && (parent[x] != x ==> depth[parent[x]] < depth[x])
    && (rep[x] != x ==> depth[rep[x]] < depth[x])
  }

  ghost predicate Forested(parent: map<string, string>, rep: map<string, string>, depth: map<string, nat>) {
    && rep.Keys == parent.Keys && depth.Keys == parent.Keys
    && forall x {:trigger LinkOk(parent, rep, depth, x)} :: x in parent ==> LinkOk(parent, rep, depth, x)
  }

  ghost function Registered(rep: map<string, string>, x: string): (r: map<string, string>)
    ensures r.Keys == rep.Keys + {x}
  {
    if x in rep then rep else rep[x := x]
  }

  ghost function Merged(rep: map<string, string>, ra: string, rb: string): (r: map<string, string>)
    ensures r.Keys == rep.Keys
  {
    map x | x in rep :: if rep[x] == ra then rb else rep[x]
  }

  lemma {:induction false} RegisterKeepsForest(parent: map<string, string>, rep: map<string, string>, depth: map<string, nat>, x: string)
    requires Forested(parent, rep, depth) && x !in parent
    ensures Forested(parent[x := x], rep[x := x], depth[x := 0])
  {
    var parent', rep', depth' := parent[x := x], rep[x := x], depth[x := 0];
    forall y | y in parent' ensures LinkOk(parent', rep', depth', y) {
      if y != x { assert LinkOk(parent, rep, depth, y); }
    }
  }

  lemma {:induction false} CompressKeepsForest(parent: map<string, string>, rep: map<string, string>, depth: map<string, nat>, x: string)
    requires Forested(parent, rep, depth) && x in parent && parent[x] != x
    ensures Forested(parent[x := rep[x]], rep, depth)
  {
    assert LinkOk(parent, rep, depth, x);
    var parent' := parent[x := rep[x]];
    forall y | y in parent' ensures LinkOk(parent', rep, depth, y) {
      assert LinkOk(parent, rep, depth, y);
    }
  }

  ghost function Sunk(rep: map<string, string>, depth: map<string, nat>, ra: string, rb: string): (r: map<string, nat>)
    requires depth.Keys == rep.Keys && rb in depth
    ensures r.Keys == depth.Keys
  {
    if ra == rb then depth
    else map x | x in depth :: if rep[x] == ra then depth[x] + depth[rb] + 1 else depth[x]
  }

  lemma {:induction false} MergeKeepsForest(parent: map<string, string>, rep: map<string, string>, depth: map<string, nat>, ra: string, rb: string)
    requires Forested(parent, rep, depth) && ra in parent && rb in parent && rep[ra] == ra && rep[rb] == rb
    ensures Forested(parent[ra := rb], Merged(rep, ra, rb), Sunk(rep, depth, ra, rb))
  {
    var parent', rep', depth' := parent[ra := rb], Merged(rep, ra, rb), Sunk(rep, depth, ra, rb);
    assert LinkOk(parent, rep, depth, rb);
    forall y | y in parent' ensures LinkOk(parent', rep', depth', y) {
      assert LinkOk(parent, rep, depth, y);
      MergeLink(parent, rep, depth, ra, rb, y);
    }
  }

  lemma {:induction false} MergeLink(parent: map<string, string>, rep: map<string, string>, depth: map<string, nat>,
                  ra: string, rb: string, y: string)
    requires rep.Keys == parent.Keys && depth.Keys == parent.Keys && y in parent && LinkOk(parent, rep, depth, y)
    requires ra in parent && rb in parent && rep[ra] == ra && rep[rb] == rb && parent[rb] == rb
    ensures LinkOk(parent[ra := rb], Merged(rep, ra, rb), Sunk(rep, depth, ra, rb), y)
  {
  }

  /** The disjoint-set forest of holdersDiverged: a parent map with path compression. `rep` gives
      each identity's root, `depth` a measure that falls along parent links. */
  class Forest {
    var parent: map<string, string>
    ghost var rep: map<string, string>
    ghost var depth: map<string, nat>

    ghost predicate Valid()
      reads this
    {
      Forested(parent, rep, depth)
    }

    constructor ()
      ensures Valid() && rep == map[]
    {
      parent, rep, depth := map[], map[], map[];
    }

    method Find(x: string) returns (r: string)
      requires Valid()
      modifies this
      ensures Valid() && rep == Registered(old(rep), x) && r == rep[x]
      ensures x in old(depth) ==> depth == old(depth)
      decreases if x in depth then depth[x] else 0
    {
      if x !in parent {
        RegisterKeepsForest(parent, rep, depth, x);
        parent, rep, depth := parent[x := x], rep[x := x], depth[x := 0];
        return x;
      }
      assert LinkOk(parent, rep, depth, x);
      var p := parent[x];
      if p == x {
        return x;
      }
      r := Find(p);
      assert LinkOk(parent, rep, depth, x);
      CompressKeepsForest(parent, rep, depth, x);
      parent := parent[x := r];
    }

    method Union(a: string, b: string)
      requires Valid()
      modifies this
      ensures Valid()
      ensures var known := Registered(Registered(old(rep), a), b); rep == Merged(known, known[a], known[b])
    {
      var ra := Find(a);
      var rb := Find(b);
      assert LinkOk(parent, rep, depth, a) && LinkOk(parent, rep, depth, b);
      MergeKeepsForest(parent, rep, depth, ra, rb);
      depth := Sunk(rep, depth, ra, rb);
      rep := Merged(rep, ra, rb);
      parent := parent[ra := rb];
    }
  }

  // ------------------------------------------------ what the forest computes

  ghost function Absorb(rep: map<string, string>, h: RedisNode): map<string, string> {
    if !ZeroReplid(h.replid) && !ZeroReplid(h.replid2) then
      var known := Registered(Registered(rep, h.replid), h.replid2);
      Merged(known, known[h.replid], known[h.replid2])
    else if !ZeroReplid(h.replid) then Registered(rep, h.replid)
    else if !ZeroReplid(h.replid2) then Registered(rep, h.replid2)
    else rep
  }

  /** The roots after every holder of the list has been absorbed. */
  ghost function Roots(hs: seq<RedisNode>): map<string, string> {
    if hs == [] then map[] else Absorb(Roots(hs[..|hs| - 1]), hs[|hs| - 1])
  }

  ghost predicate OneRoot(rep: map<string, string>, h: RedisNode) {
    Ids(h) <= rep.Keys && forall x, y :: x in Ids(h) && y in Ids(h) ==> rep[x] == rep[y]
  }

  ghost predicate Respects(rep: map<string, string>, s: set<string>) {
    && rep.Values <= rep.Keys
    && forall x, y :: x in rep && y in rep && rep[x] == rep[y] ==> (x in s <==> y in s)
  }

  ghost predicate Whole(h: RedisNode, s: set<string>) {
    Ids(h) <= s || Ids(h) !! s
  }

  lemma {:induction false} AbsorbKeepsOneRoot(rep: map<string, string>, g: RedisNode, h: RedisNode)
    requires OneRoot(rep, g)
    ensures OneRoot(Absorb(rep, h), g)
  {
  }

  lemma {:induction false} HoldersHaveOneRoot(hs: seq<RedisNode>, h: RedisNode)
    requires h in hs
    ensures OneRoot(Roots(hs), h)
  {
    var last := |hs| - 1;
    if h == hs[last] {
    } else {
      assert h in hs[..last];
      HoldersHaveOneRoot(hs[..last], h);
      AbsorbKeepsOneRoot(Roots(hs[..last]), h, hs[last]);
    }
  }

  lemma {:induction false} RootsRespectWholeSets(hs: seq<RedisNode>, s: set<string>)
    requires forall h <- hs :: Whole(h, s)
    ensures Respects(Roots(hs), s)
  {
    if hs != [] {
      var last := |hs| - 1;
      forall h <- hs[..last] ensures Whole(h, s) { assert h in hs; }
      RootsRespectWholeSets(hs[..last], s);
      assert Whole(hs[last], s);
      AbsorbRespects(Roots(hs[..last]), hs[last], s);
    }
  }

  lemma {:induction false} AbsorbRespects(rep: map<string, string>, h: RedisNode, s: set<string>)
    requires Respects(rep, s) && Whole(h, s)
    ensures Respects(Absorb(rep, h), s)
  {
    if !ZeroReplid(h.replid) && !ZeroReplid(h.replid2) {
      RegisterRespects(rep, h.replid, s);
      RegisterRespects(Registered(rep, h.replid), h.replid2, s);
      MergeRespects(Registered(Registered(rep, h.replid), h.replid2), h.replid, h.replid2, s);
    } else if !ZeroReplid(h.replid) {
      RegisterRespects(rep, h.replid, s);
    } else if !ZeroReplid(h.replid2) {
      RegisterRespects(rep, h.replid2, s);
    }
  }

  lemma {:induction false} RegisterRespects(rep: map<string, string>, x: string, s: set<string>)
    requires Respects(rep, s)
    ensures Respects(Registered(rep, x), s)
  {
    var rep' := Registered(rep, x);
    forall v | v in rep'.Values ensures v in rep'.Keys {
      var y :| y in rep' && rep'[y] == v;
      if y in rep { assert rep[y] in rep.Values; }
    }
    forall y | y in rep ensures x !in rep ==> rep[y] != x { assert rep[y] in rep.Values; }
  }

  lemma {:induction false} MergeRespects(rep: map<string, string>, a: string, b: string, s: set<string>)
    requires Respects(rep, s) && a in rep && b in rep && (a in s <==> b in s)
    ensures Respects(Merged(rep, rep[a], rep[b]), s)
  {
    var rep' := Merged(rep, rep[a], rep[b]);
    forall v | v in rep'.Values ensures v in rep'.Keys {
      var y :| y in rep' && rep'[y] == v;
      assert rep[y] in rep.Values && rep[b] in rep.Values;
    }
  }

  /** The component a holder counts for: its root, or itself when it carries no identity. */
  datatype Component = Root(id: string) | Lone(index: nat)

  ghost function ComponentOf(rep: map<string, string>, h: RedisNode, i: nat): Component
    requires Ids(h) <= rep.Keys
  {
    if !ZeroReplid(h.replid) then Root(rep[h.replid])
    else if !ZeroReplid(h.replid2) then Root(rep[h.replid2])
    else Lone(i)
  }

  ghost predicate Distinct(hs: seq<RedisNode>) {
    forall i, j :: 0 <= i < j < |hs| ==> hs[i] != hs[j]
  }

  ghost function Elements(hs: seq<RedisNode>): set<RedisNode> {
    set h | h in hs
  }

  ghost predicate AllRooted(rep: map<string, string>, hs: seq<RedisNode>) {
    forall h <- hs :: Ids(h) <= rep.Keys
  }

  ghost function Components(rep: map<string, string>, hs: seq<RedisNode>): seq<Component>
    requires AllRooted(rep, hs)
  {
    seq(|hs|, i requires 0 <= i < |hs| => ComponentOf(rep, hs[i], i))
  }

  /** Holders that share an identity count for the same component. */
  ghost predicate SharingAgrees(hs: seq<RedisNode>, cs: seq<Component>)
    requires |cs| == |hs|
  {
    forall k, l :: 0 <= k < |hs| && 0 <= l < |hs| && cs[k] != cs[l] ==> Ids(hs[k]) !! Ids(hs[l])
  }

  lemma {:induction false} RootsAgree(hs: seq<RedisNode>)
    requires AllRooted(Roots(hs), hs)
    ensures SharingAgrees(hs, Components(Roots(hs), hs))
  {
    var rep := Roots(hs);
    var cs := Components(rep, hs);
    forall k, l | 0 <= k < |hs| && 0 <= l < |hs| && cs[k] != cs[l] ensures Ids(hs[k]) !! Ids(hs[l]) {
      HoldersHaveOneRoot(hs, hs[k]);
      HoldersHaveOneRoot(hs, hs[l]);
    }
  }

  /** Holders of one component on one side, the rest on the other: no identity crosses. */
  lemma {:induction false} TwoComponentsDiverge(hs: seq<RedisNode>, cs: seq<Component>, i: nat, j: nat)
    requires Distinct(hs) && |cs| == |hs| && i < |hs| && j < |hs|
    requires SharingAgrees(hs, cs) && cs[i] != cs[j]
    ensures Diverged(Elements(hs))
  {
    var holders := Elements(hs);
    var g := set k | 0 <= k < |hs| && cs[k] == cs[i] :: hs[k];
    assert hs[i] in g && hs[j] !in g && hs[j] in holders && g <= holders;
    forall a <- g, b <- holders - g ensures Ids(a) !! Ids(b) {
      var k :| 0 <= k < |hs| && cs[k] == cs[i] && hs[k] == a;
      var l :| 0 <= l < |hs| && hs[l] == b;
    }
    assert Unrelated(g, holders - g);
  }

  ghost function IdsOf(g: set<RedisNode>): set<string> {
    set h, x | h in g && x in Ids(h) :: x
  }

  /** The identities of one side of a split are a set no holder straddles. */
  lemma {:induction false} SplitIsWhole(g: set<RedisNode>, holders: set<RedisNode>, h: RedisNode)
    requires g <= holders && h in holders && Unrelated(g, holders - g)
    ensures Whole(h, IdsOf(g))
    ensures h in g ==> Ids(h) <= IdsOf(g)
    ensures h !in g ==> Ids(h) !! IdsOf(g)
  {
  }

  lemma {:induction false} SplitHasTwoComponents(hs: seq<RedisNode>, g: set<RedisNode>, i: nat, j: nat)
    requires AllRooted(Roots(hs), hs) && i < |hs| && j < |hs|
    requires g <= Elements(hs) && Unrelated(g, Elements(hs) - g) && hs[i] in g && hs[j] !in g
    ensures i != j && ComponentOf(Roots(hs), hs[i], i) != ComponentOf(Roots(hs), hs[j], j)
  {
    var s := IdsOf(g);
    forall h <- hs ensures Whole(h, s) { SplitIsWhole(g, Elements(hs), h); }
    RootsRespectWholeSets(hs, s);
    SplitIsWhole(g, Elements(hs), hs[i]);
    SplitIsWhole(g, Elements(hs), hs[j]);
  }

  lemma {:induction false} DivergedHasTwoComponents(hs: seq<RedisNode>) returns (i: nat, j: nat)
    requires AllRooted(Roots(hs), hs) && Diverged(Elements(hs))
    ensures i < |hs| && j < |hs| && Components(Roots(hs), hs)[i] != Components(Roots(hs), hs)[j]
  {
    var g: set<RedisNode> :| {} < g < Elements(hs) && Unrelated(g, Elements(hs) - g);
    var a :| a in g;
    var b :| b in Elements(hs) - g;
    i :| 0 <= i < |hs| && hs[i] == a;
    j :| 0 <= j < |hs| && hs[j] == b;
    SplitHasTwoComponents(hs, g, i, j);
  }

  lemma {:induction false} SingletonUnless<T>(s: set<T>, x: T)
    requires x in s && forall y <- s :: y == x
    ensures |s| == 1
  {
    assert s == {x};
  }

  lemma {:induction false} ComponentsDecide(hs: seq<RedisNode>, components: set<Component>)
    requires Distinct(hs) && AllRooted(Roots(hs), hs)
    requires components == set k | 0 <= k < |hs| :: Components(Roots(hs), hs)[k]
    ensures |components| > 1 <==> Diverged(Elements(hs))
  {
    var cs := Components(Roots(hs), hs);
    if k :| 0 <= k < |hs| && cs[k] != cs[0] {
      RootsAgree(hs);
      TwoComponentsDiverge(hs, cs, 0, k);
      SubsetSize({cs[0], cs[k]}, components);
    } else {
      if |hs| > 0 { SingletonUnless(components, cs[0]); }
      if Diverged(Elements(hs)) { var _, _ := DivergedHasTwoComponents(hs); }
    }
  }

  /** First pass of holdersDiverged: connect each holder's two identities. */
  method Connect(forest: Forest, hs: seq<RedisNode>)
    requires forest.Valid() && forest.rep == map[]
    modifies forest
    ensures forest.Valid() && forest.rep == Roots(hs)
  {
    for i := 0 to |hs|
      invariant forest.Valid() && forest.rep == Roots(hs[..i])
    {
      var h := hs[i];
      assert hs[..i + 1][..i] == hs[..i];
      if !ZeroReplid(h.replid) && !ZeroReplid(h.replid2) {
        forest.Union(h.replid, h.replid2);
      } else if !ZeroReplid(h.replid) {
        var _ := forest.Find(h.replid);
      } else if !ZeroReplid(h.replid2) {
        var _ := forest.Find(h.replid2);
      }
    }
    assert hs[..|hs|] == hs;
  }

  /** The component of the i-th holder, by its first usable replid. */
  method FindComponent(forest: Forest, hs: seq<RedisNode>, i: nat) returns (c: Component)
    requires forest.Valid() && forest.rep == Roots(hs) && i < |hs| && AllRooted(Roots(hs), hs)
    modifies forest
    ensures forest.Valid() && forest.rep == old(forest.rep) && c == Components(Roots(hs), hs)[i]
  {
    var h := hs[i];
    assert h in hs;
    if !ZeroReplid(h.replid) {
      var r := forest.Find(h.replid);
      c := Root(r);
    } else if !ZeroReplid(h.replid2) {
      var r := forest.Find(h.replid2);
      c := Root(r);
    } else {
      c := Lone(i);
    }
  }

  /** holdersDiverged: connect, then count the components the holders fall into. */
  method HoldersDiverged(hs: seq<RedisNode>) returns (diverged: bool)
    requires Distinct(hs)
    ensures diverged <==> Diverged(Elements(hs))
  {
    var forest := new Forest();
    Connect(forest, hs);
    forall h | h in hs ensures Ids(h) <= Roots(hs).Keys { HoldersHaveOneRoot(hs, h); }
    var components: set<Component> := {};
    ghost var cs := Components(Roots(hs), hs);
    for i := 0 to |hs|
      invariant forest.Valid() && forest.rep == Roots(hs)
      invariant components == set k | 0 <= k < i :: cs[k]
    {
      var c := FindComponent(forest, hs, i);
      components := components + {c};
    }
    diverged := |components| > 1;
    ComponentsDecide(hs, components);
  }

  lemma {:induction false} SubsetSize<T>(a: set<T>, b: set<T>)
    requires a <= b
    ensures |a| <= |b|
  {
    if x :| x in a { SubsetSize(a - {x}, b - {x}); }
  }

  // ------------------------------------------------------- most complete one

  /** Highest offset, then most keys, then smallest address. */
  predicate Ahead(a: RedisNode, b: RedisNode) {
    if a.offset != b.offset then a.offset > b.offset
    else if a.keys != b.keys then a.keys > b.keys
    else Less(a.ip, b.ip)
  }

  ghost predicate IsBest(best: RedisNode, holders: set<RedisNode>) {
    best in holders && forall h <- holders :: h == best || Ahead(best, h)
  }

  ghost predicate DistinctAddresses(holders: set<RedisNode>) {
    forall a, b :: a in holders && b in holders && a.ip == b.ip ==> a == b
  }

  /** Whatever order the node map is iterated in, one holder comes out. */
  lemma {:induction false} BestIsUnique(a: RedisNode, b: RedisNode, holders: set<RedisNode>)
    requires IsBest(a, holders) && IsBest(b, holders)
    ensures a == b
  {
    if a != b {
      assert Ahead(a, b) && Ahead(b, a);
      if Less(a.ip, b.ip) { LessAsymmetric(a.ip, b.ip); }
    }
  }

  method BestDataHolder(hs: seq<RedisNode>) returns (best: Option<RedisNode>, diverged: bool, forked: bool)
    requires Distinct(hs) && DistinctAddresses(Elements(hs))
    ensures best.None? <==> hs == []
    ensures best.Some? ==> IsBest(best.value, Elements(hs))
    ensures diverged <==> Diverged(Elements(hs))
    ensures forked <==> Forked(Elements(hs))
  {
    diverged := HoldersDiverged(hs);
    forked := HoldersForked(hs);
    if hs == [] {
      return None, diverged, forked;
    }
    var top := hs[0];
    for i := 0 to |hs|
      invariant top in hs
      invariant forall k :: 0 <= k < i ==> hs[k] == top || Ahead(top, hs[k])
    {
      var h := hs[i];
      var old_top := top;
      if h.offset != top.offset {
        if h.offset > top.offset { top := h; }
      } else if h.keys != top.keys {
        if h.keys > top.keys { top := h; }
      } else if Less(h.ip, top.ip) {
        top := h;
      }
      assert old_top in Elements(hs) && h in Elements(hs);
      if top == old_top && h != top && h.offset == top.offset && h.keys == top.keys {
        LessTotal(h.ip, top.ip);
      }
      forall k | 0 <= k < i ensures hs[k] == top || Ahead(top, hs[k]) {
        if top != old_top && hs[k] != old_top { AheadTransitive(top, old_top, hs[k]); }
      }
    }
    best := Some(top);
  }

  lemma {:induction false} AheadTransitive(a: RedisNode, b: RedisNode, c: RedisNode)
    requires Ahead(a, b) && Ahead(b, c)
    ensures Ahead(a, c)
  {
    if Less(a.ip, b.ip) && Less(b.ip, c.ip) { LessTransitive(a.ip, b.ip, c.ip); }
  }

  method HoldersForked(hs: seq<RedisNode>) returns (forked: bool)
    requires Distinct(hs)
    ensures forked <==> Forked(Elements(hs))
  {
    var writable := 0;
    ghost var first := 0;
    for i := 0 to |hs|
      invariant writable == 0 || writable == 1
      invariant writable == 0 ==> forall k :: 0 <= k < i ==> hs[k].role != Master
      invariant writable == 1 ==> 0 <= first < i && hs[first].role == Master
      invariant writable == 1 ==> forall k :: 0 <= k < i && k != first ==> hs[k].role != Master
    {
      if hs[i].role == Master {
        writable := writable + 1;
        if writable > 1 {
          assert hs[first] in Elements(hs) && hs[i] in Elements(hs) && hs[first] != hs[i];
          return true;
        }
        first := i;
      }
    }
    return false;
  }
}
