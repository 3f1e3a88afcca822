/** The Requires graph of the heavy-operation registry and its cycle detector
    (internal/controller/operation_registry.go). */
module OperationGraph {
  datatype Operation = Operation(name: string, needs: seq<string>, stallAfter: int)

  /** Requires edges by name; a repeated name keeps its last entry. */
  type Graph = map<string, seq<string>>

  function GraphOf(ops: seq<Operation>): Graph {
    if ops == [] then map[]
    else GraphOf(ops[..|ops| - 1])[ops[|ops| - 1].name := ops[|ops| - 1].needs]
  }

  /** Edges to unknown names are not edges. */
  predicate Edge(g: Graph, a: string, b: string) {
    a in g && b in g && b in g[a]
  }

  predicate IsPath(g: Graph, p: seq<string>) {
    (forall i :: 0 <= i < |p| ==> p[i] in g) && forall i :: 0 <= i < |p| - 1 ==> Edge(g, p[i], p[i + 1])
  }

  /** A closed walk, first name repeated at the end. */
  predicate IsCycle(g: Graph, p: seq<string>) {
    |p| >= 2 && p[0] == p[|p| - 1] && IsPath(g, p)
  }

  ghost predicate Acyclic(g: Graph) {
    forall p :: !IsCycle(g, p)
  }

  /** Every edge out of a ranked name leads to a ranked name of smaller rank. */
  ghost predicate Ranked(g: Graph, rank: map<string, nat>) {
    forall a, b :: a in rank && Edge(g, a, b) ==> b in rank && rank[b] < rank[a]
  }

  lemma {:induction false} RankFalls(g: Graph, rank: map<string, nat>, p: seq<string>, i: nat)
    requires Ranked(g, rank) && IsPath(g, p) && i < |p| && p[0] in rank
    ensures p[i] in rank && rank[p[i]] <= rank[p[0]] - i
  {
    if i > 0 {
      RankFalls(g, rank, p, i - 1);
      assert Edge(g, p[i - 1], p[i - 1 + 1]);
    }
  }

  lemma {:induction false} RankedIsAcyclic(g: Graph, rank: map<string, nat>)
    requires Ranked(g, rank) && g.Keys <= rank.Keys
    ensures Acyclic(g)
  {
    forall p ensures !IsCycle(g, p) {
      if |p| >= 2 && IsPath(g, p) {
        RankFalls(g, rank, p, |p| - 1);
      }
    }
  }

  lemma {:induction false} CutAtRepeat(g: Graph, p: seq<string>, i: nat, again: string)
    requires IsPath(g, p) && i < |p| && p[i] == again && Edge(g, p[|p| - 1], again)
    ensures IsCycle(g, p[i..] + [again])
  {
    var c := p[i..] + [again];
    forall j | 0 <= j < |c| - 1 ensures Edge(g, c[j], c[j + 1]) {
      if j < |p| - i - 1 { assert Edge(g, p[i + j], p[i + j + 1]); }
    }
  }

  datatype Colour = OnStack | Done

  class CycleFinder {
    const graph: Graph
    var colour: map<string, Colour>
    var stack: seq<string>
    var cycle: seq<string>
    ghost var rank: map<string, nat>

    constructor (graph: Graph)
      ensures this.graph == graph && Valid() && stack == [] && colour == map[]
    {
      this.graph := graph;
      colour, stack, cycle, rank := map[], [], [], map[];
    }

    ghost predicate Valid()
      reads this
    {
      && colour.Keys <= graph.Keys && IsPath(graph, stack) && Ranked(graph, rank)
      && (forall n :: n in stack <==> n in colour && colour[n] == OnStack)
      && (forall n :: n in rank <==> n in colour && colour[n] == Done)
      && (forall i, j :: 0 <= i < j < |stack| ==> stack[i] != stack[j])
    }

    /** The report: the stack from the repeated name on, closed by that name. */
    method Report(again: string)
      requires Valid() && again in stack && Edge(graph, stack[|stack| - 1], again)
      modifies this`cycle
      ensures IsCycle(graph, cycle)
    {
      var i := 0;
      while stack[i] != again
        invariant 0 <= i < |stack| && again !in stack[..i]
        decreases |stack| - i
      {
        assert exists k :: 0 <= k < |stack| && stack[k] == again;
        assert stack[..i + 1] == stack[..i] + [stack[i]];
        i := i + 1;
      }
      CutAtRepeat(graph, stack, i, again);
      cycle := stack[i..] + [again];
    }

    method Push(name: string)
      requires Valid() && name in graph && name !in colour
      requires stack != [] ==> Edge(graph, stack[|stack| - 1], name)
      modifies this`colour, this`stack
      ensures Valid() && stack == old(stack) + [name] && colour == old(colour)[name := OnStack]
    {
      colour := colour[name := OnStack];
      stack := stack + [name];
    }

    method Pop(name: string, ghost top: nat)
      requires Valid() && stack != [] && stack[|stack| - 1] == name
      requires forall m :: Edge(graph, name, m) ==> m in rank && rank[m] < top
      modifies this`colour, this`stack, this`rank
      ensures Valid() && stack == old(stack[..|stack| - 1]) && colour == old(colour)[name := Done]
      ensures rank == old(rank)[name := top]
    {
      ghost var before := stack;
      stack := stack[..|stack| - 1];
      colour := colour[name := Done];
      rank := rank[name := top];
      assert forall i :: 0 <= i < |stack| ==> stack[i] == before[i];
    }

    /** One requirement of the name on top of the stack. */
    method Follow(req: string) returns (found: bool)
      requires Valid() && stack != [] && req in graph && Edge(graph, stack[|stack| - 1], req)
      modifies this
      ensures found ==> IsCycle(graph, cycle)
      ensures !found ==> Valid() && stack == old(stack) && req in rank && old(rank.Keys) <= rank.Keys && old(colour.Keys) <= colour.Keys
      decreases graph.Keys - colour.Keys, 1
    {
      if req !in colour {
        found := Visit(req);
      } else if colour[req] == OnStack {
        Report(req);
        found := true;
      } else {
        found := false;
      }
    }

    /** The requirements of the name on top of the stack, in order, until one closes a cycle. */
    method FollowAll(name: string) returns (found: bool)
      requires Valid() && stack != [] && stack[|stack| - 1] == name && name in graph
      modifies this
      ensures found ==> IsCycle(graph, cycle)
      ensures !found ==> Valid() && stack == old(stack) && old(rank.Keys) <= rank.Keys && old(colour.Keys) <= colour.Keys
      ensures !found ==> forall m :: Edge(graph, name, m) ==> m in rank
      decreases graph.Keys - colour.Keys, 2
    {
      var needs := graph[name];
      for i := 0 to |needs|
        invariant Valid() && stack == old(stack) && old(rank.Keys) <= rank.Keys && old(colour.Keys) <= colour.Keys
        invariant forall j :: 0 <= j < i && needs[j] in graph ==> needs[j] in rank
      {
        if needs[i] in graph {
          var deeper := Follow(needs[i]);
          if deeper {
            return true;
          }
        }
      }
      return false;
    }

    method Visit(name: string) returns (found: bool)
      requires Valid() && name in graph && name !in colour
      requires stack != [] ==> Edge(graph, stack[|stack| - 1], name)
      modifies this
      ensures found ==> IsCycle(graph, cycle)
      ensures !found ==> Valid() && stack == old(stack) && name in rank && old(rank.Keys) <= rank.Keys && old(colour.Keys) <= colour.Keys
      decreases graph.Keys - colour.Keys, 0
    {
      Push(name);
      found := FollowAll(name);
      if !found {
        Pop(name, Above(rank));
      }
    }
  }

  /** A number above every rank in use. */
  ghost function Above(rank: map<string, nat>): (n: nat)
    ensures forall a :: a in rank ==> rank[a] < n
    decreases |rank|
  {
    if rank == map[] then 0
    else
      var a :| a in rank;
      var rest := rank - {a};
      assert forall b :: b in rank ==> b == a || b in rest;
      if rank[a] < Above(rest) then Above(rest) else rank[a] + 1
  }

  method RequiresGraph(ops: seq<Operation>) returns (g: Graph)
    ensures g == GraphOf(ops)
  {
    g := map[];
    for i := 0 to |ops|
      invariant g == GraphOf(ops[..i])
    {
      assert ops[..i + 1][..i] == ops[..i];
      g := g[ops[i].name := ops[i].needs];
    }
    assert ops[..|ops|] == ops;
  }

  lemma {:induction false} GraphHasEveryName(ops: seq<Operation>, name: string)
    ensures name in GraphOf(ops) <==> exists i :: 0 <= i < |ops| && ops[i].name == name
  {
    if ops != [] {
      var init := ops[..|ops| - 1];
      GraphHasEveryName(init, name);
      if name in GraphOf(init) {
        var i :| 0 <= i < |init| && init[i].name == name;
        assert ops[i].name == name;
      } else if i :| 0 <= i < |ops| && ops[i].name == name {
        if i < |init| { assert init[i].name == name; }
      }
    }
  }

  /** Nil exactly when the graph has no closed walk, and otherwise one of them. */
  method OperationRequiresCycle(ops: seq<Operation>) returns (cycle: seq<string>)
    ensures cycle == [] <==> Acyclic(GraphOf(ops))
    ensures cycle != [] ==> IsCycle(GraphOf(ops), cycle)
  {
    var g := RequiresGraph(ops);
    var finder := new CycleFinder(g);
    for i := 0 to |ops|
      invariant finder.graph == g && finder.Valid() && finder.stack == []
      invariant forall j :: 0 <= j < i ==> ops[j].name in finder.rank
    {
      GraphHasEveryName(ops, ops[i].name);
      if ops[i].name !in finder.colour {
        var found := finder.Visit(ops[i].name);
        if found {
          return finder.cycle;
        }
      }
    }
    forall name | name in g ensures name in finder.rank { GraphHasEveryName(ops, name); }
    RankedIsAcyclic(g, finder.rank);
    return [];
  }

  // ---------------------------------------------------------------- progress

  ghost predicate Waits(g: Graph, pending: set<string>, name: string) {
    exists req <- pending :: Edge(g, name, req)
  }

  lemma {:induction false} PathGrows(g: Graph, p: seq<string>, next: string)
    requires p != [] && IsPath(g, p) && Edge(g, p[|p| - 1], next)
    ensures IsPath(g, p + [next])
  {
    var q := p + [next];
    forall i | 0 <= i < |q| - 1 ensures Edge(g, q[i], q[i + 1]) {
      if i < |p| - 1 { assert Edge(g, p[i], p[i + 1]); }
    }
  }

  /** A walk inside a set whose every member waits on another must close; `unmet` holds the names
      the walk has not met. */
  lemma {:induction false} WalkCloses(g: Graph, pending: set<string>, p: seq<string>, unmet: set<string>) returns (c: seq<string>)
    requires p != [] && IsPath(g, p) && p[|p| - 1] in pending
    requires forall n <- pending :: n in p || n in unmet
    requires forall n <- pending :: Waits(g, pending, n)
    ensures IsCycle(g, c)
    decreases unmet
  {
    var req :| req in pending && Edge(g, p[|p| - 1], req);
    if i :| 0 <= i < |p| && p[i] == req {
      CutAtRepeat(g, p, i, req);
      c := p[i..] + [req];
    } else {
      PathGrows(g, p, req);
      c := WalkCloses(g, pending, p + [req], unmet - {req});
    }
  }

  /** On an acyclic graph, of any pending names at least one waits on none of the others. */
  lemma {:induction false} SomethingIsRunnable(g: Graph, pending: set<string>)
    requires Acyclic(g) && pending != {} && pending <= g.Keys
    ensures exists n <- pending :: !Waits(g, pending, n)
  {
    if forall n <- pending :: Waits(g, pending, n) {
      var n :| n in pending;
      var c := WalkCloses(g, pending, [n], pending);
      assert false;
    }
  }
}
