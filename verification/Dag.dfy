/** Workflow graphs (engine/scheduler.js): a multigraph of named nodes, the maps that
    the scheduler builds from it, and the edge counts behind its counters. */
module Dags {
  import opened Common

  type Name = string
  type Var = string

  datatype Edge = Edge(from: Name, to: Name)

  datatype OnError = Continue | Terminate

  /** One declared node. `outputs` is the normalised `pluginField: ctxVar` list. */
  datatype NodeDef = NodeDef(
    name: Name,
    action: string,
    hasExecuteIf: bool,
    hasBatchOver: bool,
    retry: int,
    onError: OnError,
    outputs: seq<(string, Var)>,
    outputVar: Option<Var>)

  datatype Dag = Dag(nodes: seq<NodeDef>, edges: seq<Edge>, maxIterations: Option<int>)

  function Names(d: Dag): set<Name> { set i | 0 <= i < |d.nodes| :: d.nodes[i].name }

  function NameSeq(nodes: seq<NodeDef>): (r: seq<Name>)
    ensures |r| == |nodes| && forall i :: 0 <= i < |r| ==> r[i] == nodes[i].name
  {
    seq(|nodes|, i requires 0 <= i < |nodes| => nodes[i].name)
  }

  lemma NameSeqExact(d: Dag)
    ensures forall x :: x in NameSeq(d.nodes) <==> x in Names(d)
  {
    forall x | x in Names(d)
      ensures x in NameSeq(d.nodes)
    {
      var i :| 0 <= i < |d.nodes| && d.nodes[i].name == x;
      assert NameSeq(d.nodes)[i] == x;
    }
  }

  ghost predicate UniqueNames(nodes: seq<NodeDef>) {
    forall i, j :: 0 <= i < j < |nodes| ==> nodes[i].name != nodes[j].name
  }

  ghost predicate KnownEndpoints(d: Dag) {
    forall e :: e in d.edges ==> e.from in Names(d) && e.to in Names(d)
  }

  /** What `parseDag` has checked before it looks for cycles. */
  ghost predicate WellFormed(d: Dag) {
    UniqueNames(d.nodes) && KnownEndpoints(d)
  }

  /** `byName.get(n)`. */
  function Def(d: Dag, n: Name): (r: NodeDef)
    requires n in Names(d)
    ensures r in d.nodes && r.name == n
  {
    DefIn(d.nodes, n)
  }

  function DefIn(nodes: seq<NodeDef>, n: Name): (r: NodeDef)
    requires exists i :: 0 <= i < |nodes| && nodes[i].name == n
    ensures r in nodes && r.name == n
  {
    if nodes[0].name == n then nodes[0] else DefIn(nodes[1..], n)
  }

  ghost predicate IsParent(d: Dag, p: Name, n: Name) { Edge(p, n) in d.edges }

  // ---- directed walks -------------------------------------------------------

  /** A directed walk of exactly `k` edges leads from `a` to `n`. */
  ghost predicate Walk(d: Dag, a: Name, n: Name, k: nat)
    decreases k
  {
    if k == 0 then a == n
    else exists p :: Walk(d, a, p, k - 1) && IsParent(d, p, n)
  }

  /** `a` is a proper ancestor of `n`: a walk of at least one edge leads from `a` to `n`. */
  ghost predicate Ancestor(d: Dag, a: Name, n: Name) {
    exists k :: k > 0 && Walk(d, a, n, k)
  }

  /** There is no directed cycle. */
  ghost predicate Acyclic(d: Dag) { forall x :: !Ancestor(d, x, x) }

  lemma ParentIsAncestor(d: Dag, p: Name, n: Name)
    requires IsParent(d, p, n)
    ensures Ancestor(d, p, n)
  {
    assert Walk(d, p, p, 0);
    assert Walk(d, p, n, 1);
  }

  lemma AncestorStep(d: Dag, a: Name, p: Name, n: Name)
    requires Ancestor(d, a, p) && IsParent(d, p, n)
    ensures Ancestor(d, a, n)
  {
    var k :| k > 0 && Walk(d, a, p, k);
    assert Walk(d, a, n, k + 1);
  }

  /** An ancestor is a parent or an ancestor of a parent. */
  lemma AncestorCases(d: Dag, a: Name, n: Name) returns (p: Name)
    requires Ancestor(d, a, n)
    ensures IsParent(d, p, n) && (p == a || Ancestor(d, a, p))
  {
    var k :| k > 0 && Walk(d, a, n, k);
    p :| Walk(d, a, p, k - 1) && IsParent(d, p, n);
  }

  // ---- topological orders ---------------------------------------------------

  /** Every edge into an element of `order` starts at an earlier element. */
  ghost predicate EdgesForward(d: Dag, order: seq<Name>) {
    forall i, p :: 0 <= i < |order| && IsParent(d, p, order[i]) ==> p in order[..i]
  }

  ghost predicate TopologicalOrder(d: Dag, order: seq<Name>) {
    && NoDuplicates(order)
    && (forall n :: n in order <==> n in Names(d))
    && EdgesForward(d, order)
  }

  /** In a topological order every ancestor comes strictly earlier. */
  lemma {:induction false} WalkGoesForward(d: Dag, order: seq<Name>, a: Name, j: nat, k: nat)
    requires EdgesForward(d, order) && j < |order|
    requires k > 0 && Walk(d, a, order[j], k)
    ensures a in order[..j]
    decreases k
  {
    var p :| Walk(d, a, p, k - 1) && IsParent(d, p, order[j]);
    assert p in order[..j];
    if k > 1 {
      var i :| 0 <= i < j && order[i] == p;
      WalkGoesForward(d, order, a, i, k - 1);
      assert order[..i] <= order[..j];
    }
  }

  lemma AncestorGoesForward(d: Dag, order: seq<Name>, a: Name, j: nat)
    requires EdgesForward(d, order) && j < |order| && Ancestor(d, a, order[j])
    ensures a in order[..j]
  {
    var k :| k > 0 && Walk(d, a, order[j], k);
    WalkGoesForward(d, order, a, j, k);
  }

  lemma TopologicalIsAcyclic(d: Dag, order: seq<Name>)
    requires TopologicalOrder(d, order) && KnownEndpoints(d)
    ensures Acyclic(d)
  {
    forall x | Ancestor(d, x, x)
      ensures false
    {
      var p := AncestorCases(d, x, x);
      assert Edge(p, x) in d.edges;
      var j :| 0 <= j < |order| && order[j] == x;
      AncestorGoesForward(d, order, x, j);
    }
  }

  // ---- edge counts ----------------------------------------------------------

  /** Edges into `x`, with multiplicity, whose source is not in `done`. */
  ghost function Unreleased(edges: seq<Edge>, x: Name, done: set<Name>): nat {
    if edges == [] then 0
    else
      var e := edges[|edges| - 1];
      Unreleased(edges[..|edges| - 1], x, done) + (if e.to == x && e.from !in done then 1 else 0)
  }

  /** The targets of the edges that leave `n`, in edge order: `adj.get(n)`. */
  ghost function Targets(edges: seq<Edge>, n: Name): seq<Name> {
    if edges == [] then []
    else
      var e := edges[|edges| - 1];
      Targets(edges[..|edges| - 1], n) + (if e.from == n then [e.to] else [])
  }

  /** The sources of the edges that enter `n`, in edge order: `parents.get(n)`. */
  ghost function Sources(edges: seq<Edge>, n: Name): seq<Name> {
    if edges == [] then []
    else
      var e := edges[|edges| - 1];
      Sources(edges[..|edges| - 1], n) + (if e.to == n then [e.from] else [])
  }

  /** Once `n` is done, each of its edges into `x` stops counting, parallel edges included. */
  lemma {:induction false} ReleaseOne(edges: seq<Edge>, x: Name, done: set<Name>, n: Name)
    requires n !in done
    ensures Unreleased(edges, x, done + {n}) == Unreleased(edges, x, done) - multiset(Targets(edges, n))[x]
  {
    if edges != [] {
      ReleaseOne(edges[..|edges| - 1], x, done, n);
    }
  }

  /** A counter is zero exactly when every source of an edge into the node is done. */
  lemma {:induction false} UnreleasedZero(edges: seq<Edge>, x: Name, done: set<Name>)
    ensures Unreleased(edges, x, done) == 0 <==> forall e :: e in edges && e.to == x ==> e.from in done
  {
    if edges != [] {
      var init, last := edges[..|edges| - 1], edges[|edges| - 1];
      UnreleasedZero(init, x, done);
      assert edges == init + [last];
      assert last in edges;
    }
  }

  lemma {:induction false} TargetsExact(edges: seq<Edge>, n: Name, x: Name)
    ensures x in Targets(edges, n) <==> Edge(n, x) in edges
  {
    if edges != [] {
      TargetsExact(edges[..|edges| - 1], n, x);
      assert edges == edges[..|edges| - 1] + [edges[|edges| - 1]];
    }
  }

  lemma {:induction false} SourcesExact(edges: seq<Edge>, n: Name, p: Name)
    ensures p in Sources(edges, n) <==> Edge(p, n) in edges
  {
    if edges != [] {
      SourcesExact(edges[..|edges| - 1], n, p);
      assert edges == edges[..|edges| - 1] + [edges[|edges| - 1]];
    }
  }

  /** Counters while `n` is being released: its first `k` targets have been decremented,
      every source in `done` has been released in full. */
  ghost predicate CountersAt(d: Dag, counters: map<Name, int>, done: set<Name>, n: Name, k: nat)
    requires k <= |Targets(d.edges, n)|
  {
    && counters.Keys == Names(d)
    && forall x :: x in Names(d) ==>
         counters[x] == Unreleased(d.edges, x, done) - multiset(Targets(d.edges, n)[..k])[x]
  }

  /** Counters between two releases. */
  ghost predicate Counters(d: Dag, counters: map<Name, int>, done: set<Name>) {
    && counters.Keys == Names(d)
    && forall x :: x in Names(d) ==> counters[x] == Unreleased(d.edges, x, done)
  }

  lemma CountersStart(d: Dag, counters: map<Name, int>, done: set<Name>, n: Name)
    requires Counters(d, counters, done)
    ensures CountersAt(d, counters, done, n, 0)
  {
  }

  lemma CountPrefix(ts: seq<Name>, k: nat, x: Name)
    requires k < |ts|
    ensures multiset(ts[..k + 1])[x] == multiset(ts[..k])[x] + (if ts[k] == x then 1 else 0)
  {
    assert ts[..k + 1] == ts[..k] + [ts[k]];
  }

  /** The edges to the next target are not all released yet. */
  lemma StillToRelease(edges: seq<Edge>, done: set<Name>, n: Name, k: nat)
    requires n !in done && k < |Targets(edges, n)|
    ensures var ts := Targets(edges, n); Unreleased(edges, ts[k], done) > multiset(ts[..k])[ts[k]]
  {
    var ts := Targets(edges, n);
    ReleaseOne(edges, ts[k], done, n);
    assert ts == ts[..k] + [ts[k]] + ts[k + 1..];
  }

  /** The counter about to be decremented is positive, so it never drops below zero. */
  lemma CounterStep(d: Dag, counters: map<Name, int>, done: set<Name>, n: Name, k: nat)
    requires KnownEndpoints(d) && n !in done && k < |Targets(d.edges, n)|
    requires CountersAt(d, counters, done, n, k)
    ensures var x := Targets(d.edges, n)[k];
            x in Names(d) && counters[x] >= 1 && CountersAt(d, counters[x := counters[x] - 1], done, n, k + 1)
  {
    var ts := Targets(d.edges, n);
    var x := ts[k];
    TargetsExact(d.edges, n, x);
    assert Edge(n, x) in d.edges;
    StillToRelease(d.edges, done, n, k);
    forall y
      ensures multiset(ts[..k + 1])[y] == multiset(ts[..k])[y] + (if x == y then 1 else 0)
    {
      CountPrefix(ts, k, y);
    }
  }

  lemma CountersEnd(d: Dag, counters: map<Name, int>, done: set<Name>, n: Name)
    requires n !in done && CountersAt(d, counters, done, n, |Targets(d.edges, n)|)
    ensures Counters(d, counters, done + {n})
  {
    var ts := Targets(d.edges, n);
    assert ts[..|ts|] == ts;
    forall x | x in Names(d)
      ensures counters[x] == Unreleased(d.edges, x, done + {n})
    {
      ReleaseOne(d.edges, x, done, n);
    }
  }

  /** The maps of `buildDag` (engine/scheduler.js) and the executor's reverse adjacency. */
  datatype Maps = Maps(adj: map<Name, seq<Name>>, indegree: map<Name, int>, parents: map<Name, seq<Name>>)

  ghost predicate MapsOf(d: Dag, m: Maps) {
    && m.adj.Keys == m.indegree.Keys == m.parents.Keys == Names(d)
    && (forall n :: n in Names(d) ==> m.adj[n] == Targets(d.edges, n))
    && (forall n :: n in Names(d) ==> m.parents[n] == Sources(d.edges, n))
    && (forall n :: n in Names(d) ==> m.indegree[n] == Unreleased(d.edges, n, {}))
  }

  /** The maps after the first `i` edges have been entered. */
  ghost predicate MapsUpTo(d: Dag, i: nat, m: Maps)
    requires i <= |d.edges|
  {
    && m.adj.Keys == m.indegree.Keys == m.parents.Keys == Names(d)
    && (forall n :: n in Names(d) ==> m.adj[n] == Targets(d.edges[..i], n))
    && (forall n :: n in Names(d) ==> m.parents[n] == Sources(d.edges[..i], n))
    && (forall n :: n in Names(d) ==> m.indegree[n] == Unreleased(d.edges[..i], n, {}))
  }

  lemma CountsStep(edges: seq<Edge>, i: nat, n: Name)
    requires i < |edges|
    ensures Targets(edges[..i + 1], n) == Targets(edges[..i], n) + (if edges[i].from == n then [edges[i].to] else [])
    ensures Sources(edges[..i + 1], n) == Sources(edges[..i], n) + (if edges[i].to == n then [edges[i].from] else [])
    ensures Unreleased(edges[..i + 1], n, {}) == Unreleased(edges[..i], n, {}) + (if edges[i].to == n then 1 else 0)
  {
    assert edges[..i + 1][..i] == edges[..i];
  }

  method EmptyMaps(d: Dag) returns (m: Maps)
    ensures MapsUpTo(d, 0, m)
  {
    m := Maps(map[], map[], map[]);
    for i := 0 to |d.nodes|
      invariant m.adj.Keys == m.indegree.Keys == m.parents.Keys == set j | 0 <= j < i :: d.nodes[j].name
      invariant forall n :: n in m.adj ==> m.adj[n] == [] && m.indegree[n] == 0 && m.parents[n] == []
    {
      var n := d.nodes[i].name;
      m := Maps(m.adj[n := []], m.indegree[n := 0], m.parents[n := []]);
    }
  }

  method AddEdge(d: Dag, i: nat, m: Maps) returns (r: Maps)
    requires WellFormed(d) && i < |d.edges| && MapsUpTo(d, i, m)
    ensures MapsUpTo(d, i + 1, r)
  {
    hide Unreleased, Targets, Sources;
    var e := d.edges[i];
    assert e in d.edges;
    r := Maps(
      m.adj[e.from := m.adj[e.from] + [e.to]],
      m.indegree[e.to := m.indegree[e.to] + 1],
      m.parents[e.to := m.parents[e.to] + [e.from]]);
    forall n | n in Names(d)
      ensures r.adj[n] == Targets(d.edges[..i + 1], n)
      ensures r.parents[n] == Sources(d.edges[..i + 1], n)
      ensures r.indegree[n] == Unreleased(d.edges[..i + 1], n, {})
    {
      CountsStep(d.edges, i, n);
    }
  }

  method BuildDag(d: Dag) returns (m: Maps)
    requires WellFormed(d)
    ensures MapsOf(d, m)
  {
    m := EmptyMaps(d);
    for i := 0 to |d.edges|
      invariant MapsUpTo(d, i, m)
    {
      m := AddEdge(d, i, m);
    }
    assert d.edges[..|d.edges|] == d.edges;
  }
}
