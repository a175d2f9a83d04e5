/** Acceptance of a workflow (dsl/parser.js): names, edge endpoints, required plugin
    inputs and Kahn's cycle check, in the order the source performs them. */
module Parser {
  import opened Common
  import opened Dags

  datatype ParseError =
    | DuplicateName(name: Name)
    | UnknownSource(edge: Edge)
    | UnknownTarget(edge: Edge)
    | SelfLoop(name: Name)
    | MissingInput(node: Name, key: string)
    | ContainsCycle

  ghost predicate NoSelfLoops(d: Dag) {
    forall e :: e in d.edges ==> e.from != e.to
  }

  // ---- Kahn's algorithm -----------------------------------------------------

  /** What holds whenever the outer loop of Kahn's algorithm tests its queue:
      counters count edges from unvisited sources, and a node has been visited or
      queued exactly when its counter is zero. */
  ghost predicate KahnInvariant(d: Dag, indegree: map<Name, int>, visited: set<Name>, queue: seq<Name>) {
    && Counters(d, indegree, visited)
    && NoDuplicates(queue)
    && (forall x :: x in queue ==> x in Names(d) && x !in visited)
    && visited <= Names(d)
    && (forall x :: x in Names(d) ==> (indegree[x] == 0 <==> x in visited || x in queue))
  }

  /** Inside the inner loop `n` has left the queue and its first `k` targets have been decremented. */
  ghost predicate Decremented(
    d: Dag, indegree: map<Name, int>, visited: set<Name>, queue: seq<Name>, n: Name, k: nat)
    requires k <= |Targets(d.edges, n)|
  {
    && CountersAt(d, indegree, visited, n, k)
    && NoDuplicates(queue)
    && (forall x :: x in queue ==> x in Names(d) && x !in visited && x != n)
    && visited <= Names(d) && n in Names(d) && n !in visited
    && (forall x :: x in Names(d) ==> (indegree[x] == 0 <==> x in visited || x == n || x in queue))
  }

  lemma PopKeeps(d: Dag, indegree: map<Name, int>, visited: set<Name>, queue: seq<Name>)
    requires KahnInvariant(d, indegree, visited, queue) && queue != []
    ensures Decremented(d, indegree, visited, queue[1..], queue[0], 0)
    ensures forall p :: IsParent(d, p, queue[0]) ==> p in visited
  {
    var n := queue[0];
    assert n in queue;
    assert queue == [n] + queue[1..];
    UnreleasedZero(d.edges, n, visited);
  }

  method DecrementTarget(
    d: Dag, indegree: map<Name, int>, ghost visited: set<Name>, queue: seq<Name>, ghost n: Name,
    next: Name, ghost k: nat)
    returns (indegree': map<Name, int>, queue': seq<Name>)
    requires KnownEndpoints(d)
    requires k < |Targets(d.edges, n)| && next == Targets(d.edges, n)[k]
    requires Decremented(d, indegree, visited, queue, n, k)
    ensures Decremented(d, indegree', visited, queue', n, k + 1)
  {
    CounterStep(d, indegree, visited, n, k);
    indegree' := indegree[next := indegree[next] - 1];
    queue' := queue;
    if indegree'[next] == 0 {
      queue' := queue + [next];
    }
  }

  lemma AllDecremented(d: Dag, indegree: map<Name, int>, visited: set<Name>, queue: seq<Name>, n: Name)
    requires Decremented(d, indegree, visited, queue, n, |Targets(d.edges, n)|)
    ensures KahnInvariant(d, indegree, visited + {n}, queue)
  {
    CountersEnd(d, indegree, visited, n);
  }

  /** The initial queue: the declared nodes with no incoming edge, in declaration order. */
  method InitialQueue(d: Dag, indegree: map<Name, int>) returns (queue: seq<Name>)
    requires UniqueNames(d.nodes) && indegree.Keys == Names(d)
    ensures NoDuplicates(queue)
    ensures forall x :: x in queue <==> x in Names(d) && indegree[x] == 0
  {
    queue := [];
    for i := 0 to |d.nodes|
      invariant NoDuplicates(queue)
      invariant forall x :: x in queue <==> exists j :: 0 <= j < i && d.nodes[j].name == x && indegree[x] == 0
    {
      var n := d.nodes[i].name;
      if indegree[n] == 0 {
        queue := queue + [n];
      }
    }
  }

  /** No node outside `visited` can be visited: each still waits for another such node. */
  ghost predicate Stuck(d: Dag, visited: set<Name>) {
    forall x {:trigger HeldUp(d, visited, x)} :: x in Names(d) - visited ==> HeldUp(d, visited, x)
  }

  ghost predicate HeldUp(d: Dag, visited: set<Name>, x: Name) {
    exists p :: p in Names(d) - visited && IsParent(d, p, x)
  }

  ghost predicate Lists(order: seq<Name>, s: set<Name>) {
    NoDuplicates(order) && forall x :: x in order <==> x in s
  }

  lemma {:induction false} ListsSize(order: seq<Name>, s: set<Name>)
    requires Lists(order, s)
    ensures |order| == |s|
  {
    if order == [] {
      assert s == {};
    } else {
      var k := |order| - 1;
      assert order == order[..k] + [order[k]];
      ListsSize(order[..k], s - {order[k]});
    }
  }

  lemma AppendVisited(d: Dag, order: seq<Name>, visited: set<Name>, n: Name)
    requires Lists(order, visited) && EdgesForward(d, order) && n !in visited
    requires forall p :: IsParent(d, p, n) ==> p in visited
    ensures Lists(order + [n], visited + {n}) && EdgesForward(d, order + [n])
  {
    forall i, p | 0 <= i < |order + [n]| && IsParent(d, p, (order + [n])[i])
      ensures p in (order + [n])[..i]
    {
      assert (order + [n])[..i] == order[..i];
      assert order[..|order|] == order;
    }
  }

  /** The inner loop: decrement the counter of every target of `n`. */
  method ReleaseTargets(
    d: Dag, ts: seq<Name>, indegree0: map<Name, int>, ghost visited: set<Name>, queue0: seq<Name>, ghost n: Name)
    returns (indegree: map<Name, int>, queue: seq<Name>)
    requires KnownEndpoints(d) && ts == Targets(d.edges, n)
    requires Decremented(d, indegree0, visited, queue0, n, 0)
    ensures KahnInvariant(d, indegree, visited + {n}, queue)
  {
    hide KahnInvariant, Decremented;
    indegree, queue := indegree0, queue0;
    for k := 0 to |ts|
      invariant Decremented(d, indegree, visited, queue, n, k)
    {
      indegree, queue := DecrementTarget(d, indegree, visited, queue, n, ts[k], k);
    }
    AllDecremented(d, indegree, visited, queue, n);
  }

  /** Kahn's loop visits a maximal set of nodes, in an order that respects every edge. */
  method KahnVisit(d: Dag) returns (visited: nat, ghost order: seq<Name>, ghost done: set<Name>)
    requires WellFormed(d)
    ensures visited == |order| && Lists(order, done) && done <= Names(d)
    ensures EdgesForward(d, order)
    ensures Stuck(d, done)
  {
    var m := BuildDag(d);
    var indegree := m.indegree;
    var queue := InitialQueue(d, indegree);
    visited, order, done := 0, [], {};
    while queue != []
      invariant KahnInvariant(d, indegree, done, queue)
      invariant visited == |order| && Lists(order, done) && EdgesForward(d, order)
      decreases Names(d) - done
    {
      PopKeeps(d, indegree, done, queue);
      var n := queue[0];
      visited := visited + 1;
      indegree, queue := ReleaseTargets(d, m.adj[n], indegree, done, queue[1..], n);
      AppendVisited(d, order, done, n);
      order, done := order + [n], done + {n};
    }
    forall x | x in Names(d) - done
      ensures HeldUp(d, done, x)
    {
      UnreleasedZero(d.edges, x, done);
      var e :| e in d.edges && e.to == x && e.from !in done;
      assert IsParent(d, e.from, x);
    }
  }

  // ---- soundness and completeness -------------------------------------------

  ghost predicate EdgeAt(d: Dag, w: seq<Name>, i: nat)
    requires i + 1 < |w|
  {
    IsParent(d, w[i], w[i + 1])
  }

  /** From a node outside a stuck set one can walk backwards for any number of steps. */
  lemma {:induction false} WalkBackwards(d: Dag, visited: set<Name>, x: Name, k: nat) returns (w: seq<Name>)
    requires Stuck(d, visited) && x in Names(d) - visited
    ensures |w| == k + 1 && w[k] == x
    ensures forall i :: 0 <= i <= k ==> w[i] in Names(d)
    ensures forall i: nat :: i < k ==> EdgeAt(d, w, i)
    decreases k
  {
    if k == 0 {
      w := [x];
    } else {
      assert HeldUp(d, visited, x);
      var p :| p in Names(d) - visited && IsParent(d, p, x);
      var v := WalkBackwards(d, visited, p, k - 1);
      w := v + [x];
      forall i: nat | i < k
        ensures EdgeAt(d, w, i)
      {
        assert i < k - 1 ==> EdgeAt(d, v, i);
      }
    }
  }

  lemma {:induction false} SegmentIsWalk(d: Dag, w: seq<Name>, i: nat, j: nat)
    requires i <= j < |w|
    requires forall l: nat :: l < |w| - 1 ==> EdgeAt(d, w, l)
    ensures Walk(d, w[i], w[j], j - i)
    decreases j
  {
    if i < j {
      SegmentIsWalk(d, w, i, j - 1);
      assert EdgeAt(d, w, j - 1);
    }
  }

  /** A stuck set that misses a node leaves a directed cycle behind. */
  lemma StuckHasCycle(d: Dag, visited: set<Name>, x: Name)
    requires Stuck(d, visited) && x in Names(d) - visited
    ensures !Acyclic(d)
  {
    var w := WalkBackwards(d, visited, x, |Names(d)|);
    if NoDuplicates(w) {
      PigeonHole(w, Names(d));
    }
    var i, j :| 0 <= i < j < |w| && w[i] == w[j];
    SegmentIsWalk(d, w, i, j);
    assert Ancestor(d, w[i], w[i]);
  }

  lemma NameCount(d: Dag)
    requires UniqueNames(d.nodes)
    ensures |Names(d)| == |d.nodes|
  {
    var names := NameSeq(d.nodes);
    NameSeqExact(d);
    ListsSize(names, Names(d));
  }

  /** The cycle check accepts exactly the acyclic graphs, and an accepted graph was visited
      in a topological order. */
  method CycleCheck(d: Dag) returns (ok: bool, ghost order: seq<Name>)
    requires WellFormed(d)
    ensures ok <==> Acyclic(d)
    ensures ok ==> TopologicalOrder(d, order)
  {
    var visited;
    ghost var done;
    visited, order, done := KahnVisit(d);
    NameCount(d);
    ListsSize(order, done);
    ok := visited == |d.nodes|;
    if ok {
      SameSize(done, Names(d));
      TopologicalIsAcyclic(d, order);
    } else {
      ProperSubset(done, Names(d));
      ghost var x :| x in Names(d) - done;
      StuckHasCycle(d, done, x);
    }
  }

  lemma ProperSubset(a: set<Name>, b: set<Name>)
    requires a <= b
    ensures a == b || exists x :: x in b - a
  {
    if a != b {
      var x :| x in b && x !in a;
      assert x in b - a;
    }
  }

  // ---- parseDag ---------------------------------------------------------------

  method CheckNames(nodes: seq<NodeDef>) returns (dup: Option<Name>)
    ensures dup == None <==> UniqueNames(nodes)
    ensures dup.Some? ==> exists i, j :: 0 <= i < j < |nodes| && nodes[i].name == nodes[j].name == dup.value
  {
    var seen: set<Name> := {};
    for i := 0 to |nodes|
      invariant seen == set j | 0 <= j < i :: nodes[j].name
      invariant forall j, k :: 0 <= j < k < i ==> nodes[j].name != nodes[k].name
    {
      if nodes[i].name in seen {
        return Some(nodes[i].name);
      }
      seen := seen + {nodes[i].name};
    }
    return None;
  }

  /** The complaint about one edge, with the checks in the order of the source. */
  function EdgeError(names: set<Name>, e: Edge): Option<ParseError> {
    if e.from !in names then Some(UnknownSource(e))
    else if e.to !in names then Some(UnknownTarget(e))
    else if e.from == e.to then Some(SelfLoop(e.from))
    else None
  }

  method CheckEdges(d: Dag) returns (err: Option<ParseError>)
    ensures err == None <==> KnownEndpoints(d) && NoSelfLoops(d)
    ensures err.Some? ==> exists i :: 0 <= i < |d.edges| && EdgeError(Names(d), d.edges[i]) == err
                                      && forall j :: 0 <= j < i ==> EdgeError(Names(d), d.edges[j]) == None
  {
    var names := Names(d);
    for i := 0 to |d.edges|
      invariant forall j :: 0 <= j < i ==> EdgeError(names, d.edges[j]) == None
    {
      err := EdgeError(names, d.edges[i]);
      if err.Some? {
        assert d.edges[i] in d.edges;
        return;
      }
    }
    forall e | e in d.edges
      ensures EdgeError(names, e) == None
    {
    }
    return None;
  }

  /** Everything `parseDag` asks for before the cycle check; `missing(n)` is the first required
      plugin input that node `n` leaves out, as the plugin registry sees it. */
  ghost predicate Checked(d: Dag, missing: Name -> Option<string>) {
    && WellFormed(d) && NoSelfLoops(d)
    && forall i :: 0 <= i < |d.nodes| ==> missing(d.nodes[i].name) == None
  }

  method ParseDag(d: Dag, missing: Name -> Option<string>) returns (r: Result<Dag, ParseError>, ghost order: seq<Name>)
    ensures r.Ok? <==> Checked(d, missing) && Acyclic(d)
    ensures r.Ok? ==> r.value == d && TopologicalOrder(d, order)
    ensures r == Err(ContainsCycle) <==> Checked(d, missing) && !Acyclic(d)
    ensures r.Err? && r.error.DuplicateName? <==> !UniqueNames(d.nodes)
    ensures r.Err? && r.error.MissingInput? <==> WellFormed(d) && NoSelfLoops(d) && !Checked(d, missing)
  {
    order := [];
    var dup := CheckNames(d.nodes);
    if dup.Some? {
      return Err(DuplicateName(dup.value)), order;
    }
    var err := CheckEdges(d);
    if err.Some? {
      return Err(err.value), order;
    }
    for i := 0 to |d.nodes|
      invariant forall j :: 0 <= j < i ==> missing(d.nodes[j].name) == None
    {
      var key := missing(d.nodes[i].name);
      if key.Some? {
        return Err(MissingInput(d.nodes[i].name, key.value)), order;
      }
    }
    var ok;
    ok, order := CycleCheck(d);
    r := if ok then Ok(d) else Err(ContainsCycle);
  }
}
