/** An independent meaning for a workflow: evaluate its nodes one at a time along a topological
    order. Every completed job of the layered, concurrent executor computes the same thing. */
module Reference {
  import opened Common
  import opened Dags
  import opened NodeRun
  import opened Semantics
  import opened JobResults

  /** A node whose parents are all settled is evaluated in the context so far; any other is passed over. */
  ghost function EvaluateNode(f: Flow, c: Ctx, n: Name): Ctx {
    if ParentsSettled(f.dag, c.nodes, n) then
      var r := Expected(f, n, c).record;
      Ctx(Published(f, c.vars, n, r), c.nodes[n := r])
    else c
  }

  ghost function Evaluate(f: Flow, order: seq<Name>, init: map<Var, Json>): Ctx {
    if order == [] then Ctx(init, map[])
    else EvaluateNode(f, Evaluate(f, order[..|order| - 1], init), order[|order| - 1])
  }

  /** The context in which each node was evaluated. */
  ghost function EvaluatedIn(f: Flow, order: seq<Name>, init: map<Var, Json>): map<Name, Ctx> {
    if order == [] then map[]
    else
      var rest, n := order[..|order| - 1], order[|order| - 1];
      var c := Evaluate(f, rest, init);
      var seen := EvaluatedIn(f, rest, init);
      if ParentsSettled(f.dag, c.nodes, n) then seen[n := c] else seen
  }

  ghost function ReferenceResults(f: Flow, order: seq<Name>, init: map<Var, Json>): map<Name, Record> {
    var nodes := Evaluate(f, order, init).nodes;
    map n | n in Names(f.dag) :: if n in nodes then nodes[n] else UNREACHED
  }

  ghost predicate EvaluationOK(f: Flow, init: map<Var, Json>, order: seq<Name>, c: Ctx, seen: map<Name, Ctx>) {
    && Consistent(f, map[], init, c)
    && seen.Keys == c.nodes.Keys
    && (forall n :: n in c.nodes ==> n in order)
    && SeenOK(f, map[], init, c.nodes, seen)
    && RecordedOK(f, c.nodes, seen)
  }

  lemma EvaluateNodeConsistent(f: Flow, init: map<Var, Json>, c: Ctx, n: Name)
    requires ValidFlow(f) && Consistent(f, map[], init, c)
    requires n in Names(f.dag) && n !in c.nodes && ParentsSettled(f.dag, c.nodes, n)
    ensures Consistent(f, map[], init, EvaluateNode(f, c, n))
  {
    var r := Expected(f, n, c).record;
    QuietUnlessLaunched(f, n, c);
    if r.status == Success {
      RecordSuccess(f, map[], init, c, n, r);
    } else {
      RecordQuietly(f, map[], init, c, n, r);
    }
  }

  lemma EvaluateNodeOK(
    f: Flow, init: map<Var, Json>, order: seq<Name>, c: Ctx, seen: map<Name, Ctx>, n: Name)
    requires ValidFlow(f) && EvaluationOK(f, init, order, c, seen)
    requires n in Names(f.dag) && n !in order && ParentsSettled(f.dag, c.nodes, n)
    ensures EvaluationOK(f, init, order + [n], EvaluateNode(f, c, n), seen[n := c])
  {
    EvaluateNodeConsistent(f, init, c, n);
    EvaluateNodeSeen(f, init, c, seen, n);
    EvaluateNodeRecorded(f, c, seen, n);
  }

  lemma EvaluateNodeSeen(f: Flow, init: map<Var, Json>, c: Ctx, seen: map<Name, Ctx>, n: Name)
    requires Consistent(f, map[], init, c) && SeenOK(f, map[], init, c.nodes, seen) && n !in c.nodes
    requires ParentsSettled(f.dag, c.nodes, n)
    ensures SeenOK(f, map[], init, EvaluateNode(f, c, n).nodes, seen[n := c])
  {
    assert Snapshot(f, map[], init, c.nodes, n, c);
    SnapshotsGrow(f, map[], init, seen[n := c], c.nodes, EvaluateNode(f, c, n).nodes);
  }

  lemma EvaluateNodeRecorded(f: Flow, c: Ctx, seen: map<Name, Ctx>, n: Name)
    requires RecordedOK(f, c.nodes, seen) && n !in c.nodes && seen.Keys == c.nodes.Keys
    requires ParentsSettled(f.dag, c.nodes, n)
    ensures RecordedOK(f, EvaluateNode(f, c, n).nodes, seen[n := c])
    ensures seen[n := c].Keys == EvaluateNode(f, c, n).nodes.Keys
  {
    assert EvaluateNode(f, c, n).nodes.Keys == c.nodes.Keys + {n};
    assert seen[n := c].Keys == seen.Keys + {n};
  }

  lemma {:induction false} EvaluateOK(f: Flow, order: seq<Name>, init: map<Var, Json>)
    requires ValidFlow(f) && NoDuplicates(order) && forall n :: n in order ==> n in Names(f.dag)
    ensures EvaluationOK(f, init, order, Evaluate(f, order, init), EvaluatedIn(f, order, init))
  {
    if order != [] {
      var k := |order| - 1;
      var rest, n := order[..k], order[k];
      assert order == rest + [n];
      EvaluateOK(f, rest, init);
      var c := Evaluate(f, rest, init);
      if ParentsSettled(f.dag, c.nodes, n) {
        EvaluateNodeOK(f, init, rest, c, EvaluatedIn(f, rest, init), n);
      }
    }
  }

  /** A node that was passed over still has an unsettled parent at the end: parents come earlier in
      the order and are never revisited. */
  lemma {:induction false} PassedOverStaysBlocked(f: Flow, order: seq<Name>, init: map<Var, Json>, i: nat)
    requires NoDuplicates(order) && EdgesForward(f.dag, order) && i < |order|
    requires order[i] !in Evaluate(f, order, init).nodes
    ensures !ParentsSettled(f.dag, Evaluate(f, order, init).nodes, order[i])
  {
    var k := |order| - 1;
    var rest, last := order[..k], order[k];
    var c := Evaluate(f, rest, init);
    if i < k {
      PrefixForward(f.dag, order, k);
      assert rest[i] == order[i];
      PassedOverStaysBlocked(f, rest, init, i);
      var p :| IsParent(f.dag, p, order[i]) && !SettledIn(c.nodes, p);
      assert p in order[..i];
      assert p != last;
      assert !SettledIn(Evaluate(f, order, init).nodes, p);
    }
  }

  lemma PrefixForward(d: Dag, order: seq<Name>, k: nat)
    requires EdgesForward(d, order) && k <= |order|
    ensures EdgesForward(d, order[..k])
  {
    forall i, p | 0 <= i < k && IsParent(d, p, order[..k][i])
      ensures p in order[..k][..i]
    {
      assert order[..k][..i] == order[..i];
    }
  }

  lemma ReferenceBlocked(f: Flow, order: seq<Name>, init: map<Var, Json>, n: Name)
    requires ValidFlow(f) && TopologicalOrder(f.dag, order)
    requires n in Names(f.dag) && ReferenceResults(f, order, init)[n].status == Pending
    ensures Blocked(f.dag, ReferenceResults(f, order, init), n)
  {
    EvaluateOK(f, order, init);
    assert n in order;
    var i :| 0 <= i < |order| && order[i] == n;
    PassedOverStaysBlocked(f, order, init, i);
    UnsettledParentBlocks(f, order, init, i);
  }

  lemma UnsettledParentBlocks(f: Flow, order: seq<Name>, init: map<Var, Json>, i: nat)
    requires ValidFlow(f) && TopologicalOrder(f.dag, order) && i < |order|
    requires !ParentsSettled(f.dag, Evaluate(f, order, init).nodes, order[i])
    ensures Blocked(f.dag, ReferenceResults(f, order, init), order[i])
  {
    EvaluateOK(f, order, init);
    var p :| IsParent(f.dag, p, order[i]) && !SettledIn(Evaluate(f, order, init).nodes, p);
    assert p in order[..i];
    assert p in order;
  }

  lemma SamePublishers(
    f: Flow, init: map<Var, Json>, nodes: map<Name, Record>, res: map<Name, Record>, vars: map<Var, Json>)
    requires VarsOK(f, map[], init, nodes, vars) && SubMap(nodes, res)
    requires forall n :: n in res && n !in nodes ==> res[n] == UNREACHED
    ensures VarsOK(f, map[], init, res, vars)
  {
    forall n
      ensures Publishes(map[], res, n) <==> Publishes(map[], nodes, n)
    {
    }
    forall v | Unpublished(f, map[], res, v)
      ensures SameAt(vars, init, v)
    {
      assert Unpublished(f, map[], nodes, v);
    }
  }

  lemma ReferenceExplained(f: Flow, order: seq<Name>, init: map<Var, Json>)
    requires ValidFlow(f) && TopologicalOrder(f.dag, order)
    ensures PartialRun(f, map[], init, ReferenceResults(f, order, init), EvaluatedIn(f, order, init))
  {
    hide Consistent, ParentsSettled, Evaluate, EvaluatedIn;
    var c, seen, res := Evaluate(f, order, init), EvaluatedIn(f, order, init), ReferenceResults(f, order, init);
    EvaluateOK(f, order, init);
    SnapshotsGrow(f, map[], init, seen, c.nodes, res);
    forall n | n in res
      ensures res[n] == UNREACHED || Explained(f, map[], init, res, seen, n)
    {
      if n in c.nodes {
        EvaluatedExplained(f, init, c.nodes, res, seen, n);
      }
    }
  }

  lemma EvaluatedExplained(
    f: Flow, init: map<Var, Json>, nodes: map<Name, Record>, res: map<Name, Record>, seen: map<Name, Ctx>, n: Name)
    requires SeenOK(f, map[], init, res, seen) && RecordedOK(f, nodes, seen)
    requires n in nodes && n in seen && n in res && res[n] == nodes[n]
    ensures Explained(f, map[], init, res, seen, n)
  {
  }

  /** The reference evaluation is itself a completed run. */
  lemma ReferenceIsRun(f: Flow, order: seq<Name>, init: map<Var, Json>)
    requires ValidFlow(f) && TopologicalOrder(f.dag, order)
    ensures CompleteRun(f, map[], init, ReferenceResults(f, order, init), EvaluatedIn(f, order, init))
    ensures DisjointWrites(f) ==>
              VarsOK(f, map[], init, ReferenceResults(f, order, init), Evaluate(f, order, init).vars)
  {
    var c, res := Evaluate(f, order, init), ReferenceResults(f, order, init);
    ReferenceExplained(f, order, init);
    forall n | n in res && res[n].status == Pending
      ensures Blocked(f.dag, res, n)
    {
      ReferenceBlocked(f, order, init, n);
    }
    if DisjointWrites(f) {
      EvaluateOK(f, order, init);
      SamePublishers(f, init, c.nodes, res, c.vars);
    }
  }

  /** Refinement: a completed job ends with the results and the context of the reference evaluation. */
  lemma RunsComputeReference(
    f: Flow, order: seq<Name>, init: map<Var, Json>,
    res: map<Name, Record>, seen: map<Name, Ctx>, vars: map<Var, Json>)
    requires ValidFlow(f) && DisjointWrites(f) && Local(f) && TopologicalOrder(f.dag, order)
    requires CompleteRun(f, map[], init, res, seen) && VarsOK(f, map[], init, res, vars)
    ensures res == ReferenceResults(f, order, init) && vars == Evaluate(f, order, init).vars
  {
    ReferenceIsRun(f, order, init);
    Deterministic(f, order, map[], init, res, seen, vars,
                  ReferenceResults(f, order, init), EvaluatedIn(f, order, init), Evaluate(f, order, init).vars);
  }
}
