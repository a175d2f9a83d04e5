/** What a finished job means: the equations its final results satisfy, an independent sequential
    evaluator, and the theorem that every run computes exactly what the evaluator does. */
module JobResults {
  import opened Common
  import opened Dags
  import opened NodeRun
  import opened Semantics

  const UNREACHED := Record(Pending, Null)

  /** `n` ran in this job: it saw the snapshot `seen[n]` and ended as that snapshot demands. */
  ghost predicate Explained(
    f: Flow, hyd: map<Name, Record>, init: map<Var, Json>, res: map<Name, Record>, seen: map<Name, Ctx>, n: Name)
  {
    && n in seen && n in res
    && Snapshot(f, hyd, init, res, n, seen[n])
    && res[n] == Expected(f, n, seen[n]).record
  }

  /** Final results of any job, aborted or not: rehydrated rows are untouched, and every other
      declared node either ran or was left pending. */
  ghost predicate PartialRun(
    f: Flow, hyd: map<Name, Record>, init: map<Var, Json>, res: map<Name, Record>, seen: map<Name, Ctx>)
  {
    && res.Keys == Names(f.dag)
    && SubMap(hyd, res)
    && AllRecordable(hyd)
    && (forall n :: n in res && n !in hyd ==> res[n] == UNREACHED || Explained(f, hyd, init, res, seen, n))
  }

  /** Final results of a job that was not aborted: only blocked nodes are left pending. */
  ghost predicate CompleteRun(
    f: Flow, hyd: map<Name, Record>, init: map<Var, Json>, res: map<Name, Record>, seen: map<Name, Ctx>)
  {
    && PartialRun(f, hyd, init, res, seen)
    && forall n :: n in res && n !in hyd && res[n].status == Pending ==> Blocked(f.dag, res, n)
  }

  /** `n` ran in this job and its failure aborts it. */
  ghost predicate AbortsAt(f: Flow, hyd: map<Name, Record>, res: map<Name, Record>, seen: map<Name, Ctx>, n: Name) {
    n in res && n !in hyd && res[n].status != Pending && n in seen && Aborting(f, n, seen[n])
  }

  lemma PendingIsUnreached(
    f: Flow, hyd: map<Name, Record>, init: map<Var, Json>, res: map<Name, Record>, seen: map<Name, Ctx>, n: Name)
    requires ValidFlow(f) && PartialRun(f, hyd, init, res, seen) && n in res
    ensures res[n].status == Pending ==> res[n] == UNREACHED
  {
    if n !in hyd && res[n] != UNREACHED {
      assert Explained(f, hyd, init, res, seen, n);
      QuietUnlessLaunched(f, n, seen[n]);
    }
  }

  // ---- the equations of a run -------------------------------------------------

  /** The status equation of a completed job: pending exactly behind a waiting or pending parent,
      else skipped behind a skipped parent, else the node's own outcome in the state it saw. */
  lemma StatusEquation(
    f: Flow, hyd: map<Name, Record>, init: map<Var, Json>, res: map<Name, Record>, seen: map<Name, Ctx>, n: Name)
    requires ValidFlow(f) && CompleteRun(f, hyd, init, res, seen) && n in Names(f.dag) && n !in hyd
    ensures res[n].status == Pending <==> Blocked(f.dag, res, n)
    ensures !Blocked(f.dag, res, n) && SkippedParent(f.dag, res, n) ==> res[n] == Record(Skipped, Null)
    ensures !Blocked(f.dag, res, n) && !SkippedParent(f.dag, res, n) ==>
              n in seen && res[n] == Own(f, n, seen[n]).record
  {
    if res[n] != UNREACHED {
      var c := seen[n];
      assert Explained(f, hyd, init, res, seen, n);
      QuietUnlessLaunched(f, n, c);
      SameParents(f, hyd, init, res, n, c);
    }
  }

  /** A started node's parents have the same records in its snapshot and at the end. */
  lemma SameParents(f: Flow, hyd: map<Name, Record>, init: map<Var, Json>, res: map<Name, Record>, n: Name, c: Ctx)
    requires Snapshot(f, hyd, init, res, n, c)
    ensures forall p :: IsParent(f.dag, p, n) ==> SettledIn(res, p) && SettledIn(c.nodes, p) && c.nodes[p] == res[p]
    ensures SkippedParent(f.dag, c.nodes, n) <==> SkippedParent(f.dag, res, n)
    ensures !Blocked(f.dag, res, n)
  {
    forall p | IsParent(f.dag, p, n)
      ensures SettledIn(res, p) && SettledIn(c.nodes, p) && c.nodes[p] == res[p]
    {
      assert SettledIn(c.nodes, p);
    }
  }

  lemma PendingHasHeldParent(
    f: Flow, order: seq<Name>, hyd: map<Name, Record>, init: map<Var, Json>,
    res: map<Name, Record>, seen: map<Name, Ctx>, i: nat) returns (p: Name)
    requires TopologicalOrder(f.dag, order) && CompleteRun(f, hyd, init, res, seen)
    requires i < |order| && res[order[i]].status == Pending
    ensures IsParent(f.dag, p, order[i]) && p in res && res[p].status in {Waiting, Pending} && p in order[..i]
  {
    var n := order[i];
    assert n in order;
    assert Blocked(f.dag, res, n);
    p :| IsParent(f.dag, p, n) && p in res && res[p].status in {Waiting, Pending};
  }

  /** A pending node has a waiting proper ancestor (fresh and resumed jobs alike). */
  lemma {:induction false} PendingHasWaitingAncestor(
    f: Flow, order: seq<Name>, hyd: map<Name, Record>, init: map<Var, Json>,
    res: map<Name, Record>, seen: map<Name, Ctx>, i: nat) returns (a: Name)
    requires TopologicalOrder(f.dag, order) && CompleteRun(f, hyd, init, res, seen)
    requires i < |order| && res[order[i]].status == Pending
    ensures Ancestor(f.dag, a, order[i]) && a in res && res[a].status == Waiting
    decreases i
  {
    hide Ancestor, IsParent, TopologicalOrder;
    var n := order[i];
    var p := PendingHasHeldParent(f, order, hyd, init, res, seen, i);
    ParentIsAncestor(f.dag, p, n);
    if res[p].status == Waiting {
      a := p;
    } else {
      var k :| 0 <= k < i && order[k] == p;
      a := PendingHasWaitingAncestor(f, order, hyd, init, res, seen, k);
      AncestorStep(f.dag, a, p, n);
    }
  }

  lemma {:induction false} WaitingBlocksDescendants(
    f: Flow, init: map<Var, Json>, res: map<Name, Record>, seen: map<Name, Ctx>, a: Name, n: Name, k: nat)
    requires PartialRun(f, map[], init, res, seen) && KnownEndpoints(f.dag)
    requires k > 0 && Walk(f.dag, a, n, k) && a in res && res[a].status == Waiting
    ensures n in res && res[n].status == Pending
    decreases k
  {
    var p :| Walk(f.dag, a, p, k - 1) && IsParent(f.dag, p, n);
    assert Edge(p, n) in f.dag.edges;
    if k > 1 {
      WaitingBlocksDescendants(f, init, res, seen, a, p, k - 1);
    }
    if res[n] != UNREACHED {
      assert Explained(f, map[], init, res, seen, n);
      SameParents(f, map[], init, res, n, seen[n]);
    }
  }

  /** On a fresh job that is not aborted, exactly the nodes with a waiting proper ancestor end pending. */
  lemma PendingIffWaitingAncestor(
    f: Flow, order: seq<Name>, init: map<Var, Json>, res: map<Name, Record>, seen: map<Name, Ctx>, n: Name)
    requires TopologicalOrder(f.dag, order) && KnownEndpoints(f.dag) && n in Names(f.dag)
    requires CompleteRun(f, map[], init, res, seen)
    ensures res[n].status == Pending <==>
            exists a :: Ancestor(f.dag, a, n) && a in res && res[a].status == Waiting
  {
    if res[n].status == Pending {
      assert n in order;
      var i :| 0 <= i < |order| && order[i] == n;
      var a := PendingHasWaitingAncestor(f, order, map[], init, res, seen, i);
    }
    if a :| Ancestor(f.dag, a, n) && a in res && res[a].status == Waiting {
      var k :| k > 0 && Walk(f.dag, a, n, k);
      WaitingBlocksDescendants(f, init, res, seen, a, n, k);
    }
  }

  // ---- overall status -----------------------------------------------------------

  datatype Overall = AllSuccess | SomePartial | AllFailed | SomeWaiting

  predicate SomeStatus(res: map<Name, Record>, s: Status) {
    exists n :: n in res && res[n].status == s
  }

  /** The aggregate status of a job. */
  function Aggregate(aborted: bool, res: map<Name, Record>): Overall {
    if aborted then AllFailed
    else if SomeStatus(res, Failed) then SomePartial
    else if SomeStatus(res, Waiting) then SomeWaiting
    else AllSuccess
  }

  /** What each overall status says about the job: a failure beats a waiting node, and both beat success. */
  lemma AggregateExact(aborted: bool, res: map<Name, Record>)
    ensures var o := Aggregate(aborted, res);
            && (o == AllFailed <==> aborted)
            && (o == SomePartial <==> !aborted && exists n :: n in res && res[n].status == Failed)
            && (o == SomeWaiting <==>
                  && !aborted && (forall n :: n in res ==> res[n].status != Failed)
                  && exists n :: n in res && res[n].status == Waiting)
            && (o == AllSuccess <==> !aborted && forall n :: n in res ==> res[n].status !in {Failed, Waiting})
  {
    forall n | n in res
      ensures SomeStatus(res, res[n].status)
    {
    }
  }

  /** On an accepted graph "success" leaves no node behind, on fresh and resumed jobs alike. */
  lemma SuccessIsComplete(
    f: Flow, order: seq<Name>, hyd: map<Name, Record>, init: map<Var, Json>,
    res: map<Name, Record>, seen: map<Name, Ctx>, aborted: bool)
    requires ValidFlow(f) && TopologicalOrder(f.dag, order)
    requires PartialRun(f, hyd, init, res, seen)
    requires !aborted ==> CompleteRun(f, hyd, init, res, seen)
    requires Aggregate(aborted, res) == AllSuccess
    ensures forall n :: n in Names(f.dag) ==> res[n].status in {Success, Skipped}
  {
    forall n | n in Names(f.dag)
      ensures res[n].status in {Success, Skipped}
    {
      if res[n].status == Pending {
        assert n in order;
        var i :| 0 <= i < |order| && order[i] == n;
        var a := PendingHasWaitingAncestor(f, order, hyd, init, res, seen, i);
        assert SomeStatus(res, Waiting);
      }
      if n !in hyd && res[n] != UNREACHED {
        assert Explained(f, hyd, init, res, seen, n);
        QuietUnlessLaunched(f, n, seen[n]);
      }
      assert !SomeStatus(res, Failed) && !SomeStatus(res, Waiting);
    }
  }

  // ---- confluence ---------------------------------------------------------------

  /** The two contexts agree on everything `n` may depend on: the records of its proper ancestors,
      and each root variable that no node writes or that only its ancestors write. */
  ghost predicate AgreeFor(f: Flow, n: Name, c1: Ctx, c2: Ctx) {
    && (forall a :: Ancestor(f.dag, a, n) ==> SameAt(c1.nodes, c2.nodes, a))
    && (forall v :: OnlyAncestorsWrite(f, n, v) ==> SameAt(c1.vars, c2.vars, v))
  }

  ghost predicate OnlyAncestorsWrite(f: Flow, n: Name, v: Var) {
    forall m :: m in Names(f.dag) && v in Writes(f, m) ==> Ancestor(f.dag, m, n)
  }

  /** Nodes read only what their ancestors and the initial data provide. */
  ghost predicate Local(f: Flow) {
    forall n, c1, c2 {:trigger AgreeFor(f, n, c1, c2)} :: AgreeFor(f, n, c1, c2) ==> Own(f, n, c1) == Own(f, n, c2)
  }

  lemma {:induction false} AncestorsSettled(d: Dag, nodes: map<Name, Record>, a: Name, n: Name, k: nat)
    requires Closed(d, map[], nodes) && ParentsSettled(d, nodes, n)
    requires k > 0 && Walk(d, a, n, k)
    ensures SettledIn(nodes, a)
    decreases k
  {
    var p :| Walk(d, a, p, k - 1) && IsParent(d, p, n);
    assert SettledIn(nodes, p);
    if k > 1 {
      AncestorsSettled(d, nodes, a, p, k - 1);
    }
  }

  lemma AllAncestorsSettled(d: Dag, nodes: map<Name, Record>, n: Name)
    requires Closed(d, map[], nodes) && ParentsSettled(d, nodes, n)
    ensures forall a :: Ancestor(d, a, n) ==> SettledIn(nodes, a)
  {
    forall a | Ancestor(d, a, n)
      ensures SettledIn(nodes, a)
    {
      var k :| k > 0 && Walk(d, a, n, k);
      AncestorsSettled(d, nodes, a, n, k);
    }
  }

  /** The rows taken over have all their parents taken over too, each in a terminal state. */
  ghost predicate RowsClosed(d: Dag, hyd: map<Name, Record>) {
    forall m :: m in hyd ==> ParentsSettled(d, hyd, m)
  }

  /** What a job leaves for the next one to take over is closed, aborted or not, if what it took over was. */
  lemma RowsStayClosed(
    f: Flow, hyd: map<Name, Record>, init: map<Var, Json>, res: map<Name, Record>, seen: map<Name, Ctx>)
    requires RowsClosed(f.dag, hyd) && PartialRun(f, hyd, init, res, seen)
    ensures RowsClosed(f.dag, map n | n in res && res[n].status != Pending :: res[n])
  {
    forall m, p | m in res && res[m].status != Pending && IsParent(f.dag, p, m)
      ensures SettledIn(res, p)
    {
      if m in hyd {
        assert SettledIn(hyd, p);
      } else {
        assert Explained(f, hyd, init, res, seen, m);
        assert SettledIn(seen[m].nodes, p);
      }
    }
  }

  /** In a job over closed rows everything a started node descends from is settled. */
  lemma SnapshotAncestors(f: Flow, hyd: map<Name, Record>, init: map<Var, Json>, c: Ctx, n: Name)
    requires RowsClosed(f.dag, hyd) && Consistent(f, hyd, init, c) && ParentsSettled(f.dag, c.nodes, n)
    ensures forall a :: Ancestor(f.dag, a, n) ==> SettledIn(c.nodes, a)
  {
    SettledGrows(f.dag, hyd, c.nodes);
    assert Closed(f.dag, map[], c.nodes);
    AllAncestorsSettled(f.dag, c.nodes, n);
  }

  /** Two consistent states with the same record for the only possible writer of `v` agree on `v`. */
  lemma SameVariable(f: Flow, hyd: map<Name, Record>, init: map<Var, Json>, c1: Ctx, c2: Ctx, v: Var)
    requires ValidFlow(f) && DisjointWrites(f)
    requires VarsOK(f, hyd, init, c1.nodes, c1.vars) && VarsOK(f, hyd, init, c2.nodes, c2.vars)
    requires forall m :: m in Names(f.dag) && v in Writes(f, m) ==> SameSuccess(hyd, c1.nodes, c2.nodes, m)
    ensures SameAt(c1.vars, c2.vars, v)
  {
    if m :| m in Names(f.dag) && v in Writes(f, m) && Publishes(hyd, c1.nodes, m) {
      assert SameSuccess(hyd, c1.nodes, c2.nodes, m);
      assert Publishes(hyd, c2.nodes, m);
    } else {
      assert Unpublished(f, hyd, c1.nodes, v);
      forall m | m in Names(f.dag) && v in Writes(f, m)
        ensures !Publishes(hyd, c2.nodes, m)
      {
        assert SameSuccess(hyd, c1.nodes, c2.nodes, m);
      }
      assert Unpublished(f, hyd, c2.nodes, v);
    }
  }

  /** Either both states hold the same success of `m`, or neither holds one. */
  ghost predicate SameSuccess(hyd: map<Name, Record>, a: map<Name, Record>, b: map<Name, Record>, m: Name) {
    && (Publishes(hyd, a, m) <==> Publishes(hyd, b, m))
    && (Publishes(hyd, a, m) ==> a[m] == b[m])
  }

  lemma SnapshotsAgree(f: Flow, hyd: map<Name, Record>, init: map<Var, Json>, n: Name, c1: Ctx, c2: Ctx)
    requires ValidFlow(f) && DisjointWrites(f)
    requires Consistent(f, hyd, init, c1) && Consistent(f, hyd, init, c2)
    requires forall a :: Ancestor(f.dag, a, n) ==> a in c1.nodes && a in c2.nodes && c1.nodes[a] == c2.nodes[a]
    ensures AgreeFor(f, n, c1, c2)
  {
    forall v | OnlyAncestorsWrite(f, n, v)
      ensures SameAt(c1.vars, c2.vars, v)
    {
      forall m | m in Names(f.dag) && v in Writes(f, m)
        ensures SameSuccess(hyd, c1.nodes, c2.nodes, m)
      {
        assert Ancestor(f.dag, m, n);
      }
      SameVariable(f, hyd, init, c1, c2, v);
    }
  }

  /** Where run A gave `n` a result, run B gave it the same one. */
  ghost predicate Agrees(
    f: Flow, hyd: map<Name, Record>, resA: map<Name, Record>, seenA: map<Name, Ctx>,
    resB: map<Name, Record>, seenB: map<Name, Ctx>, n: Name)
  {
    n in resA && n !in hyd && resA[n].status != Pending ==>
      && n in resB && resB[n] == resA[n]
      && n in seenA && n in seenB && Expected(f, n, seenA[n]) == Expected(f, n, seenB[n])
  }

  lemma NodeAgrees(
    f: Flow, hyd: map<Name, Record>, init: map<Var, Json>, resA: map<Name, Record>, seenA: map<Name, Ctx>,
    resB: map<Name, Record>, seenB: map<Name, Ctx>, n: Name)
    requires ValidFlow(f) && DisjointWrites(f) && Local(f) && n in Names(f.dag) && RowsClosed(f.dag, hyd)
    requires PartialRun(f, hyd, init, resA, seenA) && CompleteRun(f, hyd, init, resB, seenB)
    requires forall a :: Ancestor(f.dag, a, n) ==> Agrees(f, hyd, resA, seenA, resB, seenB, a)
    ensures Agrees(f, hyd, resA, seenA, resB, seenB, n)
  {
    hide Expected;
    if resA[n].status != Pending && n !in hyd {
      var cA := seenA[n];
      assert Explained(f, hyd, init, resA, seenA, n);
      SnapshotAncestors(f, hyd, init, cA, n);
      forall a | Ancestor(f.dag, a, n)
        ensures SettledIn(cA.nodes, a) && a in resA && a in resB && cA.nodes[a] == resB[a]
      {
        assert SettledIn(cA.nodes, a);
        assert Agrees(f, hyd, resA, seenA, resB, seenB, a);
      }
      forall p | IsParent(f.dag, p, n)
        ensures SettledIn(resB, p)
      {
        ParentIsAncestor(f.dag, p, n);
      }
      assert !Blocked(f.dag, resB, n);
      assert Explained(f, hyd, init, resB, seenB, n);
      ExpectedAgrees(f, hyd, init, n, resB, cA, seenB[n]);
    }
  }

  lemma ExpectedAgrees(
    f: Flow, hyd: map<Name, Record>, init: map<Var, Json>, n: Name, resB: map<Name, Record>, cA: Ctx, cB: Ctx)
    requires ValidFlow(f) && DisjointWrites(f) && Local(f) && RowsClosed(f.dag, hyd)
    requires Consistent(f, hyd, init, cA) && Snapshot(f, hyd, init, resB, n, cB)
    requires forall a :: Ancestor(f.dag, a, n) ==> a in cA.nodes && a in resB && cA.nodes[a] == resB[a]
    ensures Expected(f, n, cA) == Expected(f, n, cB)
  {
    SnapshotAncestors(f, hyd, init, cB, n);
    forall a | Ancestor(f.dag, a, n)
      ensures a in cA.nodes && a in cB.nodes && cA.nodes[a] == cB.nodes[a]
    {
      assert SettledIn(cB.nodes, a);
    }
    SnapshotsAgree(f, hyd, init, n, cA, cB);
    forall p | IsParent(f.dag, p, n)
      ensures p in cA.nodes && p in cB.nodes && cA.nodes[p] == cB.nodes[p]
    {
      ParentIsAncestor(f.dag, p, n);
    }
    assert SkippedParent(f.dag, cA.nodes, n) <==> SkippedParent(f.dag, cB.nodes, n);
  }

  lemma {:induction false} AgreesAt(
    f: Flow, order: seq<Name>, hyd: map<Name, Record>, init: map<Var, Json>,
    resA: map<Name, Record>, seenA: map<Name, Ctx>, resB: map<Name, Record>, seenB: map<Name, Ctx>, k: nat)
    requires ValidFlow(f) && DisjointWrites(f) && Local(f) && TopologicalOrder(f.dag, order) && RowsClosed(f.dag, hyd)
    requires PartialRun(f, hyd, init, resA, seenA) && CompleteRun(f, hyd, init, resB, seenB)
    requires k < |order|
    ensures Agrees(f, hyd, resA, seenA, resB, seenB, order[k])
    decreases k
  {
    var n := order[k];
    assert n in order;
    forall a | Ancestor(f.dag, a, n)
      ensures Agrees(f, hyd, resA, seenA, resB, seenB, a)
    {
      AncestorGoesForward(f.dag, order, a, k);
      var i :| 0 <= i < k && order[i] == a;
      AgreesAt(f, order, hyd, init, resA, seenA, resB, seenB, i);
    }
    NodeAgrees(f, hyd, init, resA, seenA, resB, seenB, n);
  }

  /** Confluence: whatever a run got to, aborted or not, a completed run of the same job got the same
      results there. Completion orders inside the layers, races between siblings and the place of an
      abort make no difference. */
  lemma Confluence(
    f: Flow, order: seq<Name>, hyd: map<Name, Record>, init: map<Var, Json>,
    resA: map<Name, Record>, seenA: map<Name, Ctx>, resB: map<Name, Record>, seenB: map<Name, Ctx>, n: Name)
    requires ValidFlow(f) && DisjointWrites(f) && Local(f) && TopologicalOrder(f.dag, order) && RowsClosed(f.dag, hyd)
    requires PartialRun(f, hyd, init, resA, seenA) && CompleteRun(f, hyd, init, resB, seenB)
    requires n in Names(f.dag)
    ensures resA[n] == UNREACHED || resA[n] == resB[n]
    ensures AbortsAt(f, hyd, resA, seenA, n) ==> AbortsAt(f, hyd, resB, seenB, n)
  {
    PendingIsUnreached(f, hyd, init, resA, seenA, n);
    assert n in order;
    var i :| 0 <= i < |order| && order[i] == n;
    AgreesAt(f, order, hyd, init, resA, seenA, resB, seenB, i);
  }

  lemma SameVariables(
    f: Flow, hyd: map<Name, Record>, init: map<Var, Json>, res: map<Name, Record>,
    varsA: map<Var, Json>, varsB: map<Var, Json>)
    requires ValidFlow(f) && DisjointWrites(f)
    requires VarsOK(f, hyd, init, res, varsA) && VarsOK(f, hyd, init, res, varsB)
    ensures varsA == varsB
  {
    forall v
      ensures SameAt(varsA, varsB, v)
    {
      SameVariable(f, hyd, init, Ctx(varsA, res), Ctx(varsB, res), v);
    }
    SameEverywhere(varsA, varsB);
  }

  lemma SameEverywhere<K, V>(a: map<K, V>, b: map<K, V>)
    requires forall k {:trigger SameAt(a, b, k)} :: SameAt(a, b, k)
    ensures a == b
  {
    forall k
      ensures k in a <==> k in b
      ensures k in a ==> a[k] == b[k]
    {
      assert SameAt(a, b, k);
    }
  }

  lemma SameResults(
    f: Flow, order: seq<Name>, hyd: map<Name, Record>, init: map<Var, Json>,
    resA: map<Name, Record>, seenA: map<Name, Ctx>, resB: map<Name, Record>, seenB: map<Name, Ctx>)
    requires ValidFlow(f) && DisjointWrites(f) && Local(f) && TopologicalOrder(f.dag, order) && RowsClosed(f.dag, hyd)
    requires CompleteRun(f, hyd, init, resA, seenA) && CompleteRun(f, hyd, init, resB, seenB)
    ensures resA == resB
  {
    forall n | n in Names(f.dag)
      ensures resA[n] == resB[n]
    {
      Confluence(f, order, hyd, init, resA, seenA, resB, seenB, n);
      Confluence(f, order, hyd, init, resB, seenB, resA, seenA, n);
    }
  }

  /** Two completed runs of the same job, fresh or over the same rows, end with the same results and the same
      context. */
  lemma Deterministic(
    f: Flow, order: seq<Name>, hyd: map<Name, Record>, init: map<Var, Json>,
    resA: map<Name, Record>, seenA: map<Name, Ctx>, varsA: map<Var, Json>,
    resB: map<Name, Record>, seenB: map<Name, Ctx>, varsB: map<Var, Json>)
    requires ValidFlow(f) && DisjointWrites(f) && Local(f) && TopologicalOrder(f.dag, order) && RowsClosed(f.dag, hyd)
    requires CompleteRun(f, hyd, init, resA, seenA) && VarsOK(f, hyd, init, resA, varsA)
    requires CompleteRun(f, hyd, init, resB, seenB) && VarsOK(f, hyd, init, resB, varsB)
    ensures resA == resB && varsA == varsB
  {
    SameResults(f, order, hyd, init, resA, seenA, resB, seenB);
    SameVariables(f, hyd, init, resA, varsA, varsB);
  }
}
