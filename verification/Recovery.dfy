/** What a `/resume` or a `/skip` brings about in the job it queues (api/executions.js, engine/executor.js). */
module Recovery {
  import opened Common
  import opened Dags
  import opened NodeRun
  import opened Semantics
  import opened JobResults
  import opened Executor
  import opened NodeStates
  import opened ExecutionStore

  /** The queued job ran over these rows and was not aborted. */
  ghost predicate Recovered(j: Job, rows: Table, init: map<Var, Json>, m: Mem) {
    JobContract(FlowOf(j), Hydrated(j.dag, Load(rows)), init, m) && !m.aborted
  }

  /** The done rows of all other nodes stand as they were. */
  lemma OthersStand(j: Job, was: Table, rows: Table, n: Name, init: map<Var, Json>, m: Mem, x: Name)
    requires Recovered(j, rows, init, m) && x != n && SameAt(rows, was, x)
    requires x in Names(j.dag) && DoneIn(was, x)
    ensures m.results[x] == Record(was[x].status, was[x].output) && x !in m.seen
  {
    assert x in Hydrated(j.dag, Load(rows));
  }

  /** A resumed node runs again as soon as its parents let it: behind parents of which none is waiting, pending
      or skipped the job starts it, it ends as it itself makes of what it then saw, and if the user edited its
      inputs and its `executeIf` lets it through these are what its plugin is given. */
  lemma ResumedNodeRuns(
    j: Job, was: Table, rows: Table, n: Name, edited: Json, init: map<Var, Json>, m: Mem)
    requires TurnedPending(was, rows, n, edited) && n in Names(j.dag) && Recovered(j, rows, init, m)
    requires j.overrides == if edited.Obj? || edited.Arr? then map[n := edited] else map[]
    requires forall p :: IsParent(j.dag, p, n) ==> p in m.results && m.results[p].status in {Success, Failed}
    ensures n in m.seen && m.results[n] == Own(FlowOf(j), n, m.seen[n]).record
    ensures (edited.Obj? || edited.Arr?) && Prefix(j, n, m.seen[n]).Launched? ==>
              Prefix(j, n, m.seen[n]).launch.inputs == edited
  {
    hide Own, JobContract;
    FlowOfValid(j);
    assert n !in Hydrated(j.dag, Load(rows));
    NodeRuns(FlowOf(j), Hydrated(j.dag, Load(rows)), init, m, n);
  }

  lemma NodeRuns(f: Flow, hyd: map<Name, Record>, init: map<Var, Json>, m: Mem, n: Name)
    requires ValidFlow(f) && JobContract(f, hyd, init, m) && !m.aborted && n !in hyd && n in Names(f.dag)
    requires forall p :: IsParent(f.dag, p, n) ==> p in m.results && m.results[p].status in {Success, Failed}
    ensures n in m.seen && m.results[n] == Own(f, n, m.seen[n]).record
  {
    hide Own, Explained;
    StatusEquation(f, hyd, init, m.results, m.seen, n);
  }

  /** Nothing that descends from `n` is taken over. */
  ghost predicate DescendantsOpen(d: Dag, rows: Table, n: Name) {
    forall x :: Ancestor(d, n, x) ==> x !in Hydrated(d, Load(rows))
  }

  /** A skipped node stays skipped and the skip cascades: in the queued job no descendant of it is launched,
      however far away; each ends skipped, or pending behind a waiting node. */
  lemma SkipCascades(
    j: Job, was: Table, rows: Table, n: Name, init: map<Var, Json>, m: Mem, x: Name)
    requires TurnedSkipped(was, rows, n) && n in was && n in Names(j.dag) && Recovered(j, rows, init, m)
    requires KnownEndpoints(j.dag) && DescendantsOpen(j.dag, rows, n) && Ancestor(j.dag, n, x)
    ensures m.results[n] == Record(Skipped, Null) && n !in m.seen
    ensures x in m.results && m.results[x].status in {Skipped, Pending}
    ensures x in m.calls ==> m.calls[x] == 0
  {
    assert n in Hydrated(j.dag, Load(rows));
    var k :| k > 0 && Walk(j.dag, n, x, k);
    CascadeAlong(j, rows, n, init, m, x, k);
  }

  lemma {:induction false} CascadeAlong(
    j: Job, rows: Table, n: Name, init: map<Var, Json>, m: Mem, x: Name, k: nat)
    requires Recovered(j, rows, init, m) && KnownEndpoints(j.dag) && DescendantsOpen(j.dag, rows, n)
    requires n in m.results && m.results[n].status == Skipped && k > 0 && Walk(j.dag, n, x, k)
    ensures x in m.results && m.results[x].status in {Skipped, Pending}
    ensures x in m.calls ==> m.calls[x] == 0
    decreases k
  {
    var p :| Walk(j.dag, n, p, k - 1) && IsParent(j.dag, p, x);
    assert Edge(p, x) in j.dag.edges;
    if k > 1 {
      CascadeAlong(j, rows, n, init, m, p, k - 1);
    }
    assert Ancestor(j.dag, n, x);
    FlowOfValid(j);
    NextSkipped(FlowOf(j), Hydrated(j.dag, Load(rows)), init, m, p, x);
  }

  lemma NextSkipped(f: Flow, hyd: map<Name, Record>, init: map<Var, Json>, m: Mem, p: Name, x: Name)
    requires ValidFlow(f) && JobContract(f, hyd, init, m) && !m.aborted && x !in hyd && x in Names(f.dag)
    requires IsParent(f.dag, p, x) && p in m.results && m.results[p].status in {Skipped, Pending}
    ensures x in m.results && m.results[x].status in {Skipped, Pending}
    ensures x in m.calls ==> m.calls[x] == 0
  {
    hide VarsOK, DisjointWrites, Own;
    StatusEquation(f, hyd, init, m.results, m.seen, x);
    if x in m.seen {
      assert Explained(f, hyd, init, m.results, m.seen, x);
      SameParents(f, hyd, init, m.results, x, m.seen[x]);
      assert SkippedParent(f.dag, m.seen[x].nodes, x);
    }
  }
}
