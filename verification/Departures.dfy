/** Jobs on which the engine does not do what one would expect of it: one concrete workflow for each exact
    condition proved elsewhere. */
module Departures {
  import opened Common
  import opened Dags
  import opened NodeRun
  import opened Semantics
  import opened JobResults
  import opened Executor
  import opened NodeStates
  import opened ExecutionStore
  import opened PauseResume
  import opened Theorems
  import opened WorkerResume

  function Plain(name: Name, outputVar: Option<Var>): NodeDef {
    NodeDef(name, name, false, false, 0, Terminate, [], outputVar)
  }

  /** Inputs always resolve, nothing is a batch, and plugins answer as `reply` says. */
  function SimpleWorld(reply: Name -> Reply): World {
    World((n, c) => None, (n, c) => Some(Null), (n, c) => None, (n, c, v, i) => None,
          (n, c, v, i, k) => reply(n), a => None, 10, 10000)
  }

  /** A plain node answers in one call. */
  lemma PlainOutcome(j: Job, reply: Name -> Reply, n: Name, c: Ctx)
    requires j.world == SimpleWorld(reply) && j.overrides == map[] && n in Names(j.dag)
    requires Def(j.dag, n) == Plain(n, Def(j.dag, n).outputVar) && reply(n).Returns?
    ensures Own(FlowOf(j), n, c) ==
            Outcome(Record(if IsWaiting(reply(n).value) then Waiting else Success, reply(n).value), false)
    ensures !SkippedParent(j.dag, c.nodes, n) ==> Cost(FlowOf(j), n, c) == 1
  {
    assert Prefix(j, n, c) == Launched(Launch(Null, None));
    assert FlowOf(j).prefix(n, c) == Launched(Launch(Null, None));
    assert Attempts(j, n, c, Null, 0) == Tried(Some(reply(n).value), 1);
  }

  /** A node without parents runs in every fresh job that is not aborted. */
  lemma RootRuns(f: Flow, init: map<Var, Json>, m: Mem, n: Name)
    requires ValidFlow(f) && JobContract(f, map[], init, m) && !m.aborted && n in Names(f.dag)
    requires forall p :: !IsParent(f.dag, p, n)
    ensures n in m.seen && m.results[n] == Own(f, n, m.seen[n]).record
  {
    StatusEquation(f, map[], init, m.results, m.seen, n);
  }

  ghost predicate NothingRaised(f: Flow) {
    forall n, c {:trigger Own(f, n, c)} :: n in Names(f.dag) ==> !Own(f, n, c).raised
  }

  /** Where no node raises a failure, no job aborts. */
  lemma NeverAborts(f: Flow, init: map<Var, Json>, m: Mem)
    requires JobContract(f, map[], init, m) && NothingRaised(f)
    ensures !m.aborted
  {
    forall n
      ensures !AbortsAt(f, map[], m.results, m.seen, n)
    {
      assert n in m.seen && n in Names(f.dag) ==> !Own(f, n, m.seen[n]).raised;
    }
  }

  // ---- a null output is not replayed ------------------------------------------------------------------

  /** A node `a` that succeeds with a null output and binds `x`. */
  function NullJob(): Job {
    Job(Dag([Plain("a", Some("x"))], [], None), SimpleWorld(n => Returns(Null)), map[])
  }

  /** The inputs hold 1 under `x`. The job overwrites it with null; the job that takes over its row does not,
      and reads 1 again. */
  lemma NullOutputIsLost(init: map<Var, Json>, m1: Mem, m2: Mem)
    requires "x" in init && init["x"] == Num(1)
    requires JobContract(FlowOf(NullJob()), map[], init, m1)
    requires JobContract(FlowOf(NullJob()), m1.results, init, m2)
    ensures m1.results == map["a" := Record(Success, Null)]
    ensures ReadVar(m1.vars, "x") == Null && ReadVar(m2.vars, "x") == Num(1)
  {
    var j := NullJob();
    NullJobShape();
    FlowOfValid(j);
    NeverAborts(FlowOf(j), init, m1);
    RootRuns(FlowOf(j), init, m1, "a");
    NullIsNotReplayed(FlowOf(j), init, m1, m2, "a", "x");
  }

  /** The null is in the first job's context, and the rehydration of a second job leaves it out. */
  lemma NullIsNotReplayed(f: Flow, init: map<Var, Json>, m1: Mem, m2: Mem, n: Name, v: Var)
    requires ValidFlow(f) && DisjointWrites(f) && Names(f.dag) == {n} && v in init
    requires JobContract(f, map[], init, m1) && JobContract(f, m1.results, init, m2)
    requires f.bindings(n, Null) == map[v := Null] && m1.results == map[n := Record(Success, Null)]
    ensures ReadVar(m1.vars, v) == Null && ReadVar(m2.vars, v) == init[v]
  {
    hide Own, Explained;
    assert v in Writes(f, n);
    assert Publishes(map[], m1.results, n);
    assert SameAt(m1.vars, f.bindings(n, Null), v);
    assert m2.results == m1.results;
    assert Unpublished(f, m1.results, m2.results, v);
    assert SameAt(m2.vars, init, v);
  }

  lemma NullJobShape()
    ensures var j := NullJob();
            && Names(j.dag) == {"a"} && Def(j.dag, "a") == Plain("a", Some("x")) && DisjointWrites(FlowOf(j))
            && FlowOf(j).bindings("a", Null) == map["x" := Null] && (forall p :: !IsParent(j.dag, p, "a"))
            && forall c :: Own(FlowOf(j), "a", c) == Outcome(Record(Success, Null), false)
  {
    var j := NullJob();
    assert j.dag.nodes[0].name == "a";
    assert Names(j.dag) == {"a"};
    forall c: Ctx
      ensures Own(FlowOf(j), "a", c) == Outcome(Record(Success, Null), false)
    {
      PlainOutcome(j, n => Returns(Null), "a", c);
    }
  }

  // ---- an executeIf error never aborts ------------------------------------------------------------------

  /** A node `a` with `onError: terminate` whose `executeIf` throws. */
  function QuietJob(): Job {
    Job(Dag([Plain("a", None).(hasExecuteIf := true)], [], None), SimpleWorld(n => Throws), map[])
  }

  /** The terminating node fails, yet the job is not aborted and ends "partial". */
  lemma FailsQuietly(init: map<Var, Json>, m: Mem)
    requires JobContract(FlowOf(QuietJob()), map[], init, m)
    ensures QuietJob().dag.nodes[0].onError == Terminate && m.results == map["a" := Record(Failed, Null)]
    ensures !m.aborted && Aggregate(m.aborted, m.results) == SomePartial
  {
    var f := FlowOf(QuietJob());
    QuietJobShape();
    FlowOfValid(QuietJob());
    NeverAborts(f, init, m);
    RootRuns(f, init, m, "a");
    assert m.results["a"].status == Failed;
  }

  lemma QuietJobShape()
    ensures var j := QuietJob();
            && Names(j.dag) == {"a"} && Def(j.dag, "a").onError == Terminate
            && forall c :: Own(FlowOf(j), "a", c) == Outcome(Record(Failed, Null), false)
  {
    var j := QuietJob();
    assert j.dag.nodes[0].name == "a";
    assert Names(j.dag) == {"a"};
    forall c: Ctx
      ensures Own(FlowOf(j), "a", c) == Outcome(Record(Failed, Null), false)
    {
      assert Prefix(j, "a", c) == Settled(Outcome(Record(Failed, Null), false));
      assert FlowOf(j).prefix("a", c) == Prefix(j, "a", c);
    }
  }

  // ---- a paused single run is resumed as a batch -----------------------------------------------------

  const ASKED: Json := Obj(map[WAITING_MARKER := Bool(true)])

  function FlipReply(fetched: Json): Name -> Reply { n => Returns(if n == "ask" then ASKED else fetched) }

  /** `fetch` binds an array to `items`; `ask` comes after it and waits for a response; `after` comes last. */
  function FlipJob(fetched: Json): Job {
    Job(Dag([Plain("fetch", Some("items")), Plain("ask", None), Plain("after", None)],
            [Edge("fetch", "ask"), Edge("ask", "after")], None),
        SimpleWorld(FlipReply(fetched)), map[])
  }

  ghost predicate FlipGraph(d: Dag, fetch: Name, ask: Name, after: Name) {
    && WellFormed(d) && Names(d) == {fetch, ask, after} && fetch != ask && fetch != after && ask != after
    && (forall p :: !IsParent(d, p, fetch)) && (forall p :: IsParent(d, p, ask) <==> p == fetch)
    && IsParent(d, ask, after)
  }

  /** What matters of the workflow: `fetch` succeeds with `fetched`, which it binds to `v`, in one call;
      `ask` waits. */
  ghost predicate FlipFlow(f: Flow, fetch: Name, ask: Name, after: Name, v: Var, fetched: Json) {
    && FlipGraph(f.dag, fetch, ask, after) && ValidFlow(f) && NothingRaised(f)
    && (forall c {:trigger Own(f, fetch, c)} :: Own(f, fetch, c).record == Record(Success, fetched))
    && (forall c {:trigger Own(f, ask, c)} :: Own(f, ask, c).record.status == Waiting)
    && (forall c: Ctx {:trigger Cost(f, fetch, c)} :: !SkippedParent(f.dag, c.nodes, fetch) ==> Cost(f, fetch, c) == 1)
    && f.bindings(fetch, fetched) == map[v := fetched]
  }

  lemma FlipDefs(fetched: Json)
    ensures var d := FlipJob(fetched).dag;
            && FlipGraph(d, "fetch", "ask", "after")
            && Def(d, "fetch") == Plain("fetch", Some("items"))
            && Def(d, "ask") == Plain("ask", None) && Def(d, "after") == Plain("after", None)
  {
    var d := FlipJob(fetched).dag;
    assert d.nodes[0].name == "fetch" && d.nodes[1].name == "ask" && d.nodes[2].name == "after";
    assert Names(d) == {"fetch", "ask", "after"};
    assert d.edges[1] == Edge("ask", "after");
  }

  lemma FlipJobFlow(fetched: Json)
    requires fetched.Arr?
    ensures FlipFlow(FlowOf(FlipJob(fetched)), "fetch", "ask", "after", "items", fetched)
  {
    var j := FlipJob(fetched);
    FlipDefs(fetched);
    FlowOfValid(j);
    forall n, c: Ctx | n in Names(j.dag)
      ensures !Own(FlowOf(j), n, c).raised
      ensures n == "fetch" ==> Own(FlowOf(j), n, c).record == Record(Success, fetched)
      ensures n == "ask" ==> Own(FlowOf(j), n, c).record.status == Waiting
      ensures !SkippedParent(j.dag, c.nodes, n) ==> Cost(FlowOf(j), n, c) == 1
    {
      PlainOutcome(j, FlipReply(fetched), n, c);
    }
  }

  /** Its nodes do not look at the context at all, and only one of them writes to it. */
  lemma FlipIsLocal(fetched: Json)
    ensures Local(FlowOf(FlipJob(fetched)))
  {
    var j := FlipJob(fetched);
    var f := FlowOf(j);
    FlipDefs(fetched);
    forall n, c1, c2
      ensures Own(f, n, c1) == Own(f, n, c2)
    {
      if n in Names(j.dag) {
        PlainOutcome(j, FlipReply(fetched), n, c1);
        PlainOutcome(j, FlipReply(fetched), n, c2);
      }
    }
  }

  lemma FlipWrites(fetched: Json)
    ensures DisjointWrites(FlowOf(FlipJob(fetched)))
  {
    hide FlowOf, FlipJob, FlipGraph;
    FlipDefs(fetched);
    FlipGraphNames(fetched);
    FlipWritesAt(fetched, "fetch");
    FlipWritesAt(fetched, "ask");
    FlipWritesAt(fetched, "after");
  }

  lemma FlipGraphNames(fetched: Json)
    ensures Names(FlowOf(FlipJob(fetched)).dag) == {"fetch", "ask", "after"}
  {
    FlipDefs(fetched);
  }

  lemma FlipWritesAt(fetched: Json, n: Name)
    requires n in {"fetch", "ask", "after"}
    ensures Writes(FlowOf(FlipJob(fetched)), n) == if n == "fetch" then {"items"} else {}
  {
    hide Bindings, FlipJob;
    var j := FlipJob(fetched);
    FlipDefs(fetched);
    BindingKeys(j.world, Def(j.dag, n), Null);
  }

  /** What any fresh run of this workflow comes to. */
  lemma FlipRuns(
    f: Flow, fetch: Name, ask: Name, after: Name, v: Var, fetched: Json, init: map<Var, Json>, m: Mem)
    requires FlipFlow(f, fetch, ask, after, v, fetched) && JobContract(f, map[], init, m)
    ensures !m.aborted && m.results.Keys == {fetch, ask, after}
    ensures m.results[fetch] == Record(Success, fetched) && m.results[ask].status == Waiting
    ensures m.results[after].status == Pending
    ensures fetch in m.calls && m.calls[fetch] == 1
  {
    NeverAborts(f, init, m);
    RootRuns(f, init, m, fetch);
    ChildRuns(f, init, m, fetch, ask);
    BehindWaiting(f, init, m, ask, after);
    CalledOnce(f, fetch, init, m);
  }

  /** Behind a single successful parent a node runs too. */
  lemma ChildRuns(f: Flow, init: map<Var, Json>, m: Mem, p: Name, n: Name)
    requires ValidFlow(f) && JobContract(f, map[], init, m) && !m.aborted && n in Names(f.dag)
    requires p in m.results && m.results[p].status == Success && forall q :: IsParent(f.dag, q, n) <==> q == p
    ensures n in m.seen && m.results[n] == Own(f, n, m.seen[n]).record
  {
    StatusEquation(f, map[], init, m.results, m.seen, n);
  }

  lemma BehindWaiting(f: Flow, init: map<Var, Json>, m: Mem, p: Name, n: Name)
    requires ValidFlow(f) && JobContract(f, map[], init, m) && !m.aborted && n in Names(f.dag)
    requires p in m.results && m.results[p].status == Waiting && IsParent(f.dag, p, n)
    ensures m.results[n].status == Pending
  {
    StatusEquation(f, map[], init, m.results, m.seen, n);
  }

  lemma CalledOnce(f: Flow, n: Name, init: map<Var, Json>, m: Mem)
    requires JobContract(f, map[], init, m) && n in m.seen && Cost(f, n, m.seen[n]) == 1
    ensures n in m.calls && m.calls[n] == 1
  {
  }

  lemma FlipBinds(
    f: Flow, fetch: Name, ask: Name, after: Name, v: Var, fetched: Json, init: map<Var, Json>, m: Mem)
    requires FlipFlow(f, fetch, ask, after, v, fetched) && fetched != Null && DisjointWrites(f)
    requires JobContract(f, map[], init, m)
    ensures v in m.vars && m.vars[v] == fetched
  {
    FlipRuns(f, fetch, ask, after, v, fetched, init, m);
    assert v in Writes(f, fetch);
    Bound(f, init, m, fetch, v);
  }

  /** A success binds its variables. */
  lemma Bound(f: Flow, init: map<Var, Json>, m: Mem, n: Name, v: Var)
    requires DisjointWrites(f) && JobContract(f, map[], init, m)
    requires n in m.results && m.results[n].status == Success && v in Writes(f, n)
    ensures SameAt(m.vars, f.bindings(n, m.results[n].output), v)
  {
    assert Publishes(map[], m.results, n);
  }

  lemma FlipNonNull(f: Flow, fetch: Name, ask: Name, after: Name, res: map<Name, Record>)
    requires res.Keys == {fetch, ask, after} && res[fetch].status == Success && res[fetch].output != Null
    requires res[ask].status == Waiting && res[after].status == Pending
    ensures NonNullOutputs(f, res) && Aggregate(false, res) == SomeWaiting
  {
    assert SomeStatus(res, Waiting);
  }

  lemma NothingHydrated(d: Dag)
    ensures Hydrated(d, Load(map[])) == map[]
  {
  }

  function NoInputs(reserved: map<Var, Json>): Setup { Setup(map[], Obj(map[]), reserved) }

  lemma FlipRunOfWorker(fetched: Json, reserved: map<Var, Json>, m: Mem)
    requires RanSingle(FlipJob(fetched), map[], NoInputs(reserved), map[], m)
    ensures JobContract(FlowOf(FlipJob(fetched)), map[], InitOf(NoInputs(reserved), map[]), m)
  {
    NothingHydrated(FlipJob(fetched).dag);
  }

  /** With empty inputs the first job is a single run that pauses at `ask`, and everything the pause theorem
      asks of it holds. */
  lemma FlipPauses(fetched: Json, reserved: map<Var, Json>, m: Mem)
    requires fetched.Arr? && RanSingle(FlipJob(fetched), map[], NoInputs(reserved), map[], m)
    ensures DisjointWrites(FlowOf(FlipJob(fetched))) && Local(FlowOf(FlipJob(fetched)))
    ensures !m.aborted && m.results.Keys == {"fetch", "ask", "after"}
    ensures m.results["fetch"] == Record(Success, fetched) && m.results["ask"].status == Waiting
    ensures m.results["after"].status == Pending && NonNullOutputs(FlowOf(FlipJob(fetched)), m.results)
  {
    var f, init := FlowOf(FlipJob(fetched)), InitOf(NoInputs(reserved), map[]);
    FlipRunOfWorker(fetched, reserved, m);
    FlipJobFlow(fetched);
    FlipIsLocal(fetched);
    FlipWrites(fetched);
    FlipRuns(f, "fetch", "ask", "after", "items", fetched, init, m);
    FlipNonNull(f, "fetch", "ask", "after", m.results);
  }

  /** But it leaves an array under `items`, so the job that its response starts is a batch. */
  lemma ResumedAsBatch(fetched: Json, reserved: map<Var, Json>, m: Mem)
    requires fetched.Arr? && RanSingle(FlipJob(fetched), map[], NoInputs(reserved), map[], m)
    ensures BatchItems(UserContext(Obj(map[]), Redact(m.vars))) == Some(fetched.items)
  {
    hide JobInit, DisjointWrites, FlipFlow, Local;
    FlipRunOfWorker(fetched, reserved, m);
    FlipJobFlow(fetched);
    FlipWrites(fetched);
    var init := InitOf(NoInputs(reserved), map[]);
    FlipBinds(FlowOf(FlipJob(fetched)), "fetch", "ask", "after", "items", fetched, init, m);
    ItemsArePersisted(m.vars);
  }

  /** Every item of that batch invokes `fetch` again, although its row is success, and waits again; a batch
      with items ends "partial". */
  lemma BatchFetchesAgain(fetched: Json, item: Json, r: Report, calls: map<Name, nat>)
    requires fetched.Arr? && ItemRan(FlipJob(fetched), map[], item, r, calls)
    ensures "fetch" in calls && calls["fetch"] == 1 && FanStatus([r]) == SomePartial
  {
    FlipJobFlow(fetched);
    NothingHydrated(FlipJob(fetched).dag);
    ItemPauses(FlowOf(FlipJob(fetched)), "fetch", "ask", "after", "items", fetched, ItemInit(map[], item), r, calls);
    WaitingItemIsPartial([r], 0);
  }

  lemma ItemPauses(
    f: Flow, fetch: Name, ask: Name, after: Name, v: Var, fetched: Json, init: map<Var, Json>,
    r: Report, calls: map<Name, nat>)
    requires FlipFlow(f, fetch, ask, after, v, fetched) && fetched != Null && r.status == Aggregate(r.aborted, r.nodes)
    requires JobContract(f, map[], init, Mem(r.nodes, r.ctx.vars, r.aborted, map[], r.seen, calls, r.writes))
    ensures fetch in calls && calls[fetch] == 1 && r.status == SomeWaiting
  {
    var m := Mem(r.nodes, r.ctx.vars, r.aborted, map[], r.seen, calls, r.writes);
    FlipRuns(f, fetch, ask, after, v, fetched, init, m);
    FlipNonNull(f, fetch, ask, after, r.nodes);
  }

  // ---- and with an empty array it succeeds without doing anything ------------------------------------------

  /** The rows of the first job once its writes have landed. */
  lemma FlipRows(fetched: Json, reserved: map<Var, Json>, m: Mem, landed: seq<Write>)
    requires fetched.Arr? && RanSingle(FlipJob(fetched), map[], NoInputs(reserved), map[], m) && Landed(m, landed)
    ensures var rows := Apply(map[], landed);
            && "ask" in rows && rows["ask"].status == Waiting && "after" in rows && rows["after"].status == Pending
  {
    var j, none: Table := FlipJob(fetched), map[];
    FlipPauses(fetched, reserved, m);
    FlipDefs(fetched);
    FlowOfValid(j);
    RowsHoldAfter(FlowOf(j), InitOf(NoInputs(reserved), map[]), none, m, landed);
  }

  /** The store after the first job, its writes drained. */
  method PausedStore(reserved: map<Var, Json>) returns (store: Store, first: Report)
    requires reserved.Keys == RESERVED
    ensures fresh(store) && store.inputs == Obj(map[]) && store.jobs == [] && first.status == SomeWaiting
    ensures BatchItems(UserContext(store.inputs, store.context)) == Some([])
    ensures "ask" in store.rows && store.rows["ask"].status == Waiting
    ensures "after" in store.rows && store.rows["after"].status == Pending
  {
    var j := FlipJob(Arr([]));
    FlipDefs(Arr([]));
    store := new Store(Obj(map[]), map[]);
    ghost var calls, landed;
    var run;
    run, calls, landed := store.ProcessJob(j.dag, j.world, map[], reserved);
    assert Job(j.dag, j.world, map[]) == j;
    first := run.report;
    EmptyFirstJob(reserved, first, calls[0], landed);
  }

  /** Where `fetch` answers an empty array, the job that follows the response runs nothing at all: the
      execution ends "success" with `after` still pending. */
  method EmptyBatchSucceeds(reserved: map<Var, Json>, body: Json, now: string)
    returns (second: JobRun, status: ExecStatus, rows: Table)
    requires reserved.Keys == RESERVED
    ensures second == Fanned([]) && status == ExSuccess
    ensures "ask" in rows && rows["ask"].status == Success && "after" in rows && rows["after"].status == Pending
  {
    var j := FlipJob(Arr([]));
    FlipDefs(Arr([]));
    var store, first := PausedStore(reserved);
    var answer := store.Respond("ask", body, now);
    ghost var calls, landed;
    second, calls, landed := store.ProcessJob(j.dag, j.world, map[], reserved);
    FanStatusExact([]);
    status, rows := store.exec, store.rows;
  }

  ghost function FinalOf(r: Report, calls: map<Name, nat>): Mem {
    Mem(r.nodes, r.ctx.vars, r.aborted, map[], r.seen, calls, r.writes)
  }

  lemma EmptyFirstJob(reserved: map<Var, Json>, r: Report, calls: map<Name, nat>, landed: seq<Write>)
    requires Ran(FlipJob(Arr([])), map[], InitOf(NoInputs(reserved), map[]), r, calls)
    requires r.status == Aggregate(r.aborted, r.nodes) && forall n :: WritesOf(landed, n) == WritesOf(r.writes, n)
    ensures r.status == SomeWaiting
    ensures var rows := Apply(map[], landed);
            && "ask" in rows && rows["ask"].status == Waiting && "after" in rows && rows["after"].status == Pending
    ensures BatchItems(UserContext(Obj(map[]), Redact(r.ctx.vars))) == Some([])
  {
    hide JobContract;
    var fetched, m := Arr([]), FinalOf(r, calls);
    assert RanSingle(FlipJob(fetched), map[], NoInputs(reserved), map[], m);
    FlipPauses(fetched, reserved, m);
    FlipNonNull(FlowOf(FlipJob(fetched)), "fetch", "ask", "after", m.results);
    FlipRows(fetched, reserved, m, landed);
    ResumedAsBatch(fetched, reserved, m);
  }
}
