/** The meaning of a job (engine/executor.js) on values: the atomic steps of the nodes of a layer,
    the invariant they keep, and the relation between a job's inputs and its final results. */
module Semantics {
  import opened Common
  import opened Dags
  import opened NodeRun

  /** What the scheduler needs to know of a job: its graph and how each node answers. The functions
      are those of a `Job`, see `FlowOf`. */
  datatype Flow = Flow(
    dag: Dag,
    prefix: (Name, Ctx) -> Started,
    complete: (Name, Ctx, Launch) -> Outcome,
    calls: (Name, Ctx, Launch) -> nat,
    bindings: (Name, Json) -> map<Var, Json>,
    terminate: Name -> bool)

  function FlowOf(j: Job): Flow {
    Flow(j.dag,
         (n, c) => if n in Names(j.dag) then Prefix(j, n, c) else Settled(FAILURE),
         (n, c, l) => if n in Names(j.dag) then Complete(j, n, c, l) else FAILURE,
         (n, c, l) => if n in Names(j.dag) then Calls(j, n, c, l) else 0,
         (n, output) => if n in Names(j.dag) then Bindings(j.world, Def(j.dag, n), output) else map[],
         n => n in Names(j.dag) && Def(j.dag, n).onError == Terminate)
  }

  /** The context variables that `n` can write. */
  ghost function Writes(f: Flow, n: Name): set<Var> { f.bindings(n, Null).Keys }

  ghost predicate ValidOutcome(o: Outcome) {
    && Recordable(o.record)
    && (o.raised ==> o.record.status == Failed)
    && (o.record.output != Null ==> o.record.status in {Success, Waiting})
  }

  /** What every job guarantees about its nodes, whatever the plugins do. */
  ghost predicate ValidFlow(f: Flow) {
    && (forall n, c :: f.prefix(n, c).Settled? ==>
          ValidOutcome(f.prefix(n, c).outcome) && f.prefix(n, c).outcome.record.status in {Failed, Skipped})
    && (forall n, c, l :: ValidOutcome(f.complete(n, c, l)))
    && (forall n, output :: f.bindings(n, output).Keys == Writes(f, n))
  }

  lemma FlowOfValid(j: Job)
    ensures ValidFlow(FlowOf(j))
  {
    var f := FlowOf(j);
    forall n, c | f.prefix(n, c).Settled?
      ensures ValidOutcome(f.prefix(n, c).outcome) && f.prefix(n, c).outcome.record.status in {Failed, Skipped}
    {
    }
    forall n, output
      ensures f.bindings(n, output).Keys == Writes(f, n)
    {
      if n in Names(j.dag) {
        BindingKeys(j.world, Def(j.dag, n), output);
        BindingKeys(j.world, Def(j.dag, n), Null);
      }
    }
  }

  predicate IsTerminal(s: Status) { s in {Success, Failed, Skipped} }

  predicate SettledIn(res: map<Name, Record>, n: Name) { n in res && IsTerminal(res[n].status) }

  ghost predicate ParentsSettled(d: Dag, res: map<Name, Record>, n: Name) {
    forall p :: IsParent(d, p, n) ==> SettledIn(res, p)
  }

  ghost predicate SkippedParent(d: Dag, res: map<Name, Record>, n: Name) {
    exists p :: IsParent(d, p, n) && p in res && res[p].status == Skipped
  }

  /** A parent keeps `n` from being reached. */
  ghost predicate Blocked(d: Dag, res: map<Name, Record>, n: Name) {
    exists p :: IsParent(d, p, n) && p in res && res[p].status in {Waiting, Pending}
  }

  ghost predicate DisjointWrites(f: Flow) {
    forall m, n, v :: m in Names(f.dag) && n in Names(f.dag) && v in Writes(f, m) && v in Writes(f, n) ==> m == n
  }

  // ---- the context ------------------------------------------------------------

  /** `n`'s outputs are in the context: it succeeded in this job, or it was rehydrated with a
      non-null output. */
  ghost predicate Publishes(hyd: map<Name, Record>, res: map<Name, Record>, n: Name) {
    n in res && res[n].status == Success && !(n in hyd && res[n].output == Null)
  }

  ghost predicate Unpublished(f: Flow, hyd: map<Name, Record>, res: map<Name, Record>, v: Var) {
    forall n :: n in Names(f.dag) && Publishes(hyd, res, n) ==> v !in Writes(f, n)
  }

  /** The root of the context is the initial data overlaid with what each publishing node bound. */
  ghost predicate VarsOK(
    f: Flow, hyd: map<Name, Record>, init: map<Var, Json>, res: map<Name, Record>, vars: map<Var, Json>)
  {
    && (forall n, v :: n in Names(f.dag) && Publishes(hyd, res, n) && v in Writes(f, n) ==>
          SameAt(vars, f.bindings(n, res[n].output), v))
    && (forall v :: Unpublished(f, hyd, res, v) ==> SameAt(vars, init, v))
  }

  ghost predicate NobodyWrites(f: Flow, v: Var) { forall n :: n in Names(f.dag) ==> v !in Writes(f, n) }

  /** Variables that no declared node writes keep their initial values. */
  ghost predicate Untouched(f: Flow, init: map<Var, Json>, vars: map<Var, Json>) {
    forall v :: NobodyWrites(f, v) ==> SameAt(vars, init, v)
  }

  // ---- what a node saw ----------------------------------------------------------

  /** Every node recorded by the job itself had all its parents settled first. */
  ghost predicate Closed(d: Dag, hyd: map<Name, Record>, res: map<Name, Record>) {
    forall m :: m in res && m !in hyd ==> ParentsSettled(d, res, m)
  }

  ghost predicate Recordable(r: Record) {
    r.status in {Success, Failed, Skipped, Waiting}
  }

  ghost predicate AllRecordable(res: map<Name, Record>) {
    forall n :: n in res ==> Recordable(res[n])
  }

  /** `c` is a state the job went through: rehydrated rows are in, parents precede children, and
      the context root reflects exactly the published outputs. */
  ghost predicate Consistent(f: Flow, hyd: map<Name, Record>, init: map<Var, Json>, c: Ctx) {
    && SubMap(hyd, c.nodes)
    && c.nodes.Keys <= Names(f.dag)
    && AllRecordable(c.nodes)
    && Closed(f.dag, hyd, c.nodes)
    && (DisjointWrites(f) ==> VarsOK(f, hyd, init, c.nodes, c.vars))
  }

  /** `n` started in the consistent state `c`, an earlier state of `res`, with its parents settled. */
  ghost predicate Snapshot(
    f: Flow, hyd: map<Name, Record>, init: map<Var, Json>, res: map<Name, Record>, n: Name, c: Ctx)
  {
    Consistent(f, hyd, init, c) && SubMap(c.nodes, res) && ParentsSettled(f.dag, c.nodes, n)
  }

  /** What the node itself makes of the context it sees. */
  ghost function Own(f: Flow, n: Name, c: Ctx): Outcome {
    match f.prefix(n, c)
    case Settled(o) => o
    case Launched(l) => f.complete(n, c, l)
  }

  /** The outcome of a node started in context `c`: the skip cascade, else what the node itself does. */
  ghost function Expected(f: Flow, n: Name, c: Ctx): Outcome {
    if SkippedParent(f.dag, c.nodes, n) then Outcome(Record(Skipped, Null), false) else Own(f, n, c)
  }

  /** The outcome aborts the job. */
  ghost predicate Aborting(f: Flow, n: Name, c: Ctx)
  {
    Expected(f, n, c).raised && f.terminate(n)
  }

  // ---- atomic steps ---------------------------------------------------------------

  /** One call of the `persistNodeState` hook. */
  datatype Partial = Partial(status: Status, output: Json, inputs: Option<Json>)

  datatype Write = Write(name: Name, partial: Partial)

  datatype Mem = Mem(
    results: map<Name, Record>,
    vars: map<Var, Json>,
    aborted: bool,
    inflight: map<Name, Launch>,
    seen: map<Name, Ctx>,
    calls: map<Name, nat>,
    writes: seq<Write>)

  function RecordWrite(n: Name, r: Record): Write { Write(n, Partial(r.status, r.output, None)) }

  function RunningWrite(n: Name, l: Launch): Write { Write(n, Partial(Running, Null, Some(l.inputs))) }

  /** `recordOutcome`, then `handleFailure` when the failure is raised. */
  function Put(f: Flow, m: Mem, n: Name, o: Outcome): Mem
  {
    m.(results := m.results[n := o.record],
       aborted := m.aborted || (o.raised && f.terminate(n)),
       writes := m.writes + [RecordWrite(n, o.record)])
  }

  /** The synchronous part of `runOneInner`. */
  ghost function StartStep(f: Flow, m: Mem, n: Name): Mem
  {
    var c := Ctx(m.vars, m.results);
    var m1 := m.(seen := m.seen[n := c]);
    if SkippedParent(f.dag, m.results, n) then
      Put(f, m1.(calls := m.calls[n := 0]), n, Outcome(Record(Skipped, Null), false))
    else
      match f.prefix(n, c)
      case Settled(o) => Put(f, m1.(calls := m.calls[n := 0]), n, o)
      case Launched(l) => m1.(inflight := m.inflight[n := l], writes := m.writes + [RunningWrite(n, l)])
  }

  function Published(f: Flow, vars: map<Var, Json>, n: Name, r: Record): map<Var, Json>
  {
    if r.status == Success then vars + f.bindings(n, r.output) else vars
  }

  /** The rest of `runOneInner`, once the plugin calls have come back. */
  ghost function FinishStep(f: Flow, m: Mem, n: Name): Mem
    requires n in m.inflight && n in m.seen
  {
    var l := m.inflight[n];
    var o := f.complete(n, m.seen[n], l);
    Put(f,
        m.(inflight := m.inflight - {n}, vars := Published(f, m.vars, n, o.record),
           calls := m.calls[n := f.calls(n, m.seen[n], l)]),
        n, o)
  }

  // ---- the invariant of a layer -------------------------------------------------------

  ghost predicate CanStart(f: Flow, m: Mem, n: Name) {
    && n in Names(f.dag) && n !in m.results && n !in m.inflight
    && ParentsSettled(f.dag, m.results, n)
  }

  ghost predicate Launches(f: Flow, n: Name, c: Ctx)
  {
    !SkippedParent(f.dag, c.nodes, n) && f.prefix(n, c).Launched?
  }

  ghost predicate SeenOK(
    f: Flow, hyd: map<Name, Record>, init: map<Var, Json>, results: map<Name, Record>, seen: map<Name, Ctx>)
  {
    forall n :: n in seen ==> Snapshot(f, hyd, init, results, n, seen[n])
  }

  /** Every recorded result is the expected outcome of what the node saw. */
  ghost predicate RecordedOK(f: Flow, results: map<Name, Record>, seen: map<Name, Ctx>) {
    forall n :: n in seen && n in results ==> results[n] == Expected(f, n, seen[n]).record
  }

  ghost predicate RunningOK(f: Flow, inflight: map<Name, Launch>, seen: map<Name, Ctx>) {
    forall n :: n in inflight ==>
      n in seen && Launches(f, n, seen[n]) && f.prefix(n, seen[n]).launch == inflight[n]
  }

  ghost predicate KeysOK(f: Flow, hyd: map<Name, Record>, m: Mem) {
    && m.seen.Keys == (m.results.Keys - hyd.Keys) + m.inflight.Keys
    && m.seen.Keys <= Names(f.dag)
    && m.inflight.Keys !! m.results.Keys
    && hyd.Keys <= m.results.Keys
  }

  /** Results, snapshots and running nodes fit together. */
  ghost predicate CoreInvariant(f: Flow, hyd: map<Name, Record>, init: map<Var, Json>, m: Mem) {
    && Consistent(f, hyd, init, Ctx(m.vars, m.results))
    && KeysOK(f, hyd, m)
    && SeenOK(f, hyd, init, m.results, m.seen)
    && RecordedOK(f, m.results, m.seen)
    && RunningOK(f, m.inflight, m.seen)
  }

  /** `aborted` is set exactly when a recorded failure went through `handleFailure` with `terminate`. */
  ghost predicate AbortInvariant(f: Flow, m: Mem) {
    m.aborted <==> SomeAbort(f, m.results, m.seen)
  }

  ghost predicate SomeAbort(f: Flow, results: map<Name, Record>, seen: map<Name, Ctx>) {
    exists n :: n in seen && n in results && Aborting(f, n, seen[n])
  }

  /** The number of plugin calls a recorded node has cost. */
  ghost function Cost(f: Flow, n: Name, c: Ctx): nat
  {
    if Launches(f, n, c) then f.calls(n, c, f.prefix(n, c).launch) else 0
  }

  ghost predicate CallsInvariant(f: Flow, m: Mem)
  {
    && m.calls.Keys == m.seen.Keys - m.inflight.Keys
    && forall n :: n in m.calls ==> m.calls[n] == Cost(f, n, m.seen[n])
  }

  /** The writes issued for one node, in order. */
  ghost function WritesOf(log: seq<Write>, n: Name): seq<Partial> {
    if log == [] then []
    else
      var w := log[|log| - 1];
      WritesOf(log[..|log| - 1], n) + (if w.name == n then [w.partial] else [])
  }

  lemma WritesOfAppend(log: seq<Write>, w: Write, n: Name)
    ensures WritesOf(log + [w], n) == WritesOf(log, n) + (if w.name == n then [w.partial] else [])
  {
    assert (log + [w])[..|log|] == log;
  }

  /** The writes that the state of a node accounts for. */
  ghost function LogOf(f: Flow, hyd: map<Name, Record>, m: Mem, n: Name): seq<Partial>
  {
    if n in hyd || n !in m.seen then []
    else
      var running := if Launches(f, n, m.seen[n]) then [RunningWrite(n, f.prefix(n, m.seen[n]).launch).partial] else [];
      if n in m.results then running + [RecordWrite(n, m.results[n]).partial] else running
  }

  ghost predicate LogInvariant(f: Flow, hyd: map<Name, Record>, m: Mem)
  {
    forall n :: WritesOf(m.writes, n) == LogOf(f, hyd, m, n)
  }

  ghost predicate Invariant(f: Flow, hyd: map<Name, Record>, init: map<Var, Json>, m: Mem) {
    && CoreInvariant(f, hyd, init, m)
    && AbortInvariant(f, m)
    && CallsInvariant(f, m)
    && LogInvariant(f, hyd, m)
    && Untouched(f, init, m.vars)
  }

  // ---- steps keep the invariant ---------------------------------------------------------

  lemma SubMapTrans<K, V>(a: map<K, V>, b: map<K, V>, c: map<K, V>)
    requires SubMap(a, b) && SubMap(b, c)
    ensures SubMap(a, c)
  {
    forall k | k in a
      ensures k in c && c[k] == a[k]
    {
      assert k in b;
    }
  }

  /** Recording one more non-success node leaves the context consistent. */
  lemma RecordQuietly(f: Flow, hyd: map<Name, Record>, init: map<Var, Json>, c: Ctx, n: Name, r: Record)
    requires ValidFlow(f) && Consistent(f, hyd, init, c) && n in Names(f.dag) && n !in c.nodes
    requires ParentsSettled(f.dag, c.nodes, n) && Recordable(r) && r.status != Success
    ensures Consistent(f, hyd, init, c.(nodes := c.nodes[n := r]))
  {
    var nodes := c.nodes[n := r];
    SettledGrows(f.dag, c.nodes, nodes);
    if DisjointWrites(f) {
      forall m
        ensures Publishes(hyd, nodes, m) <==> Publishes(hyd, c.nodes, m)
      {
      }
      forall v | Unpublished(f, hyd, nodes, v)
        ensures SameAt(c.vars, init, v)
      {
        assert Unpublished(f, hyd, c.nodes, v);
      }
    }
  }

  /** Settled parents stay settled when more is recorded. */
  lemma SettledGrows(d: Dag, a: map<Name, Record>, b: map<Name, Record>)
    requires SubMap(a, b)
    ensures forall m :: ParentsSettled(d, a, m) ==> ParentsSettled(d, b, m)
  {
    forall m | ParentsSettled(d, a, m)
      ensures ParentsSettled(d, b, m)
    {
      forall p | IsParent(d, p, m)
        ensures SettledIn(b, p)
      {
        assert SettledIn(a, p);
      }
    }
  }

  /** Recording a success and publishing its outputs leaves the context consistent. */
  lemma RecordSuccess(f: Flow, hyd: map<Name, Record>, init: map<Var, Json>, c: Ctx, n: Name, r: Record)
    requires ValidFlow(f) && Consistent(f, hyd, init, c) && n in Names(f.dag) && n !in c.nodes
    requires ParentsSettled(f.dag, c.nodes, n) && r.status == Success
    ensures Consistent(f, hyd, init, Ctx(Published(f, c.vars, n, r), c.nodes[n := r]))
  {
    var nodes := c.nodes[n := r];
    var vars := Published(f, c.vars, n, r);
    SettledGrows(f.dag, c.nodes, nodes);
    if DisjointWrites(f) {
      VarsAfterSuccess(f, hyd, init, c, n, r);
    }
  }

  lemma VarsAfterSuccess(f: Flow, hyd: map<Name, Record>, init: map<Var, Json>, c: Ctx, n: Name, r: Record)
    requires ValidFlow(f) && DisjointWrites(f) && VarsOK(f, hyd, init, c.nodes, c.vars)
    requires n in Names(f.dag) && n !in c.nodes && n !in hyd && r.status == Success
    ensures VarsOK(f, hyd, init, c.nodes[n := r], Published(f, c.vars, n, r))
  {
    var nodes := c.nodes[n := r];
    var vars := Published(f, c.vars, n, r);
    forall m
      ensures Publishes(hyd, nodes, m) <==> m == n || Publishes(hyd, c.nodes, m)
    {
    }
    forall m, v | m in Names(f.dag) && Publishes(hyd, nodes, m) && v in Writes(f, m)
      ensures SameAt(vars, f.bindings(m, nodes[m].output), v)
    {
      if m != n {
        assert v !in Writes(f, n);
        assert SameAt(c.vars, f.bindings(m, nodes[m].output), v);
      }
    }
    forall v | Unpublished(f, hyd, nodes, v)
      ensures SameAt(vars, init, v)
    {
      assert Unpublished(f, hyd, c.nodes, v);
      assert Publishes(hyd, nodes, n);
    }
  }

  /** Snapshots stay snapshots when more is recorded. */
  lemma SnapshotsGrow(f: Flow, hyd: map<Name, Record>, init: map<Var, Json>, seen: map<Name, Ctx>,
                      a: map<Name, Record>, b: map<Name, Record>)
    requires SubMap(a, b)
    requires forall n :: n in seen ==> Snapshot(f, hyd, init, a, n, seen[n])
    ensures forall n :: n in seen ==> Snapshot(f, hyd, init, b, n, seen[n])
  {
    forall n | n in seen
      ensures Snapshot(f, hyd, init, b, n, seen[n])
    {
      assert Snapshot(f, hyd, init, a, n, seen[n]);
      SubMapTrans(seen[n].nodes, a, b);
    }
  }

  /** The two ways a start can go, field by field. */
  lemma StartCases(f: Flow, m: Mem, n: Name)
    ensures var c := Ctx(m.vars, m.results);
            StartStep(f, m, n) ==
              if Launches(f, n, c) then
                Mem(m.results, m.vars, m.aborted, m.inflight[n := f.prefix(n, c).launch], m.seen[n := c],
                    m.calls, m.writes + [RunningWrite(n, f.prefix(n, c).launch)])
              else
                Mem(m.results[n := Expected(f, n, c).record], m.vars, m.aborted || Aborting(f, n, c), m.inflight,
                    m.seen[n := c], m.calls[n := 0], m.writes + [RecordWrite(n, Expected(f, n, c).record)])
  {
  }

  /** How a running node ends, field by field. */
  lemma FinishCases(f: Flow, m: Mem, n: Name)
    requires RunningOK(f, m.inflight, m.seen) && n in m.inflight
    ensures var c := m.seen[n];
            FinishStep(f, m, n) ==
              Mem(m.results[n := Expected(f, n, c).record], Published(f, m.vars, n, Expected(f, n, c).record),
                  m.aborted || Aborting(f, n, c), m.inflight - {n}, m.seen,
                  m.calls[n := Cost(f, n, c)], m.writes + [RecordWrite(n, Expected(f, n, c).record)])
  {
  }

  lemma QuietUnlessLaunched(f: Flow, n: Name, c: Ctx)
    requires ValidFlow(f)
    ensures ValidOutcome(Expected(f, n, c))
    ensures !Launches(f, n, c) ==> Expected(f, n, c).record.status in {Failed, Skipped}
  {
  }

  lemma RecordKeepsOutcomes(f: Flow, results: map<Name, Record>, seen: map<Name, Ctx>, n: Name)
    requires RecordedOK(f, results, seen) && n in seen
    ensures RecordedOK(f, results[n := Expected(f, n, seen[n]).record], seen)
  {
  }

  lemma SeenExtended(
    f: Flow, hyd: map<Name, Record>, init: map<Var, Json>, m: Mem, n: Name, seen: map<Name, Ctx>)
    requires CoreInvariant(f, hyd, init, m) && CanStart(f, m, n) && seen == m.seen[n := Ctx(m.vars, m.results)]
    ensures SeenOK(f, hyd, init, m.results, seen)
    ensures RecordedOK(f, m.results, seen)
    ensures RunningOK(f, m.inflight, seen)
  {
    assert Snapshot(f, hyd, init, m.results, n, seen[n]);
  }

  lemma KeysAfterRecord(f: Flow, hyd: map<Name, Record>, m: Mem, m': Mem, n: Name, r: Record)
    requires KeysOK(f, hyd, m) && n in Names(f.dag) && n !in m.results
    requires m'.results == m.results[n := r] && m'.inflight == m.inflight - {n}
    requires m'.seen.Keys == m.seen.Keys + {n}
    ensures KeysOK(f, hyd, m')
  {
  }

  lemma RunningExtended(f: Flow, inflight: map<Name, Launch>, seen: map<Name, Ctx>, n: Name)
    requires RunningOK(f, inflight, seen) && n in seen && Launches(f, n, seen[n])
    ensures RunningOK(f, inflight[n := f.prefix(n, seen[n]).launch], seen)
  {
  }

  lemma LaunchKeepsCore(f: Flow, hyd: map<Name, Record>, init: map<Var, Json>, m: Mem, m': Mem, n: Name)
    requires CoreInvariant(f, hyd, init, m) && CanStart(f, m, n)
    requires var c := Ctx(m.vars, m.results);
             && Launches(f, n, c)
             && m'.results == m.results && m'.vars == m.vars
             && m'.inflight == m.inflight[n := f.prefix(n, c).launch] && m'.seen == m.seen[n := c]
    ensures CoreInvariant(f, hyd, init, m')
  {
    SeenExtended(f, hyd, init, m, n, m'.seen);
    RunningExtended(f, m.inflight, m'.seen, n);
  }

  /** `n` is recorded at once: `m'` is `m` after such a start. */
  ghost predicate RecordedAtStart(f: Flow, m: Mem, m': Mem, n: Name) {
    var c := Ctx(m.vars, m.results);
    && !Launches(f, n, c)
    && m'.results == m.results[n := Expected(f, n, c).record] && m'.vars == m.vars
    && m'.inflight == m.inflight && m'.seen == m.seen[n := c]
  }

  lemma RecordAtStartConsistent(f: Flow, hyd: map<Name, Record>, init: map<Var, Json>, m: Mem, m': Mem, n: Name)
    requires ValidFlow(f) && CoreInvariant(f, hyd, init, m) && CanStart(f, m, n) && RecordedAtStart(f, m, m', n)
    ensures Consistent(f, hyd, init, Ctx(m'.vars, m'.results)) && KeysOK(f, hyd, m')
  {
    hide Consistent, ParentsSettled, SeenOK, RecordedOK, RunningOK;
    var c := Ctx(m.vars, m.results);
    var r := Expected(f, n, c).record;
    QuietUnlessLaunched(f, n, c);
    RecordQuietly(f, hyd, init, c, n, r);
    assert m.inflight - {n} == m.inflight;
    KeysAfterRecord(f, hyd, m, m', n, r);
  }

  lemma RecordAtStartExplained(f: Flow, hyd: map<Name, Record>, init: map<Var, Json>, m: Mem, m': Mem, n: Name)
    requires CoreInvariant(f, hyd, init, m) && CanStart(f, m, n) && RecordedAtStart(f, m, m', n)
    ensures SeenOK(f, hyd, init, m'.results, m'.seen)
    ensures RecordedOK(f, m'.results, m'.seen) && RunningOK(f, m'.inflight, m'.seen)
  {
    SeenExtended(f, hyd, init, m, n, m'.seen);
    SnapshotsGrow(f, hyd, init, m'.seen, m.results, m'.results);
    RecordKeepsOutcomes(f, m.results, m'.seen, n);
  }

  lemma StartKeepsCore(f: Flow, hyd: map<Name, Record>, init: map<Var, Json>, m: Mem, n: Name)
    requires ValidFlow(f) && CoreInvariant(f, hyd, init, m) && CanStart(f, m, n)
    ensures CoreInvariant(f, hyd, init, StartStep(f, m, n))
  {
    StartCases(f, m, n);
    if Launches(f, n, Ctx(m.vars, m.results)) {
      LaunchKeepsCore(f, hyd, init, m, StartStep(f, m, n), n);
    } else {
      RecordAtStartConsistent(f, hyd, init, m, StartStep(f, m, n), n);
      RecordAtStartExplained(f, hyd, init, m, StartStep(f, m, n), n);
    }
  }

  lemma FinishReady(f: Flow, hyd: map<Name, Record>, init: map<Var, Json>, m: Mem, n: Name)
    requires CoreInvariant(f, hyd, init, m) && n in m.inflight
    ensures n in Names(f.dag) && n in m.seen && n !in m.results && ParentsSettled(f.dag, m.results, n)
    ensures RunningOK(f, m.inflight - {n}, m.seen)
  {
    assert Snapshot(f, hyd, init, m.results, n, m.seen[n]);
    SettledGrows(f.dag, m.seen[n].nodes, m.results);
  }

  lemma FinishKeepsCore(f: Flow, hyd: map<Name, Record>, init: map<Var, Json>, m: Mem, n: Name)
    requires ValidFlow(f) && CoreInvariant(f, hyd, init, m) && n in m.inflight
    ensures CoreInvariant(f, hyd, init, FinishStep(f, m, n))
  {
    hide Consistent, Snapshot, ParentsSettled;
    FinishCases(f, m, n);
    FinishReady(f, hyd, init, m, n);
    var m' := FinishStep(f, m, n);
    var c := Ctx(m.vars, m.results);
    var r := Expected(f, n, m.seen[n]).record;
    QuietUnlessLaunched(f, n, m.seen[n]);
    if r.status == Success {
      RecordSuccess(f, hyd, init, c, n, r);
    } else {
      RecordQuietly(f, hyd, init, c, n, r);
    }
    SnapshotsGrow(f, hyd, init, m.seen, m.results, m.results[n := r]);
    RecordKeepsOutcomes(f, m.results, m.seen, n);
    KeysAfterRecord(f, hyd, m, m', n, r);
  }

  lemma AbortAfterRecord(f: Flow, results: map<Name, Record>, seen: map<Name, Ctx>, n: Name, c: Ctx, r: Record)
    requires n !in results && (n in seen ==> seen[n] == c)
    ensures SomeAbort(f, results[n := r], seen[n := c]) <==> SomeAbort(f, results, seen) || Aborting(f, n, c)
  {
    var seen' := seen[n := c];
    if SomeAbort(f, results, seen) {
      var x :| x in seen && x in results && Aborting(f, x, seen[x]);
      assert x in seen' && x in results[n := r] && Aborting(f, x, seen'[x]);
    }
    if Aborting(f, n, c) {
      assert n in seen' && Aborting(f, n, seen'[n]);
    }
  }

  lemma AbortAfterStart(f: Flow, results: map<Name, Record>, seen: map<Name, Ctx>, n: Name, c: Ctx)
    requires n !in results && n !in seen
    ensures SomeAbort(f, results, seen[n := c]) <==> SomeAbort(f, results, seen)
  {
    var seen' := seen[n := c];
    if SomeAbort(f, results, seen) {
      var x :| x in seen && x in results && Aborting(f, x, seen[x]);
      assert x in seen' && Aborting(f, x, seen'[x]);
    }
  }

  lemma StartKeepsAbort(f: Flow, hyd: map<Name, Record>, m: Mem, n: Name)
    requires KeysOK(f, hyd, m) && CanStart(f, m, n) && AbortInvariant(f, m)
    ensures AbortInvariant(f, StartStep(f, m, n))
  {
    StartCases(f, m, n);
    var c := Ctx(m.vars, m.results);
    if Launches(f, n, c) {
      AbortAfterStart(f, m.results, m.seen, n, c);
    } else {
      AbortAfterRecord(f, m.results, m.seen, n, c, Expected(f, n, c).record);
    }
  }

  lemma StartKeepsCalls(f: Flow, hyd: map<Name, Record>, m: Mem, n: Name)
    requires KeysOK(f, hyd, m) && CanStart(f, m, n) && CallsInvariant(f, m)
    ensures CallsInvariant(f, StartStep(f, m, n))
  {
    hide StartStep, Launches, ParentsSettled;
    StartCases(f, m, n);
    assert n !in m.seen;
  }

  lemma FinishKeepsRest(f: Flow, hyd: map<Name, Record>, m: Mem, n: Name)
    requires KeysOK(f, hyd, m) && RunningOK(f, m.inflight, m.seen) && n in m.inflight
    requires AbortInvariant(f, m) && CallsInvariant(f, m)
    ensures AbortInvariant(f, FinishStep(f, m, n)) && CallsInvariant(f, FinishStep(f, m, n))
  {
    hide Snapshot, ParentsSettled, SkippedParent, Launches, FinishStep;
    FinishCases(f, m, n);
    var c := m.seen[n];
    assert m.seen[n := c] == m.seen;
    AbortAfterRecord(f, m.results, m.seen, n, c, Expected(f, n, c).record);
  }

  /** What a start adds to the account of node `x`. */
  lemma StartLogs(f: Flow, hyd: map<Name, Record>, m: Mem, n: Name, x: Name)
    requires KeysOK(f, hyd, m) && CanStart(f, m, n)
    ensures var m' := StartStep(f, m, n);
            && |m'.writes| == |m.writes| + 1 && m'.writes[..|m.writes|] == m.writes
            && var w := m'.writes[|m.writes|];
               LogOf(f, hyd, m', x) == LogOf(f, hyd, m, x) + (if w.name == x then [w.partial] else [])
  {
    hide StartStep, Launches, ParentsSettled, SkippedParent;
    StartCases(f, m, n);
    assert n !in m.seen && n !in hyd;
  }

  lemma StartKeepsLog(f: Flow, hyd: map<Name, Record>, m: Mem, n: Name)
    requires KeysOK(f, hyd, m) && CanStart(f, m, n) && LogInvariant(f, hyd, m)
    ensures LogInvariant(f, hyd, StartStep(f, m, n))
  {
    hide StartStep, LogOf, KeysOK, ParentsSettled;
    forall x
      ensures WritesOf(StartStep(f, m, n).writes, x) == LogOf(f, hyd, StartStep(f, m, n), x)
    {
      StartLogs(f, hyd, m, n, x);
      assert WritesOf(m.writes, x) == LogOf(f, hyd, m, x);
    }
  }

  /** What a completion adds to the account of node `x`. */
  lemma FinishLogs(f: Flow, hyd: map<Name, Record>, m: Mem, n: Name, x: Name)
    requires KeysOK(f, hyd, m) && RunningOK(f, m.inflight, m.seen) && n in m.inflight
    ensures var m' := FinishStep(f, m, n);
            && |m'.writes| == |m.writes| + 1 && m'.writes[..|m.writes|] == m.writes
            && var w := m'.writes[|m.writes|];
               LogOf(f, hyd, m', x) == LogOf(f, hyd, m, x) + (if w.name == x then [w.partial] else [])
  {
    hide FinishStep, Snapshot, ParentsSettled, SkippedParent;
    FinishCases(f, m, n);
    assert n !in m.results && n !in hyd;
  }

  lemma FinishKeepsLog(f: Flow, hyd: map<Name, Record>, m: Mem, n: Name)
    requires KeysOK(f, hyd, m) && RunningOK(f, m.inflight, m.seen) && n in m.inflight && LogInvariant(f, hyd, m)
    ensures LogInvariant(f, hyd, FinishStep(f, m, n))
  {
    hide FinishStep, LogOf, KeysOK;
    forall x
      ensures WritesOf(FinishStep(f, m, n).writes, x) == LogOf(f, hyd, FinishStep(f, m, n), x)
    {
      FinishLogs(f, hyd, m, n, x);
      assert WritesOf(m.writes, x) == LogOf(f, hyd, m, x);
    }
  }

  lemma PublishedUntouched(f: Flow, init: map<Var, Json>, vars: map<Var, Json>, n: Name, r: Record)
    requires ValidFlow(f) && n in Names(f.dag) && Untouched(f, init, vars)
    ensures Untouched(f, init, Published(f, vars, n, r))
  {
    forall v | NobodyWrites(f, v)
      ensures SameAt(Published(f, vars, n, r), init, v)
    {
      assert v !in f.bindings(n, r.output).Keys;
    }
  }

  lemma StartKeeps(f: Flow, hyd: map<Name, Record>, init: map<Var, Json>, m: Mem, n: Name)
    requires ValidFlow(f) && Invariant(f, hyd, init, m) && CanStart(f, m, n)
    ensures Invariant(f, hyd, init, StartStep(f, m, n))
  {
    StartKeepsCore(f, hyd, init, m, n);
    StartKeepsAbort(f, hyd, m, n);
    StartKeepsCalls(f, hyd, m, n);
    StartKeepsLog(f, hyd, m, n);
    StartCases(f, m, n);
  }

  lemma FinishKeeps(f: Flow, hyd: map<Name, Record>, init: map<Var, Json>, m: Mem, n: Name)
    requires ValidFlow(f) && Invariant(f, hyd, init, m) && n in m.inflight
    ensures Invariant(f, hyd, init, FinishStep(f, m, n))
  {
    FinishKeepsCore(f, hyd, init, m, n);
    FinishKeepsRest(f, hyd, m, n);
    FinishKeepsLog(f, hyd, m, n);
    FinishUntouched(f, init, m, n);
  }

  lemma FinishUntouched(f: Flow, init: map<Var, Json>, m: Mem, n: Name)
    requires ValidFlow(f) && Untouched(f, init, m.vars) && n in m.inflight && n in Names(f.dag)
    requires RunningOK(f, m.inflight, m.seen)
    ensures Untouched(f, init, FinishStep(f, m, n).vars)
  {
    FinishCases(f, m, n);
    PublishedUntouched(f, init, m.vars, n, Expected(f, n, m.seen[n]).record);
  }
}
