/** The workflow executor (engine/executor.js, `executeDag`): rehydration, the layered scheduler with
    its counters, retries, abort and the final reconciliation. Plugin calls of one layer may
    complete in any order. */
module Executor {
  import opened Common
  import opened Dags
  import opened NodeRun
  import opened Semantics
  import opened JobResults

  /** The rows that a job takes over: declared nodes in a terminal or waiting state. */
  function Hydrated(d: Dag, initial: map<Name, Record>): map<Name, Record> {
    map n | n in initial && n in Names(d) && initial[n].status in {Success, Failed, Skipped, Waiting} :: initial[n]
  }

  /** The nodes whose outgoing edges have been released. */
  ghost function Released(res: map<Name, Record>): set<Name> {
    set n | n in res && IsTerminal(res[n].status)
  }

  /** The ready list holds exactly the unrecorded nodes whose counter is zero. */
  ghost predicate ReadyOK(d: Dag, remaining: map<Name, int>, res: map<Name, Record>, ready: seq<Name>) {
    && remaining.Keys == Names(d)
    && NoDuplicates(ready)
    && forall x :: x in ready <==> x in Names(d) && x !in res && remaining[x] == 0
  }

  /** A node with a zero counter has all its parents settled. */
  lemma ReadyCanStart(d: Dag, remaining: map<Name, int>, res: map<Name, Record>, n: Name)
    requires Counters(d, remaining, Released(res)) && n in Names(d) && remaining[n] == 0
    ensures ParentsSettled(d, res, n)
  {
    UnreleasedZero(d.edges, n, Released(res));
  }

  /** A node with a positive counter is blocked by an unrecorded or waiting parent. */
  lemma NotReady(d: Dag, remaining: map<Name, int>, res: map<Name, Record>, n: Name) returns (p: Name)
    requires KnownEndpoints(d)
    requires Counters(d, remaining, Released(res)) && n in Names(d) && remaining[n] != 0
    ensures IsParent(d, p, n) && p in Names(d) && !SettledIn(res, p)
  {
    UnreleasedZero(d.edges, n, Released(res));
    var e :| e in d.edges && e.to == n && e.from !in Released(res);
    p := e.from;
  }

  /** While a layer runs: `base` was recorded before it, and of its nodes `started` have started. */
  ghost predicate LayerProgress(base: Mem, m: Mem, started: set<Name>) {
    && m.results.Keys + m.inflight.Keys == base.results.Keys + started
    && SubMap(base.results, m.results)
    && m.seen.Keys == base.seen.Keys + started
    && (forall n :: n in base.seen ==> n in m.seen && m.seen[n] == base.seen[n])
    && (forall n :: n in started ==> n in m.seen && SubMap(base.results, m.seen[n].nodes))
  }

  lemma ProgressKeys(base: Mem, m: Mem, m': Mem, started: set<Name>, n: Name)
    requires LayerProgress(base, m, started) && n !in base.seen && n !in started && n !in m.results
    requires m'.seen == m.seen[n := Ctx(m.vars, m.results)] && SubMap(m.results, m'.results)
    requires m'.results.Keys + m'.inflight.Keys == m.results.Keys + m.inflight.Keys + {n}
    ensures LayerProgress(base, m', started + {n})
  {
    SubMapTrans(base.results, m.results, m'.results);
  }

  lemma StartProgress(f: Flow, base: Mem, m: Mem, started: set<Name>, n: Name)
    requires LayerProgress(base, m, started) && CanStart(f, m, n) && n !in base.seen && n !in started
    ensures LayerProgress(base, StartStep(f, m, n), started + {n})
  {
    StartCases(f, m, n);
    if Launches(f, n, Ctx(m.vars, m.results)) {
      ProgressKeys(base, m, StartStep(f, m, n), started, n);
    } else {
      ProgressKeys(base, m, StartStep(f, m, n), started, n);
    }
  }

  lemma MovedProgress(base: Mem, m: Mem, m': Mem, started: set<Name>, n: Name)
    requires LayerProgress(base, m, started) && n in m.inflight && n !in base.results && n in m'.results
    requires m'.results == m.results[n := m'.results[n]] && m'.inflight == m.inflight - {n} && m'.seen == m.seen
    ensures LayerProgress(base, m', started)
  {
    assert m'.results.Keys + m'.inflight.Keys == m.results.Keys + m.inflight.Keys;
  }

  lemma FinishProgress(f: Flow, base: Mem, m: Mem, started: set<Name>, n: Name)
    requires LayerProgress(base, m, started) && RunningOK(f, m.inflight, m.seen) && n in m.inflight
    requires n !in base.results
    ensures LayerProgress(base, FinishStep(f, m, n), started)
  {
    FinishCases(f, m, n);
    MovedProgress(base, m, FinishStep(f, m, n), started, n);
  }

  /** A start, spelled out for the three ways the source can take. */
  lemma StartSkipped(f: Flow, m: Mem, n: Name)
    requires SkippedParent(f.dag, m.results, n)
    ensures StartStep(f, m, n) == Mem(
      m.results[n := Record(Skipped, Null)], m.vars, m.aborted, m.inflight, m.seen[n := Ctx(m.vars, m.results)],
      m.calls[n := 0], m.writes + [RecordWrite(n, Record(Skipped, Null))])
  {
  }

  lemma StartSettled(f: Flow, m: Mem, n: Name, o: Outcome)
    requires !SkippedParent(f.dag, m.results, n) && f.prefix(n, Ctx(m.vars, m.results)) == Settled(o)
    ensures StartStep(f, m, n) == Mem(
      m.results[n := o.record], m.vars, m.aborted || (o.raised && f.terminate(n)), m.inflight,
      m.seen[n := Ctx(m.vars, m.results)], m.calls[n := 0], m.writes + [RecordWrite(n, o.record)])
  {
  }

  lemma StartLaunched(f: Flow, m: Mem, n: Name, l: Launch)
    requires !SkippedParent(f.dag, m.results, n) && f.prefix(n, Ctx(m.vars, m.results)) == Launched(l)
    ensures StartStep(f, m, n) == Mem(
      m.results, m.vars, m.aborted, m.inflight[n := l],
      m.seen[n := Ctx(m.vars, m.results)], m.calls, m.writes + [RunningWrite(n, l)])
  {
  }

  /** The state after `n` has finished with outcome `o` and `made` plugin calls. */
  ghost function Finished(f: Flow, m: Mem, n: Name, o: Outcome, made: nat): Mem {
    Mem(m.results[n := o.record], Published(f, m.vars, n, o.record), m.aborted || (o.raised && f.terminate(n)),
        m.inflight - {n}, m.seen, m.calls[n := made], m.writes + [RecordWrite(n, o.record)])
  }

  lemma FinishSpelled(f: Flow, m: Mem, n: Name, o: Outcome)
    requires n in m.inflight && n in m.seen && o == f.complete(n, m.seen[n], m.inflight[n])
    ensures FinishStep(f, m, n) == Finished(f, m, n, o, f.calls(n, m.seen[n], m.inflight[n]))
  {
  }

  // ---- counters and the ready list ---------------------------------------------------

  datatype Queue = Queue(remaining: map<Name, int>, ready: seq<Name>)

  /** Decrement one counter; a node that reaches zero and is not recorded becomes ready. */
  function Decrement(q: Queue, res: map<Name, Record>, next: Name): Queue {
    if next !in q.remaining then q
    else
      var r := q.remaining[next] - 1;
      Queue(q.remaining[next := r], if r == 0 && next !in res then q.ready + [next] else q.ready)
  }

  function DecrementAll(q: Queue, res: map<Name, Record>, targets: seq<Name>): Queue {
    if targets == [] then q
    else Decrement(DecrementAll(q, res, targets[..|targets| - 1]), res, targets[|targets| - 1])
  }

  /** The rehydration loop's decrement, clamped at zero. */
  function ClampAll(remaining: map<Name, int>, targets: seq<Name>): map<Name, int> {
    if targets == [] then remaining
    else
      var m, next := ClampAll(remaining, targets[..|targets| - 1]), targets[|targets| - 1];
      if next in m then m[next := Max(0, m[next] - 1)] else m
  }

  ghost predicate QueueOK(d: Dag, q: Queue, res: map<Name, Record>, done: set<Name>) {
    Counters(d, q.remaining, done) && ReadyOK(d, q.remaining, res, q.ready)
  }

  /** Decrementing a positive counter, then appending the node if it reaches zero, keeps the list exact. */
  lemma ReadyStep(d: Dag, q: Queue, res: map<Name, Record>, next: Name)
    requires ReadyOK(d, q.remaining, res, q.ready) && next in q.remaining && q.remaining[next] >= 1
    ensures ReadyOK(d, Decrement(q, res, next).remaining, res, Decrement(q, res, next).ready)
  {
    assert next !in q.ready;
  }

  lemma {:induction false} DecrementPrefix(
    d: Dag, q: Queue, res: map<Name, Record>, done: set<Name>, n: Name, k: nat)
    requires KnownEndpoints(d) && n !in done && QueueOK(d, q, res, done) && k <= |Targets(d.edges, n)|
    ensures var q' := DecrementAll(q, res, Targets(d.edges, n)[..k]);
            CountersAt(d, q'.remaining, done, n, k) && ReadyOK(d, q'.remaining, res, q'.ready)
  {
    var ts := Targets(d.edges, n);
    if k == 0 {
      CountersStart(d, q.remaining, done, n);
    } else {
      assert ts[..k][..k - 1] == ts[..k - 1];
      DecrementPrefix(d, q, res, done, n, k - 1);
      var q' := DecrementAll(q, res, ts[..k - 1]);
      CounterStep(d, q'.remaining, done, n, k - 1);
      ReadyStep(d, q', res, ts[k - 1]);
    }
  }

  /** Releasing all the edges of `n` moves the counters from `done` to `done + {n}`. */
  lemma ReleaseKeepsQueue(d: Dag, q: Queue, res: map<Name, Record>, done: set<Name>, n: Name)
    requires KnownEndpoints(d) && n !in done && QueueOK(d, q, res, done)
    ensures QueueOK(d, DecrementAll(q, res, Targets(d.edges, n)), res, done + {n})
  {
    var ts := Targets(d.edges, n);
    DecrementPrefix(d, q, res, done, n, |ts|);
    assert ts[..|ts|] == ts;
    CountersEnd(d, DecrementAll(q, res, ts).remaining, done, n);
  }

  lemma {:induction false} ClampPrefix(d: Dag, remaining: map<Name, int>, done: set<Name>, n: Name, k: nat)
    requires KnownEndpoints(d) && n !in done && Counters(d, remaining, done) && k <= |Targets(d.edges, n)|
    ensures CountersAt(d, ClampAll(remaining, Targets(d.edges, n)[..k]), done, n, k)
  {
    var ts := Targets(d.edges, n);
    if k == 0 {
      CountersStart(d, remaining, done, n);
    } else {
      assert ts[..k][..k - 1] == ts[..k - 1];
      ClampPrefix(d, remaining, done, n, k - 1);
      CounterStep(d, ClampAll(remaining, ts[..k - 1]), done, n, k - 1);
    }
  }

  /** During rehydration the clamp at zero never takes effect: the counters stay exact. */
  lemma ClampNeverClips(d: Dag, remaining: map<Name, int>, done: set<Name>, n: Name)
    requires KnownEndpoints(d) && n !in done && Counters(d, remaining, done)
    ensures Counters(d, ClampAll(remaining, Targets(d.edges, n)), done + {n})
  {
    var ts := Targets(d.edges, n);
    ClampPrefix(d, remaining, done, n, |ts|);
    assert ts[..|ts|] == ts;
    CountersEnd(d, ClampAll(remaining, ts), done, n);
  }

  /** Release the successors of every node of the layer that did not end waiting. */
  function PropagateAll(adj: map<Name, seq<Name>>, q: Queue, res: map<Name, Record>, layer: seq<Name>): Queue {
    if layer == [] then q
    else
      var q', n := PropagateAll(adj, q, res, layer[..|layer| - 1]), layer[|layer| - 1];
      if n in adj && !(n in res && res[n].status == Waiting) then DecrementAll(q', res, adj[n]) else q'
  }

  ghost function ReleasedOf(res: map<Name, Record>, layer: seq<Name>): set<Name> {
    set n | n in layer && n in res && IsTerminal(res[n].status)
  }

  lemma ReleasedOfLast(res: map<Name, Record>, layer: seq<Name>)
    requires layer != [] && layer[|layer| - 1] in res
    ensures var k := |layer| - 1;
            ReleasedOf(res, layer)
            == ReleasedOf(res, layer[..k]) + (if IsTerminal(res[layer[k]].status) then {layer[k]} else {})
  {
    var k := |layer| - 1;
    assert layer == layer[..k] + [layer[k]];
  }

  lemma {:induction false} PropagateKeepsQueue(
    d: Dag, maps: Maps, q: Queue, res: map<Name, Record>, done: set<Name>, layer: seq<Name>)
    requires KnownEndpoints(d) && MapsOf(d, maps) && QueueOK(d, q, res, done) && NoDuplicates(layer)
    requires forall n :: n in layer ==> n !in done && n in res && n in Names(d) && Recordable(res[n])
    ensures QueueOK(d, PropagateAll(maps.adj, q, res, layer), res, done + ReleasedOf(res, layer))
  {
    if layer == [] {
      assert done + ReleasedOf(res, layer) == done;
    } else {
      var k := |layer| - 1;
      var rest, n := layer[..k], layer[k];
      PropagateKeepsQueue(d, maps, q, res, done, rest);
      var done' := done + ReleasedOf(res, rest);
      ReleasedOfLast(res, layer);
      assert n in layer;
      if res[n].status == Waiting {
        assert done + ReleasedOf(res, layer) == done';
      } else {
        assert done + ReleasedOf(res, layer) == done' + {n};
        assert n !in rest;
        ReleaseKeepsQueue(d, PropagateAll(maps.adj, q, res, rest), res, done', n);
      }
    }
  }

  ghost function Elements(s: seq<Name>): set<Name> { set x | x in s }

  lemma ReleasedByLayer(base: Mem, m: Mem, layer: seq<Name>)
    requires LayerProgress(base, m, Elements(layer)) && m.inflight == map[]
    ensures Released(base.results) + ReleasedOf(m.results, layer) == Released(m.results)
  {
    forall n
      ensures n in m.results <==> n in base.results || n in layer
    {
      assert n in m.results.Keys + m.inflight.Keys <==> n in base.results.Keys + Elements(layer);
    }
  }

  // ---- rehydration -----------------------------------------------------------------

  /** A rehydrated success with an output is replayed into the context. */
  lemma ReplaySuccess(
    f: Flow, init: map<Var, Json>, res: map<Name, Record>, vars: map<Var, Json>, n: Name, r: Record)
    requires ValidFlow(f) && DisjointWrites(f) && VarsOK(f, res, init, res, vars)
    requires n in Names(f.dag) && n !in res && r.status == Success && r.output != Null
    ensures VarsOK(f, res[n := r], init, res[n := r], Published(f, vars, n, r))
  {
    var res', vars' := res[n := r], Published(f, vars, n, r);
    forall m
      ensures Publishes(res', res', m) <==> m == n || Publishes(res, res, m)
    {
    }
    forall m, v | m in Names(f.dag) && Publishes(res', res', m) && v in Writes(f, m)
      ensures SameAt(vars', f.bindings(m, res'[m].output), v)
    {
      if m != n {
        assert v !in Writes(f, n);
        assert SameAt(vars, f.bindings(m, res[m].output), v);
      }
    }
    forall v | Unpublished(f, res', res', v)
      ensures SameAt(vars', init, v)
    {
      assert Unpublished(f, res, res, v);
      assert Publishes(res', res', n);
    }
  }

  /** Any other rehydrated row leaves the context as it is. */
  lemma ReplayNothing(
    f: Flow, init: map<Var, Json>, res: map<Name, Record>, vars: map<Var, Json>, n: Name, r: Record)
    requires VarsOK(f, res, init, res, vars) && n !in res
    requires r.status != Success || r.output == Null
    ensures VarsOK(f, res[n := r], init, res[n := r], vars)
  {
    var res' := res[n := r];
    forall m
      ensures Publishes(res', res', m) <==> Publishes(res, res, m)
    {
    }
    forall v | Unpublished(f, res', res', v)
      ensures SameAt(vars, init, v)
    {
      assert Unpublished(f, res, res, v);
    }
  }

  /** The state after rehydration satisfies the invariant of a job. */
  lemma HydratedInvariant(f: Flow, init: map<Var, Json>, m: Mem)
    requires m == Mem(m.results, m.vars, false, map[], map[], map[], [])
    requires AllRecordable(m.results) && m.results.Keys <= Names(f.dag)
    requires DisjointWrites(f) ==> VarsOK(f, m.results, init, m.results, m.vars)
    requires Untouched(f, init, m.vars)
    ensures Invariant(f, m.results, init, m)
  {
  }

  /** What rehydration changes. */
  datatype Restored = Restored(remaining: map<Name, int>, results: map<Name, Record>, vars: map<Var, Json>)

  ghost function HydrateOne(f: Flow, s: Restored, n: Name, r: Record): Restored {
    Restored(
      if r.status == Waiting then s.remaining else ClampAll(s.remaining, Targets(f.dag.edges, n)),
      s.results[n := r],
      if r.status == Success && r.output != Null then Published(f, s.vars, n, r) else s.vars)
  }

  predicate IsHydrated(d: Dag, initial: map<Name, Record>, n: Name) {
    n in initial && n in Names(d) && initial[n].status in {Success, Failed, Skipped, Waiting}
  }

  ghost function HydrateAll(f: Flow, s: Restored, initial: map<Name, Record>, order: seq<Name>): Restored {
    if order == [] then s
    else
      var s', n := HydrateAll(f, s, initial, order[..|order| - 1]), order[|order| - 1];
      if IsHydrated(f.dag, initial, n) then HydrateOne(f, s', n, initial[n]) else s'
  }

  lemma HydrateAllStep(f: Flow, s: Restored, initial: map<Name, Record>, order: seq<Name>, n: Name)
    ensures var s' := HydrateAll(f, s, initial, order);
            HydrateAll(f, s, initial, order + [n])
            == if IsHydrated(f.dag, initial, n) then HydrateOne(f, s', n, initial[n]) else s'
  {
    assert (order + [n])[..|order|] == order;
  }

  ghost predicate Enumerates(order: seq<Name>, s: set<Name>) {
    NoDuplicates(order) && forall n :: n in order <==> n in s
  }

  /** Rehydration so far: counters exact for the released rows, context consistent with them. */
  ghost predicate HydratedSoFar(f: Flow, init: map<Var, Json>, s: Restored) {
    && KnownEndpoints(f.dag)
    && Counters(f.dag, s.remaining, Released(s.results))
    && AllRecordable(s.results) && s.results.Keys <= Names(f.dag)
    && Untouched(f, init, s.vars)
    && (DisjointWrites(f) ==> VarsOK(f, s.results, init, s.results, s.vars))
  }

  lemma HydrateStep(f: Flow, init: map<Var, Json>, s: Restored, n: Name, r: Record)
    requires ValidFlow(f) && HydratedSoFar(f, init, s)
    requires n in Names(f.dag) && n !in s.results && Recordable(r)
    ensures HydratedSoFar(f, init, HydrateOne(f, s, n, r))
  {
    var res' := s.results[n := r];
    if r.status == Waiting {
      assert Released(res') == Released(s.results);
    } else {
      assert Released(res') == Released(s.results) + {n};
      ClampNeverClips(f.dag, s.remaining, Released(s.results), n);
    }
    PublishedUntouched(f, init, s.vars, n, r);
    if DisjointWrites(f) {
      if r.status == Success && r.output != Null {
        ReplaySuccess(f, init, s.results, s.vars, n, r);
      } else {
        ReplayNothing(f, init, s.results, s.vars, n, r);
      }
    }
  }

  lemma {:induction false} HydrateAllOK(
    f: Flow, init: map<Var, Json>, s: Restored, initial: map<Name, Record>, order: seq<Name>)
    requires ValidFlow(f) && HydratedSoFar(f, init, s) && s.results == map[] && NoDuplicates(order)
    ensures var s' := HydrateAll(f, s, initial, order);
            && HydratedSoFar(f, init, s')
            && (forall n :: n in s'.results <==> n in order && IsHydrated(f.dag, initial, n))
            && (forall n :: n in s'.results ==> s'.results[n] == initial[n])
  {
    if order != [] {
      var k := |order| - 1;
      var rest, n := order[..k], order[k];
      assert order == rest + [n];
      HydrateAllOK(f, init, s, initial, rest);
      if IsHydrated(f.dag, initial, n) {
        HydrateStep(f, init, HydrateAll(f, s, initial, rest), n, initial[n]);
      }
    }
  }

  /** However the rows are enumerated, the job takes over exactly its terminal and waiting rows. */
  lemma HydratedExactly(
    f: Flow, init: map<Var, Json>, s: Restored, initial: map<Name, Record>, order: seq<Name>)
    requires ValidFlow(f) && KnownEndpoints(f.dag) && Counters(f.dag, s.remaining, {})
    requires s.results == map[] && s.vars == init && Enumerates(order, initial.Keys)
    ensures HydratedSoFar(f, init, HydrateAll(f, s, initial, order))
    ensures HydrateAll(f, s, initial, order).results == Hydrated(f.dag, initial)
  {
    assert Released(map[]) == {};
    HydrateAllOK(f, init, s, initial, order);
  }

  /** The unrecorded nodes with a zero counter, in declaration order. */
  function ReadyNames(nodes: seq<NodeDef>, remaining: map<Name, int>, res: map<Name, Record>): seq<Name> {
    if nodes == [] then []
    else
      var rest, n := ReadyNames(nodes[..|nodes| - 1], remaining, res), nodes[|nodes| - 1].name;
      if n !in res && n in remaining && remaining[n] == 0 then rest + [n] else rest
  }

  lemma {:induction false} ReadyNamesExact(nodes: seq<NodeDef>, remaining: map<Name, int>, res: map<Name, Record>)
    requires UniqueNames(nodes)
    ensures NoDuplicates(ReadyNames(nodes, remaining, res))
    ensures forall x :: x in ReadyNames(nodes, remaining, res) <==>
              x in NameSeq(nodes) && x !in res && x in remaining && remaining[x] == 0
  {
    if nodes != [] {
      var k := |nodes| - 1;
      ReadyNamesExact(nodes[..k], remaining, res);
      assert NameSeq(nodes) == NameSeq(nodes[..k]) + [nodes[k].name];
      assert nodes[k].name !in NameSeq(nodes[..k]);
    }
  }

  lemma InitialReadyOK(d: Dag, remaining: map<Name, int>, res: map<Name, Record>)
    requires UniqueNames(d.nodes) && remaining.Keys == Names(d)
    ensures ReadyOK(d, remaining, res, ReadyNames(d.nodes, remaining, res))
  {
    ReadyNamesExact(d.nodes, remaining, res);
    NameSeqExact(d);
  }

  // ---- reconciliation --------------------------------------------------------------

  function Completed(d: Dag, res: map<Name, Record>): map<Name, Record> {
    map n | n in Names(d) :: if n in res then res[n] else UNREACHED
  }

  datatype Reconciled = Reconciled(results: map<Name, Record>, writes: seq<Write>)

  function ReconcileAll(nodes: seq<NodeDef>, s: Reconciled): Reconciled {
    if nodes == [] then s
    else
      var s', n := ReconcileAll(nodes[..|nodes| - 1], s), nodes[|nodes| - 1].name;
      if n in s'.results then s'
      else Reconciled(s'.results[n := UNREACHED], s'.writes + [RecordWrite(n, UNREACHED)])
  }

  lemma AppendForAll(log: seq<Write>, w: Write)
    ensures forall n :: WritesOf(log + [w], n) == WritesOf(log, n) + (if w.name == n then [w.partial] else [])
  {
    forall n
      ensures WritesOf(log + [w], n) == WritesOf(log, n) + (if w.name == n then [w.partial] else [])
    {
      WritesOfAppend(log, w, n);
    }
  }

  lemma {:induction false} ReconcileWrites(nodes: seq<NodeDef>, s: Reconciled)
    ensures var s' := ReconcileAll(nodes, s);
            && (forall x :: x in s'.results <==> x in s.results || x in NameSeq(nodes))
            && (forall x :: x in s'.results ==> s'.results[x] == if x in s.results then s.results[x] else UNREACHED)
            && (forall x :: WritesOf(s'.writes, x) == WritesOf(s.writes, x)
                  + (if x in s'.results && x !in s.results then [RecordWrite(x, UNREACHED).partial] else []))
  {
    if nodes != [] {
      var k := |nodes| - 1;
      var n := nodes[k].name;
      ReconcileWrites(nodes[..k], s);
      assert NameSeq(nodes) == NameSeq(nodes[..k]) + [n];
      AppendForAll(ReconcileAll(nodes[..k], s).writes, RecordWrite(n, UNREACHED));
    }
  }

  /** Reconciliation completes the results and issues one PENDING write per node left over. */
  lemma ReconcileExact(d: Dag, res: map<Name, Record>, log: seq<Write>)
    requires res.Keys <= Names(d)
    ensures var s' := ReconcileAll(d.nodes, Reconciled(res, log));
            && s'.results == Completed(d, res)
            && forall n :: WritesOf(s'.writes, n) == WritesOf(log, n)
                 + (if n in Names(d) && n !in res then [RecordWrite(n, UNREACHED).partial] else [])
  {
    ReconcileWrites(d.nodes, Reconciled(res, log));
    NameSeqExact(d);
  }

  /** The writes of a whole job, node by node: nothing for a rehydrated row; one PENDING write for a
      node that was not reached; otherwise a RUNNING write if the plugin was called, then the outcome. */
  ghost function JobWrites(
    f: Flow, hyd: map<Name, Record>, res: map<Name, Record>, seen: map<Name, Ctx>, n: Name): seq<Partial>
  {
    if n in hyd || n !in res then []
    else
      (if n in seen && Launches(f, n, seen[n]) then [RunningWrite(n, f.prefix(n, seen[n]).launch).partial] else [])
      + [RecordWrite(n, res[n]).partial]
  }

  lemma CompletedExplained(f: Flow, hyd: map<Name, Record>, init: map<Var, Json>, m: Mem, n: Name)
    requires CoreInvariant(f, hyd, init, m) && m.inflight == map[]
    requires n in Names(f.dag) && n !in hyd
    ensures var res := Completed(f.dag, m.results);
            res[n] == UNREACHED || Explained(f, hyd, init, res, m.seen, n)
  {
    var res := Completed(f.dag, m.results);
    if n in m.results {
      assert n in m.seen;
      assert Snapshot(f, hyd, init, m.results, n, m.seen[n]);
      SubMapTrans(m.seen[n].nodes, m.results, res);
    }
  }

  lemma CompletedIsPartialRun(f: Flow, hyd: map<Name, Record>, init: map<Var, Json>, m: Mem)
    requires CoreInvariant(f, hyd, init, m) && m.inflight == map[]
    ensures PartialRun(f, hyd, init, Completed(f.dag, m.results), m.seen)
  {
    var res := Completed(f.dag, m.results);
    forall n | n in res && n !in hyd
      ensures res[n] == UNREACHED || Explained(f, hyd, init, res, m.seen, n)
    {
      CompletedExplained(f, hyd, init, m, n);
    }
    SubMapTrans(hyd, m.results, res);
    forall n | n in hyd
      ensures Recordable(hyd[n])
    {
      assert n in m.results;
    }
  }

  lemma CompletedVars(f: Flow, hyd: map<Name, Record>, init: map<Var, Json>, m: Mem)
    requires DisjointWrites(f) && VarsOK(f, hyd, init, m.results, m.vars) && m.results.Keys <= Names(f.dag)
    ensures VarsOK(f, hyd, init, Completed(f.dag, m.results), m.vars)
  {
    var res := Completed(f.dag, m.results);
    forall n
      ensures Publishes(hyd, res, n) <==> Publishes(hyd, m.results, n)
    {
    }
    forall v | Unpublished(f, hyd, res, v)
      ensures SameAt(m.vars, init, v)
    {
      assert Unpublished(f, hyd, m.results, v);
    }
  }

  /** With nothing ready, an unrecorded node is blocked. */
  lemma UnrecordedIsBlocked(d: Dag, remaining: map<Name, int>, res: map<Name, Record>, n: Name)
    requires KnownEndpoints(d) && n in Names(d) && n !in res && AllRecordable(res)
    requires Counters(d, remaining, Released(res)) && ReadyOK(d, remaining, res, [])
    ensures Blocked(d, Completed(d, res), n)
  {
    assert n !in [];
    var p := NotReady(d, remaining, res, n);
    assert IsParent(d, p, n) && p in Completed(d, res);
  }

  /** With the ready list empty, every node left over is blocked. */
  lemma CompletedIsCompleteRun(
    f: Flow, hyd: map<Name, Record>, init: map<Var, Json>, m: Mem, remaining: map<Name, int>)
    requires KnownEndpoints(f.dag) && CoreInvariant(f, hyd, init, m) && m.inflight == map[]
    requires Counters(f.dag, remaining, Released(m.results)) && ReadyOK(f.dag, remaining, m.results, [])
    ensures CompleteRun(f, hyd, init, Completed(f.dag, m.results), m.seen)
  {
    var res := Completed(f.dag, m.results);
    CompletedIsPartialRun(f, hyd, init, m);
    forall n | n in res && n !in hyd && res[n].status == Pending
      ensures Blocked(f.dag, res, n)
    {
      UnrecordedIsBlocked(f.dag, remaining, m.results, n);
    }
  }

  /** A job that was aborted in its last layer. */
  ghost predicate AbortedIn(f: Flow, m: Mem, before: Mem, last: set<Name>) {
    && LayerProgress(before, m, last)
    && !before.aborted && AbortInvariant(f, before)
    && last !! before.results.Keys
  }

  /** The abort discipline. Let `last` be the layer in which the job was aborted and `before` what had
      been recorded when that layer started. Every node of `last` was recorded; the aborting failures
      are all in `last`; nothing outside `before` and `last` ever started, and it all ended pending. */
  ghost predicate AbortDiscipline(
    f: Flow, hyd: map<Name, Record>, res: map<Name, Record>, seen: map<Name, Ctx>,
    before: map<Name, Record>, last: set<Name>)
  {
    && (exists n :: AbortsAt(f, hyd, res, seen, n))
    && (forall n :: AbortsAt(f, hyd, res, seen, n) ==> n in last)
    && (forall n :: n in last ==> n !in before && n in seen && SubMap(before, seen[n].nodes))
    && seen.Keys + hyd.Keys == before.Keys + last
    && (forall n :: n in res ==> (res[n] == UNREACHED <==> n !in seen && n !in hyd))
  }

  lemma UnreachedIffNotSeen(f: Flow, hyd: map<Name, Record>, m: Mem, n: Name)
    requires KeysOK(f, hyd, m) && m.inflight == map[] && AllRecordable(m.results) && n in Names(f.dag)
    ensures Completed(f.dag, m.results)[n] == UNREACHED <==> n !in m.seen && n !in hyd
  {
    if n in m.results {
      assert Recordable(m.results[n]);
    }
  }

  lemma NoAbortBefore(f: Flow, m: Mem, before: Mem, last: set<Name>, n: Name)
    requires AbortedIn(f, m, before, last) && before.seen.Keys <= before.results.Keys
    requires n in m.seen && n !in last
    ensures !Aborting(f, n, m.seen[n])
  {
    assert n in before.seen && m.seen[n] == before.seen[n];
  }

  lemma AbortIsRecorded(f: Flow, hyd: map<Name, Record>, m: Mem)
    requires KeysOK(f, hyd, m) && m.inflight == map[] && AllRecordable(m.results)
    ensures SomeAbort(f, m.results, m.seen) <==>
            exists n :: AbortsAt(f, hyd, Completed(f.dag, m.results), m.seen, n)
  {
    var res := Completed(f.dag, m.results);
    if SomeAbort(f, m.results, m.seen) {
      var x :| x in m.seen && x in m.results && Aborting(f, x, m.seen[x]);
      assert Recordable(m.results[x]);
      assert AbortsAt(f, hyd, res, m.seen, x);
    }
    if x :| AbortsAt(f, hyd, res, m.seen, x) {
      assert x in m.seen && x in m.results && Aborting(f, x, m.seen[x]);
    }
  }

  /** The nodes of the last layer had not been recorded before it, and saw all that had been. */
  lemma LastLayer(f: Flow, hyd: map<Name, Record>, m: Mem, before: Mem, last: set<Name>)
    requires AbortedIn(f, m, before, last) && KeysOK(f, hyd, before) && before.inflight == map[]
    ensures forall n :: n in last ==> n !in before.results && n in m.seen && SubMap(before.results, m.seen[n].nodes)
    ensures m.seen.Keys + hyd.Keys == before.results.Keys + last
  {
  }

  lemma AbortsInLast(f: Flow, hyd: map<Name, Record>, m: Mem, before: Mem, last: set<Name>)
    requires AbortedIn(f, m, before, last) && before.seen.Keys <= before.results.Keys
    ensures forall n :: AbortsAt(f, hyd, Completed(f.dag, m.results), m.seen, n) ==> n in last
  {
    forall n | AbortsAt(f, hyd, Completed(f.dag, m.results), m.seen, n)
      ensures n in last
    {
      if n !in last {
        NoAbortBefore(f, m, before, last, n);
      }
    }
  }

  lemma AbortedFollowsDiscipline(f: Flow, hyd: map<Name, Record>, m: Mem, before: Mem, last: set<Name>)
    requires KeysOK(f, hyd, m) && AllRecordable(m.results) && AbortInvariant(f, m)
    requires m.inflight == map[] && m.aborted
    requires AbortedIn(f, m, before, last) && KeysOK(f, hyd, before) && before.inflight == map[]
    ensures AbortDiscipline(f, hyd, Completed(f.dag, m.results), m.seen, before.results, last)
  {
    var res := Completed(f.dag, m.results);
    AbortIsRecorded(f, hyd, m);
    AbortsInLast(f, hyd, m, before, last);
    LastLayer(f, hyd, m, before, last);
    forall n | n in res
      ensures res[n] == UNREACHED <==> n !in m.seen && n !in hyd
    {
      UnreachedIffNotSeen(f, hyd, m, n);
    }
  }

  // ---- folding the steps of a layer ------------------------------------------------

  /** The layer's nodes start in order. */
  ghost function StartAll(f: Flow, m: Mem, layer: seq<Name>): Mem {
    if layer == [] then m
    else StartStep(f, StartAll(f, m, layer[..|layer| - 1]), layer[|layer| - 1])
  }

  /** Running nodes finish in the order given. */
  ghost function FinishAll(f: Flow, m: Mem, order: seq<Name>): Mem {
    if order == [] then m
    else
      var m', n := FinishAll(f, m, order[..|order| - 1]), order[|order| - 1];
      if n in m'.inflight && n in m'.seen then FinishStep(f, m', n) else m'
  }

  ghost predicate LayerReady(f: Flow, m: Mem, layer: seq<Name>) {
    && NoDuplicates(layer)
    && forall n :: n in layer ==> n in Names(f.dag) && n !in m.results && ParentsSettled(f.dag, m.results, n)
  }

  lemma LayerReadyPrefix(f: Flow, m: Mem, layer: seq<Name>, k: nat)
    requires LayerReady(f, m, layer) && k < |layer|
    ensures LayerReady(f, m, layer[..k]) && layer[k] !in Elements(layer[..k])
    ensures layer[k] in Names(f.dag) && layer[k] !in m.results && ParentsSettled(f.dag, m.results, layer[k])
    ensures Elements(layer[..k + 1]) == Elements(layer[..k]) + {layer[k]}
  {
    assert layer[k] in layer;
    assert layer[..k + 1] == layer[..k] + [layer[k]];
  }

  lemma LayerNodeCanStart(f: Flow, hyd: map<Name, Record>, base: Mem, m: Mem, started: set<Name>, n: Name)
    requires KeysOK(f, hyd, base) && base.inflight == map[] && LayerProgress(base, m, started)
    requires n in Names(f.dag) && n !in base.results && n !in started && ParentsSettled(f.dag, base.results, n)
    ensures CanStart(f, m, n) && n !in base.seen
  {
    SettledGrows(f.dag, base.results, m.results);
    assert n !in m.results.Keys + m.inflight.Keys;
  }

  lemma StartOneMore(
    f: Flow, hyd: map<Name, Record>, init: map<Var, Json>, base: Mem, m: Mem, started: set<Name>, n: Name)
    requires ValidFlow(f) && KeysOK(f, hyd, base) && base.inflight == map[]
    requires Invariant(f, hyd, init, m) && LayerProgress(base, m, started)
    requires n in Names(f.dag) && n !in base.results && n !in started && ParentsSettled(f.dag, base.results, n)
    ensures Invariant(f, hyd, init, StartStep(f, m, n))
    ensures LayerProgress(base, StartStep(f, m, n), started + {n})
  {
    LayerNodeCanStart(f, hyd, base, m, started, n);
    StartKeeps(f, hyd, init, m, n);
    StartProgress(f, base, m, started, n);
  }

  lemma NothingStarted(m: Mem)
    requires m.inflight == map[]
    ensures LayerProgress(m, m, Elements([]))
  {
    assert Elements([]) == {};
  }

  lemma StartLast(f: Flow, hyd: map<Name, Record>, init: map<Var, Json>, m: Mem, layer: seq<Name>)
    requires ValidFlow(f) && KeysOK(f, hyd, m) && m.inflight == map[] && LayerReady(f, m, layer) && layer != []
    requires var m' := StartAll(f, m, layer[..|layer| - 1]);
             Invariant(f, hyd, init, m') && LayerProgress(m, m', Elements(layer[..|layer| - 1]))
    ensures Invariant(f, hyd, init, StartAll(f, m, layer))
    ensures LayerProgress(m, StartAll(f, m, layer), Elements(layer))
  {
    var k := |layer| - 1;
    assert layer[..k + 1] == layer;
    LayerReadyPrefix(f, m, layer, k);
    StartOneMore(f, hyd, init, m, StartAll(f, m, layer[..k]), Elements(layer[..k]), layer[k]);
  }

  lemma {:induction false} StartAllKeeps(
    f: Flow, hyd: map<Name, Record>, init: map<Var, Json>, m: Mem, layer: seq<Name>)
    requires ValidFlow(f) && Invariant(f, hyd, init, m) && m.inflight == map[] && LayerReady(f, m, layer)
    ensures Invariant(f, hyd, init, StartAll(f, m, layer))
    ensures LayerProgress(m, StartAll(f, m, layer), Elements(layer))
  {
    if layer == [] {
      NothingStarted(m);
    } else {
      var k := |layer| - 1;
      LayerReadyPrefix(f, m, layer, k);
      StartAllKeeps(f, hyd, init, m, layer[..k]);
      StartLast(f, hyd, init, m, layer);
    }
  }

  lemma NotRecordedBefore(f: Flow, hyd: map<Name, Record>, base: Mem, m: Mem, started: set<Name>, n: Name)
    requires LayerProgress(base, m, started) && KeysOK(f, hyd, m) && n in m.inflight
    ensures n !in base.results
  {
  }

  lemma {:induction false} FinishAllKeeps(
    f: Flow, hyd: map<Name, Record>, init: map<Var, Json>, base: Mem, m: Mem, started: set<Name>, order: seq<Name>)
    requires ValidFlow(f) && Invariant(f, hyd, init, m) && LayerProgress(base, m, started)
    ensures Invariant(f, hyd, init, FinishAll(f, m, order))
    ensures LayerProgress(base, FinishAll(f, m, order), started)
  {
    if order != [] {
      var k := |order| - 1;
      var n := order[k];
      FinishAllKeeps(f, hyd, init, base, m, started, order[..k]);
      var m' := FinishAll(f, m, order[..k]);
      if n in m'.inflight {
        NotRecordedBefore(f, hyd, base, m', started, n);
        FinishKeeps(f, hyd, init, m', n);
        FinishProgress(f, base, m', started, n);
      }
    }
  }

  lemma FinishAllStep(f: Flow, m: Mem, order: seq<Name>, n: Name)
    requires n in FinishAll(f, m, order).inflight && n in FinishAll(f, m, order).seen
    ensures FinishAll(f, m, order + [n]) == FinishStep(f, FinishAll(f, m, order), n)
  {
    assert (order + [n])[..|order|] == order;
  }

  // ---- the scheduler as a fold over rounds --------------------------------------------

  datatype Sched = Sched(mem: Mem, queue: Queue)

  /** What holds each time the scheduler loop tests its condition: the invariant of the job, nothing
      in flight and, unless aborted, exact counters and an exact ready list. */
  ghost predicate AtBoundary(f: Flow, hyd: map<Name, Record>, init: map<Var, Json>, s: Sched) {
    && Invariant(f, hyd, init, s.mem)
    && s.mem.inflight == map[]
    && (!s.mem.aborted ==> QueueOK(f.dag, s.queue, s.mem.results, Released(s.mem.results)))
  }

  ghost function LayerDone(f: Flow, s: Sched, order: seq<Name>): Mem {
    FinishAll(f, StartAll(f, s.mem, s.queue.ready), order)
  }

  ghost predicate RoundDone(f: Flow, s: Sched, order: seq<Name>) {
    LayerDone(f, s, order).inflight == map[]
  }

  /** One turn of the loop, the plugin calls of the layer finishing in the given order. */
  ghost function Round(f: Flow, maps: Maps, s: Sched, order: seq<Name>): Sched {
    var m := LayerDone(f, s, order);
    var q := Queue(s.queue.remaining, []);
    Sched(m, if m.aborted then q else PropagateAll(maps.adj, q, m.results, s.queue.ready))
  }

  ghost function Rounds(f: Flow, maps: Maps, s: Sched, rounds: seq<seq<Name>>): Sched {
    if rounds == [] then s
    else Round(f, maps, Rounds(f, maps, s, rounds[..|rounds| - 1]), rounds[|rounds| - 1])
  }

  /** Each round was entered by the loop condition and ran to its end. */
  ghost predicate RoundsRun(f: Flow, maps: Maps, s: Sched, rounds: seq<seq<Name>>) {
    rounds == [] ||
    (var s' := Rounds(f, maps, s, rounds[..|rounds| - 1]);
     && RoundsRun(f, maps, s, rounds[..|rounds| - 1])
     && s'.queue.ready != [] && !s'.mem.aborted && RoundDone(f, s', rounds[|rounds| - 1]))
  }

  lemma RoundsSnoc(f: Flow, maps: Maps, s: Sched, rounds: seq<seq<Name>>, order: seq<Name>)
    ensures Rounds(f, maps, s, rounds + [order]) == Round(f, maps, Rounds(f, maps, s, rounds), order)
    ensures var s' := Rounds(f, maps, s, rounds);
            RoundsRun(f, maps, s, rounds + [order]) <==>
              RoundsRun(f, maps, s, rounds) && s'.queue.ready != [] && !s'.mem.aborted && RoundDone(f, s', order)
  {
    assert (rounds + [order])[..|rounds|] == rounds;
  }

  /** What one turn of the loop needs of its state. */
  ghost predicate RoundReady(f: Flow, maps: Maps, s: Sched) {
    && s.mem.inflight == map[] && !s.mem.aborted
    && (forall n :: n in s.queue.ready ==> n in Names(f.dag) && n in maps.adj)
    && (forall n, t :: n in maps.adj && t in maps.adj[n] ==> t in s.queue.remaining)
    && (var m := StartAll(f, s.mem, s.queue.ready);
        forall n :: n in m.inflight ==> n in Names(f.dag) && n in m.seen)
    && (forall order :: RoundDone(f, s, order) ==>
          forall n :: n in s.queue.ready ==> n in LayerDone(f, s, order).results)
  }

  /** The ready list is a layer that may start. */
  lemma ReadyLayer(f: Flow, m: Mem, q: Queue)
    requires QueueOK(f.dag, q, m.results, Released(m.results))
    ensures LayerReady(f, m, q.ready)
  {
    forall n | n in q.ready
      ensures ParentsSettled(f.dag, m.results, n)
    {
      ReadyCanStart(f.dag, q.remaining, m.results, n);
    }
  }

  lemma LayerKeeps(f: Flow, hyd: map<Name, Record>, init: map<Var, Json>, s: Sched, order: seq<Name>)
    requires ValidFlow(f) && AtBoundary(f, hyd, init, s) && !s.mem.aborted
    ensures Invariant(f, hyd, init, LayerDone(f, s, order))
    ensures LayerProgress(s.mem, LayerDone(f, s, order), Elements(s.queue.ready))
  {
    ReadyLayer(f, s.mem, s.queue);
    StartAllKeeps(f, hyd, init, s.mem, s.queue.ready);
    FinishAllKeeps(f, hyd, init, s.mem, StartAll(f, s.mem, s.queue.ready), Elements(s.queue.ready), order);
  }

  lemma HydrateTargets(d: Dag, maps: Maps, remaining: map<Name, int>, n: Name)
    requires KnownEndpoints(d) && MapsOf(d, maps) && remaining.Keys == Names(d) && n in Names(d)
    ensures n in maps.adj && maps.adj[n] == Targets(d.edges, n) && forall t :: t in maps.adj[n] ==> t in remaining
  {
    forall t | t in maps.adj[n]
      ensures t in remaining
    {
      TargetsExact(d.edges, n, t);
      assert Edge(n, t) in d.edges;
    }
  }

  lemma EmptyReady(d: Dag, base: Mem, m: Mem, layer: seq<Name>, remaining: map<Name, int>)
    requires ReadyOK(d, remaining, base.results, layer)
    requires LayerProgress(base, m, Elements(layer)) && m.inflight == map[]
    ensures ReadyOK(d, remaining, m.results, [])
  {
    forall x | x in Names(d) && x !in m.results
      ensures remaining[x] != 0
    {
      assert x !in base.results.Keys + Elements(layer);
    }
  }

  /** Once a layer is recorded its nodes leave the ready list, and propagation restores the exact list. */
  lemma AfterLayer(
    f: Flow, hyd: map<Name, Record>, init: map<Var, Json>, base: Mem, m: Mem, layer: seq<Name>,
    maps: Maps, remaining: map<Name, int>)
    requires KnownEndpoints(f.dag) && MapsOf(f.dag, maps) && CoreInvariant(f, hyd, init, m) && m.inflight == map[]
    requires QueueOK(f.dag, Queue(remaining, layer), base.results, Released(base.results))
    requires LayerProgress(base, m, Elements(layer))
    ensures forall n :: n in layer ==> n in maps.adj && n in m.results
    ensures forall n, t :: n in maps.adj && t in maps.adj[n] ==> t in remaining
    ensures QueueOK(f.dag, PropagateAll(maps.adj, Queue(remaining, []), m.results, layer), m.results,
                    Released(m.results))
  {
    forall n | n in layer
      ensures n in m.results && n !in Released(base.results) && Recordable(m.results[n])
    {
      assert n in Elements(layer);
      assert n in m.results.Keys + m.inflight.Keys;
    }
    forall n, t | n in maps.adj && t in maps.adj[n]
      ensures t in remaining
    {
      HydrateTargets(f.dag, maps, remaining, n);
    }
    EmptyReady(f.dag, base, m, layer, remaining);
    PropagateKeepsQueue(f.dag, maps, Queue(remaining, []), m.results, Released(base.results), layer);
    ReleasedByLayer(base, m, layer);
  }

  lemma RoundKeeps(f: Flow, hyd: map<Name, Record>, init: map<Var, Json>, maps: Maps, s: Sched, order: seq<Name>)
    requires ValidFlow(f) && KnownEndpoints(f.dag) && MapsOf(f.dag, maps)
    requires AtBoundary(f, hyd, init, s) && !s.mem.aborted && RoundDone(f, s, order)
    ensures AtBoundary(f, hyd, init, Round(f, maps, s, order))
    ensures LayerProgress(s.mem, Round(f, maps, s, order).mem, Elements(s.queue.ready))
  {
    var m := LayerDone(f, s, order);
    LayerKeeps(f, hyd, init, s, order);
    AfterLayer(f, hyd, init, s.mem, m, s.queue.ready, maps, s.queue.remaining);
  }

  lemma {:induction false} RoundsKeep(
    f: Flow, hyd: map<Name, Record>, init: map<Var, Json>, maps: Maps, s: Sched, rounds: seq<seq<Name>>)
    requires ValidFlow(f) && KnownEndpoints(f.dag) && MapsOf(f.dag, maps)
    requires AtBoundary(f, hyd, init, s) && RoundsRun(f, maps, s, rounds)
    ensures AtBoundary(f, hyd, init, Rounds(f, maps, s, rounds))
  {
    if rounds != [] {
      var k := |rounds| - 1;
      RoundsKeep(f, hyd, init, maps, s, rounds[..k]);
      RoundKeeps(f, hyd, init, maps, Rounds(f, maps, s, rounds[..k]), rounds[k]);
    }
  }

  lemma StartedAreDeclared(f: Flow, hyd: map<Name, Record>, m: Mem)
    requires KeysOK(f, hyd, m)
    ensures forall n :: n in m.inflight ==> n in Names(f.dag) && n in m.seen
  {
  }

  lemma LayerRecorded(f: Flow, hyd: map<Name, Record>, init: map<Var, Json>, s: Sched, order: seq<Name>)
    requires ValidFlow(f) && AtBoundary(f, hyd, init, s) && !s.mem.aborted && RoundDone(f, s, order)
    ensures forall n :: n in s.queue.ready ==> n in LayerDone(f, s, order).results
  {
    LayerKeeps(f, hyd, init, s, order);
    var m := LayerDone(f, s, order);
    forall n | n in s.queue.ready
      ensures n in m.results
    {
      assert n in Elements(s.queue.ready);
      assert n in m.results.Keys + m.inflight.Keys;
    }
  }

  lemma RoundProgress(f: Flow, hyd: map<Name, Record>, init: map<Var, Json>, maps: Maps, s: Sched)
    requires ValidFlow(f) && KnownEndpoints(f.dag) && MapsOf(f.dag, maps)
    requires AtBoundary(f, hyd, init, s) && !s.mem.aborted
    ensures RoundReady(f, maps, s)
  {
    ReadyLayer(f, s.mem, s.queue);
    StartAllKeeps(f, hyd, init, s.mem, s.queue.ready);
    StartedAreDeclared(f, hyd, StartAll(f, s.mem, s.queue.ready));
    forall n, t | n in maps.adj && t in maps.adj[n]
      ensures t in s.queue.remaining
    {
      HydrateTargets(f.dag, maps, s.queue.remaining, n);
    }
    forall order | RoundDone(f, s, order)
      ensures forall n :: n in s.queue.ready ==> n in LayerDone(f, s, order).results
    {
      LayerRecorded(f, hyd, init, s, order);
    }
  }

  lemma LayerGrows(base: Mem, m: Mem, layer: seq<Name>)
    requires LayerProgress(base, m, Elements(layer)) && m.inflight == map[]
    requires layer != [] && forall n :: n in layer ==> n !in base.results
    ensures m.results.Keys > base.results.Keys
    ensures forall n :: n in layer ==> n in m.results
  {
    assert layer[0] in layer;
    forall n | n in layer
      ensures n in m.results
    {
      assert n in Elements(layer);
      assert n in m.results.Keys + m.inflight.Keys;
    }
  }

  /** Each round records at least one new node: the loop terminates. */
  lemma RoundGrows(f: Flow, hyd: map<Name, Record>, init: map<Var, Json>, maps: Maps, s: Sched, order: seq<Name>)
    requires ValidFlow(f) && AtBoundary(f, hyd, init, s) && !s.mem.aborted && RoundDone(f, s, order)
    requires s.queue.ready != []
    ensures Round(f, maps, s, order).mem.results.Keys > s.mem.results.Keys
    ensures Round(f, maps, s, order).mem.results.Keys <= Names(f.dag)
  {
    LayerKeeps(f, hyd, init, s, order);
    LayerGrows(s.mem, LayerDone(f, s, order), s.queue.ready);
  }

  /** After rehydration and the first ready list the scheduler loop may start. */
  lemma PreparedBoundary(f: Flow, init: map<Var, Json>, s: Sched)
    requires s.mem == Mem(s.mem.results, s.mem.vars, false, map[], map[], map[], [])
    requires HydratedSoFar(f, init, Restored(s.queue.remaining, s.mem.results, s.mem.vars))
    requires s.queue.ready == ReadyNames(f.dag.nodes, s.queue.remaining, s.mem.results) && UniqueNames(f.dag.nodes)
    ensures AtBoundary(f, s.mem.results, init, s)
  {
    InitialReadyOK(f.dag, s.queue.remaining, s.mem.results);
    HydratedInvariant(f, init, s.mem);
  }

  lemma HydratedKeys(f: Flow, init: map<Var, Json>, s: Restored, initial: map<Name, Record>, order: seq<Name>)
    requires ValidFlow(f) && KnownEndpoints(f.dag) && Counters(f.dag, s.remaining, {})
    requires s.results == map[] && s.vars == init && Enumerates(order, initial.Keys)
    ensures HydrateAll(f, s, initial, order).remaining.Keys == Names(f.dag)
  {
    HydratedExactly(f, init, s, initial, order);
  }

  lemma Prepared(f: Flow, init: map<Var, Json>, s0: Restored, initial: map<Name, Record>, order: seq<Name>, s: Sched)
    requires ValidFlow(f) && KnownEndpoints(f.dag) && UniqueNames(f.dag.nodes) && Counters(f.dag, s0.remaining, {})
    requires s0.results == map[] && s0.vars == init && Enumerates(order, initial.Keys)
    requires s.mem == Mem(s.mem.results, s.mem.vars, false, map[], map[], map[], [])
    requires Restored(s.queue.remaining, s.mem.results, s.mem.vars) == HydrateAll(f, s0, initial, order)
    requires s.queue.ready == ReadyNames(f.dag.nodes, s.queue.remaining, s.mem.results)
    ensures s.mem.results == Hydrated(f.dag, initial) && AtBoundary(f, s.mem.results, init, s)
  {
    hide HydrateAll, ReadyNames, HydratedSoFar, AtBoundary, Counters;
    HydratedExactly(f, init, s0, initial, order);
    PreparedBoundary(f, init, s);
  }

  ghost function FinalMemory(f: Flow, m: Mem): Mem {
    var r := ReconcileAll(f.dag.nodes, Reconciled(m.results, m.writes));
    m.(results := r.results, writes := r.writes)
  }

  class Execution {
    const flow: Flow
    const maps: Maps
    const init: map<Var, Json>
    var remaining: map<Name, int>
    var nodeResults: map<Name, Record>
    var ctx: Ctx
    var aborted: bool
    var ready: seq<Name>
    var inflight: map<Name, Launch>
    var seen: map<Name, Ctx>
    var writes: seq<Write>
    ghost var calls: map<Name, nat>
    ghost var hyd: map<Name, Record>

    ghost function Memory(): Mem
      reads this
    {
      Mem(nodeResults, ctx.vars, aborted, inflight, seen, calls, writes)
    }

    /** The engine's results and the published `ctx.nodes` are the same map. */
    ghost predicate Lockstep()
      reads this
    {
      && WellFormed(flow.dag) && MapsOf(flow.dag, maps)
      && ctx.nodes == nodeResults
    }

    constructor (flow: Flow, init: map<Var, Json>, maps: Maps)
      requires WellFormed(flow.dag) && MapsOf(flow.dag, maps)
      ensures this.flow == flow && this.init == init && this.maps == maps
      ensures Lockstep() && remaining == maps.indegree && ready == []
      ensures Memory() == Mem(map[], init, false, map[], map[], map[], [])
    {
      this.flow, this.init, this.maps := flow, init, maps;
      remaining, ready := maps.indegree, [];
      nodeResults, ctx, aborted := map[], Ctx(init, map[]), false;
      inflight, seen, writes, calls, hyd := map[], map[], [], map[], map[];
    }

    method RecordOutcome(n: Name, r: Record)
      requires Lockstep()
      modifies `nodeResults, `ctx, `writes
      ensures Lockstep()
      ensures nodeResults == old(nodeResults)[n := r] && ctx.vars == old(ctx.vars)
      ensures writes == old(writes) + [RecordWrite(n, r)]
    {
      nodeResults := nodeResults[n := r];
      ctx := ctx.(nodes := ctx.nodes[n := r]);
      writes := writes + [RecordWrite(n, r)];
    }

    method HandleFailure(n: Name)
      modifies `aborted
      ensures aborted == (old(aborted) || flow.terminate(n))
    {
      if flow.terminate(n) {
        aborted := true;
      }
    }

    method FindSkippedParent(n: Name) returns (found: bool)
      requires Lockstep() && n in Names(flow.dag)
      ensures found <==> SkippedParent(flow.dag, nodeResults, n)
    {
      hide WellFormed, KnownEndpoints, Sources, Targets, Unreleased;
      var ps := maps.parents[n];
      for i := 0 to |ps|
        invariant forall k :: 0 <= k < i ==> !(ps[k] in nodeResults && nodeResults[ps[k]].status == Skipped)
      {
        SourcesExact(flow.dag.edges, n, ps[i]);
        if ps[i] in nodeResults && nodeResults[ps[i]].status == Skipped {
          assert IsParent(flow.dag, ps[i], n);
          return true;
        }
      }
      forall p | IsParent(flow.dag, p, n)
        ensures !(p in nodeResults && nodeResults[p].status == Skipped)
      {
        SourcesExact(flow.dag.edges, n, p);
      }
      return false;
    }

    /** Record the outcome of `n`; a failure that was raised goes through `HandleFailure`. */
    method Settle(n: Name, o: Outcome, made: nat)
      requires Lockstep() && n in Names(flow.dag)
      modifies `nodeResults, `ctx, `aborted, `writes, `calls
      ensures Lockstep()
      ensures nodeResults == old(nodeResults)[n := o.record] && ctx.vars == old(ctx.vars)
      ensures aborted == (old(aborted) || (o.raised && flow.terminate(n)))
      ensures calls == old(calls)[n := made]
      ensures writes == old(writes) + [RecordWrite(n, o.record)]
    {
      calls := calls[n := made];
      RecordOutcome(n, o.record);
      if o.raised {
        HandleFailure(n);
      }
    }

    method MarkRunning(n: Name, l: Launch)
      modifies `inflight, `writes
      ensures inflight == old(inflight)[n := l] && writes == old(writes) + [RunningWrite(n, l)]
    {
      inflight := inflight[n := l];
      writes := writes + [RunningWrite(n, l)];
    }

    method StartNode(n: Name)
      requires Lockstep() && n in Names(flow.dag)
      modifies `nodeResults, `ctx, `aborted, `inflight, `seen, `writes, `calls
      ensures Lockstep()
      ensures Memory() == StartStep(flow, old(Memory()), n)
    {
      hide WellFormed, MapsOf, StartStep;
      ghost var f, m := flow, Memory();
      seen := seen[n := ctx];
      var skipped := FindSkippedParent(n);
      if skipped {
        Settle(n, Outcome(Record(Skipped, Null), false), 0);
        StartSkipped(f, m, n);
      } else {
        var s := flow.prefix(n, ctx);
        if s.Settled? {
          Settle(n, s.outcome, 0);
          StartSettled(f, m, n, s.outcome);
        } else {
          MarkRunning(n, s.launch);
          StartLaunched(f, m, n, s.launch);
        }
      }
    }

    method PublishOutputs(n: Name, r: Record)
      modifies `ctx
      ensures ctx.vars == Published(flow, old(ctx.vars), n, r) && ctx.nodes == old(ctx.nodes)
    {
      ctx := ctx.(vars := Published(flow, ctx.vars, n, r));
    }

    method FinishNode(n: Name)
      requires Lockstep() && n in Names(flow.dag) && n in inflight && n in seen
      modifies `nodeResults, `ctx, `aborted, `inflight, `writes, `calls
      ensures Lockstep()
      ensures Memory() == FinishStep(flow, old(Memory()), n)
    {
      ghost var f, m := flow, Memory();
      var o, made := flow.complete(n, seen[n], inflight[n]), flow.calls(n, seen[n], inflight[n]);
      inflight := inflight - {n};
      PublishOutputs(n, o.record);
      Settle(n, o, made);
      assert Memory() == Finished(f, m, n, o, made);
      FinishSpelled(f, m, n, o);
    }

    // ---- one layer -------------------------------------------------------------------

    method StartLayer(layer: seq<Name>)
      requires Lockstep() && forall n :: n in layer ==> n in Names(flow.dag)
      modifies `nodeResults, `ctx, `aborted, `inflight, `seen, `writes, `calls
      ensures Lockstep() && Memory() == StartAll(flow, old(Memory()), layer)
    {
      ghost var base := Memory();
      for i := 0 to |layer|
        invariant Lockstep() && Memory() == StartAll(flow, base, layer[..i])
      {
        assert layer[..i + 1][..i] == layer[..i];
        StartNode(layer[i]);
      }
      assert layer[..|layer|] == layer;
    }

    /** The plugin calls of the layer come back in an arbitrary order. */
    method FinishLayer() returns (ghost order: seq<Name>)
      requires Lockstep() && forall n :: n in inflight ==> n in Names(flow.dag) && n in seen
      modifies `nodeResults, `ctx, `aborted, `inflight, `writes, `calls
      ensures Lockstep() && Memory() == FinishAll(flow, old(Memory()), order) && inflight == map[]
    {
      ghost var mid := Memory();
      order := [];
      while inflight != map[]
        invariant Lockstep() && Memory() == FinishAll(flow, mid, order)
        invariant forall n :: n in inflight ==> n in Names(flow.dag) && n in seen
        decreases inflight.Keys
      {
        var n :| n in inflight;
        FinishAllStep(flow, mid, order, n);
        FinishSpelled(flow, Memory(), n, flow.complete(n, seen[n], inflight[n]));
        FinishNode(n);
        order := order + [n];
      }
    }

    // ---- counters --------------------------------------------------------------------

    ghost function ReadyQueue(): Queue
      reads this
    {
      Queue(remaining, ready)
    }

    method ReleaseSuccessors(n: Name)
      requires n in maps.adj && forall t :: t in maps.adj[n] ==> t in remaining
      modifies `remaining, `ready
      ensures ReadyQueue() == DecrementAll(old(ReadyQueue()), nodeResults, maps.adj[n])
      ensures remaining.Keys == old(remaining.Keys)
    {
      var ts := maps.adj[n];
      for k := 0 to |ts|
        invariant ReadyQueue() == DecrementAll(old(ReadyQueue()), nodeResults, ts[..k])
        invariant remaining.Keys == old(remaining.Keys)
      {
        assert ts[..k + 1][..k] == ts[..k];
        var next := ts[k];
        var r := remaining[next] - 1;
        remaining := remaining[next := r];
        if r == 0 && next !in nodeResults {
          ready := ready + [next];
        }
      }
      assert ts[..|ts|] == ts;
    }

    method ReleaseHydrated(n: Name)
      requires n in maps.adj && forall t :: t in maps.adj[n] ==> t in remaining
      modifies `remaining
      ensures remaining == ClampAll(old(remaining), maps.adj[n]) && remaining.Keys == old(remaining.Keys)
    {
      var ts := maps.adj[n];
      for k := 0 to |ts|
        invariant remaining == ClampAll(old(remaining), ts[..k])
        invariant remaining.Keys == old(remaining.Keys)
      {
        assert ts[..k + 1][..k] == ts[..k];
        remaining := remaining[ts[k] := Max(0, remaining[ts[k]] - 1)];
      }
      assert ts[..|ts|] == ts;
    }

    method Propagate(layer: seq<Name>)
      requires forall n :: n in layer ==> n in maps.adj && n in nodeResults
      requires forall n, t :: n in maps.adj && t in maps.adj[n] ==> t in remaining
      modifies `remaining, `ready
      ensures ReadyQueue() == PropagateAll(maps.adj, old(ReadyQueue()), nodeResults, layer)
    {
      for i := 0 to |layer|
        invariant ReadyQueue() == PropagateAll(maps.adj, old(ReadyQueue()), nodeResults, layer[..i])
        invariant remaining.Keys == old(remaining.Keys)
      {
        assert layer[..i + 1][..i] == layer[..i];
        var n := layer[i];
        if nodeResults[n].status != Waiting {
          ReleaseSuccessors(n);
        }
      }
      assert layer[..|layer|] == layer;
    }

    // ---- rehydration -----------------------------------------------------------------

    ghost function RestoredState(): Restored
      reads this
    {
      Restored(remaining, nodeResults, ctx.vars)
    }

    /** Take over one terminal or waiting row; outputs are replayed, successors released. */
    method HydrateRow(n: Name, prev: Record)
      requires Lockstep() && KnownEndpoints(flow.dag) && remaining.Keys == Names(flow.dag)
      requires n in Names(flow.dag)
      modifies `nodeResults, `ctx, `remaining
      ensures Lockstep() && remaining.Keys == Names(flow.dag)
      ensures RestoredState() == HydrateOne(flow, old(RestoredState()), n, prev)
    {
      hide WellFormed, ClampAll, KnownEndpoints;
      nodeResults := nodeResults[n := prev];
      ctx := ctx.(nodes := ctx.nodes[n := prev]);
      if prev.status != Waiting {
        if prev.status == Success && prev.output != Null {
          PublishOutputs(n, prev);
        }
        HydrateTargets(flow.dag, maps, remaining, n);
        ReleaseHydrated(n);
      }
    }

    /** The rehydration loop; the rows come in no particular order. */
    method Hydrate(initial: map<Name, Record>) returns (ghost order: seq<Name>)
      requires Lockstep() && KnownEndpoints(flow.dag) && remaining.Keys == Names(flow.dag)
      modifies `nodeResults, `ctx, `remaining
      ensures Lockstep()
      ensures Enumerates(order, initial.Keys)
      ensures RestoredState() == HydrateAll(flow, old(RestoredState()), initial, order)
    {
      var todo := initial.Keys;
      order := [];
      while todo != {}
        invariant todo <= initial.Keys && Enumerates(order, initial.Keys - todo)
        invariant Lockstep() && remaining.Keys == Names(flow.dag)
        invariant RestoredState() == HydrateAll(flow, old(RestoredState()), initial, order)
        decreases todo
      {
        var n :| n in todo;
        todo := todo - {n};
        HydrateAllStep(flow, old(RestoredState()), initial, order, n);
        if IsHydrated(flow.dag, initial, n) {
          HydrateRow(n, initial[n]);
        }
        order := order + [n];
      }
      assert initial.Keys - todo == initial.Keys;
    }

    /** The initial ready list: unrecorded nodes with a zero counter, in declaration order. */
    method InitialReady()
      requires remaining.Keys == Names(flow.dag)
      modifies `ready
      ensures ready == ReadyNames(flow.dag.nodes, remaining, nodeResults)
    {
      ready := [];
      for i := 0 to |flow.dag.nodes|
        invariant ready == ReadyNames(flow.dag.nodes[..i], remaining, nodeResults)
      {
        assert flow.dag.nodes[..i + 1][..i] == flow.dag.nodes[..i];
        var n := flow.dag.nodes[i].name;
        if n !in nodeResults && remaining[n] == 0 {
          ready := ready + [n];
        }
      }
      assert flow.dag.nodes[..|flow.dag.nodes|] == flow.dag.nodes;
    }

    /** Rehydration and the initial ready list. */
    method Prepare(initial: map<Name, Record>)
      requires Lockstep() && ValidFlow(flow) && remaining == maps.indegree
      requires Memory() == Mem(map[], init, false, map[], map[], map[], [])
      modifies this
      ensures Lockstep() && !aborted && hyd == Hydrated(flow.dag, initial)
      ensures AtBoundary(flow, hyd, init, State())
    {
      hide ReadyNames, HydrateAll, AtBoundary, Hydrated, ValidFlow;
      ghost var s := RestoredState();
      ghost var order := Hydrate(initial);
      hyd := nodeResults;
      HydratedKeys(flow, init, s, initial, order);
      InitialReady();
      Prepared(flow, init, s, initial, order, State());
    }

    // ---- the scheduler loop ------------------------------------------------------------

    ghost function State(): Sched
      reads this
    {
      Sched(Memory(), ReadyQueue())
    }

    /** Take the ready list as a layer and run it. */
    method RunLayer() returns (layer: seq<Name>, ghost order: seq<Name>)
      requires Lockstep() && inflight == map[]
      requires forall n :: n in ready ==> n in Names(flow.dag)
      requires var m := StartAll(flow, Memory(), ready);
               forall n :: n in m.inflight ==> n in Names(flow.dag) && n in m.seen
      modifies `nodeResults, `ctx, `aborted, `inflight, `seen, `writes, `calls, `ready
      ensures Lockstep() && layer == old(ready) && ready == [] && inflight == map[]
      ensures Memory() == LayerDone(flow, old(State()), order)
    {
      layer := ready;
      ready := [];
      StartLayer(layer);
      order := FinishLayer();
    }

    /** One turn of the scheduler loop: run the ready layer, then propagate unless aborted. */
    method RunReadyLayer() returns (ghost order: seq<Name>)
      requires Lockstep() && RoundReady(flow, maps, State())
      modifies `nodeResults, `ctx, `aborted, `inflight, `seen, `writes, `calls, `remaining, `ready
      ensures Lockstep() && RoundDone(flow, old(State()), order)
      ensures State() == Round(flow, maps, old(State()), order)
    {
      var layer;
      layer, order := RunLayer();
      assert RoundDone(flow, old(State()), order);
      if !aborted {
        Propagate(layer);
      }
    }

    method RunLayers() returns (ghost rounds: seq<seq<Name>>)
      requires Lockstep() && ValidFlow(flow)
      requires AtBoundary(flow, hyd, init, State())
      modifies `nodeResults, `ctx, `aborted, `inflight, `seen, `writes, `calls, `remaining, `ready
      ensures Lockstep() && RoundsRun(flow, maps, old(State()), rounds)
      ensures State() == Rounds(flow, maps, old(State()), rounds)
      ensures ready == [] || aborted
    {
      hide AtBoundary, ValidFlow;
      ghost var s := State();
      rounds := [];
      while ready != [] && !aborted
        invariant Lockstep() && RoundsRun(flow, maps, s, rounds)
        invariant State() == Rounds(flow, maps, s, rounds)
        decreases Names(flow.dag) - nodeResults.Keys
      {
        RoundsKeep(flow, hyd, init, maps, s, rounds);
        RoundProgress(flow, hyd, init, maps, State());
        ghost var s' := State();
        ghost var order := RunReadyLayer();
        RoundGrows(flow, hyd, init, maps, s', order);
        RoundsSnoc(flow, maps, s, rounds, order);
        rounds := rounds + [order];
      }
    }

    method Run(initial: map<Name, Record>) returns (ghost s: Sched, ghost rounds: seq<seq<Name>>)
      requires Lockstep() && ValidFlow(flow) && remaining == maps.indegree
      requires Memory() == Mem(map[], init, false, map[], map[], map[], [])
      modifies this
      ensures Lockstep()
      ensures AtBoundary(flow, Hydrated(flow.dag, initial), init, s) && !s.mem.aborted
      ensures RoundsRun(flow, maps, s, rounds)
      ensures var s' := Rounds(flow, maps, s, rounds);
              (s'.queue.ready == [] || s'.mem.aborted) && Memory() == FinalMemory(flow, s'.mem)
    {
      Prepare(initial);
      s := State();
      rounds := RunLayers();
      ghost var m := Memory();
      Reconcile();
      assert Memory() == FinalMemory(flow, m);
    }

    /** Final reconciliation (and `markRestPending`, which records the same status). */
    method Reconcile()
      requires Lockstep()
      modifies `nodeResults, `ctx, `writes
      ensures Lockstep() && ctx.vars == old(ctx.vars)
      ensures Reconciled(nodeResults, writes)
              == ReconcileAll(flow.dag.nodes, Reconciled(old(nodeResults), old(writes)))
    {
      for i := 0 to |flow.dag.nodes|
        invariant Lockstep() && ctx.vars == old(ctx.vars)
        invariant Reconciled(nodeResults, writes)
                  == ReconcileAll(flow.dag.nodes[..i], Reconciled(old(nodeResults), old(writes)))
      {
        assert flow.dag.nodes[..i + 1][..i] == flow.dag.nodes[..i];
        var n := flow.dag.nodes[i].name;
        if n !in nodeResults {
          RecordOutcome(n, UNREACHED);
        }
      }
      assert flow.dag.nodes[..|flow.dag.nodes|] == flow.dag.nodes;
    }

  }

  /** What a finished job guarantees about its memory: the results are those of a run, complete unless
      aborted; aborted exactly when a raised `terminate` failure was recorded; the context reflects the
      results; each node cost exactly the plugin calls of its one run, and the `persistNodeState` hook
      received exactly the writes of that run. */
  ghost predicate JobContract(f: Flow, hyd: map<Name, Record>, init: map<Var, Json>, m: Mem) {
    && PartialRun(f, hyd, init, m.results, m.seen)
    && (!m.aborted ==> CompleteRun(f, hyd, init, m.results, m.seen))
    && (m.aborted <==> exists n :: AbortsAt(f, hyd, m.results, m.seen, n))
    && (DisjointWrites(f) ==> VarsOK(f, hyd, init, m.results, m.vars)) && Untouched(f, init, m.vars)
    && CallsInvariant(f, m) && m.inflight == map[]
    && (forall n :: n in m.seen ==> n in m.results && n !in hyd && m.results[n] != UNREACHED)
    && (forall n :: WritesOf(m.writes, n) == JobWrites(f, hyd, m.results, m.seen, n))
  }

  lemma FinishedWrites(f: Flow, hyd: map<Name, Record>, m: Mem, m': Mem, n: Name)
    requires KeysOK(f, hyd, m) && LogInvariant(f, hyd, m) && m.inflight == map[] && m.results.Keys <= Names(f.dag)
    requires m'.results == Completed(f.dag, m.results) && m'.seen == m.seen
    requires WritesOf(m'.writes, n) == WritesOf(m.writes, n)
               + (if n in Names(f.dag) && n !in m.results then [RecordWrite(n, UNREACHED).partial] else [])
    ensures WritesOf(m'.writes, n) == JobWrites(f, hyd, m'.results, m'.seen, n)
  {
    assert WritesOf(m.writes, n) == LogOf(f, hyd, m, n);
  }

  lemma FinishedLog(f: Flow, hyd: map<Name, Record>, m: Mem, m': Mem)
    requires KeysOK(f, hyd, m) && LogInvariant(f, hyd, m) && m.inflight == map[] && m.results.Keys <= Names(f.dag)
    requires m' == FinalMemory(f, m)
    ensures forall n :: WritesOf(m'.writes, n) == JobWrites(f, hyd, m'.results, m'.seen, n)
  {
    ReconcileExact(f.dag, m.results, m.writes);
    forall n
      ensures WritesOf(m'.writes, n) == JobWrites(f, hyd, m'.results, m'.seen, n)
    {
      FinishedWrites(f, hyd, m, m', n);
    }
  }

  lemma SeenAreReached(f: Flow, hyd: map<Name, Record>, m: Mem)
    requires KeysOK(f, hyd, m) && AllRecordable(m.results) && m.inflight == map[]
    ensures forall n :: n in m.seen ==>
              n in Completed(f.dag, m.results) && n !in hyd && Completed(f.dag, m.results)[n] != UNREACHED
  {
  }

  lemma FinishedResults(f: Flow, hyd: map<Name, Record>, init: map<Var, Json>, s: Sched)
    requires KnownEndpoints(f.dag) && AtBoundary(f, hyd, init, s) && (s.queue.ready == [] || s.mem.aborted)
    ensures var m := FinalMemory(f, s.mem);
            && PartialRun(f, hyd, init, m.results, m.seen)
            && (!m.aborted ==> CompleteRun(f, hyd, init, m.results, m.seen))
            && (m.aborted <==> exists n :: AbortsAt(f, hyd, m.results, m.seen, n))
            && (DisjointWrites(f) ==> VarsOK(f, hyd, init, m.results, m.vars))
  {
    var m := s.mem;
    ReconcileExact(f.dag, m.results, m.writes);
    if m.aborted {
      CompletedIsPartialRun(f, hyd, init, m);
    } else {
      CompletedIsCompleteRun(f, hyd, init, m, s.queue.remaining);
    }
    AbortIsRecorded(f, hyd, m);
    if DisjointWrites(f) {
      CompletedVars(f, hyd, init, m);
    }
  }

  lemma FinishedBooks(f: Flow, hyd: map<Name, Record>, init: map<Var, Json>, s: Sched)
    requires AtBoundary(f, hyd, init, s)
    ensures var m := FinalMemory(f, s.mem);
            && Untouched(f, init, m.vars) && CallsInvariant(f, m) && m.inflight == map[]
            && (forall n :: n in m.seen ==> n in m.results && n !in hyd && m.results[n] != UNREACHED)
            && (forall n :: WritesOf(m.writes, n) == JobWrites(f, hyd, m.results, m.seen, n))
  {
    var m := s.mem;
    ReconcileExact(f.dag, m.results, m.writes);
    FinishedLog(f, hyd, m, FinalMemory(f, m));
    SeenAreReached(f, hyd, m);
  }

  lemma FinishedContract(f: Flow, hyd: map<Name, Record>, init: map<Var, Json>, s: Sched)
    requires KnownEndpoints(f.dag) && AtBoundary(f, hyd, init, s) && (s.queue.ready == [] || s.mem.aborted)
    ensures JobContract(f, hyd, init, FinalMemory(f, s.mem))
  {
    hide PartialRun, CompleteRun, AbortsAt, VarsOK, Untouched, CallsInvariant, AtBoundary, FinalMemory, JobWrites;
    FinishedResults(f, hyd, init, s);
    FinishedBooks(f, hyd, init, s);
  }

  /** An aborted loop stopped in its last round. */
  lemma LastRoundAborted(
    f: Flow, hyd: map<Name, Record>, init: map<Var, Json>, maps: Maps, s: Sched, rounds: seq<seq<Name>>)
    returns (before: map<Name, Record>, last: set<Name>)
    requires ValidFlow(f) && KnownEndpoints(f.dag) && MapsOf(f.dag, maps)
    requires AtBoundary(f, hyd, init, s) && !s.mem.aborted && RoundsRun(f, maps, s, rounds)
    ensures var m := Rounds(f, maps, s, rounds).mem;
            m.aborted ==> AbortDiscipline(f, hyd, Completed(f.dag, m.results), m.seen, before, last)
  {
    before, last := map[], {};
    if rounds != [] {
      var k := |rounds| - 1;
      var s' := Rounds(f, maps, s, rounds[..k]);
      RoundsKeep(f, hyd, init, maps, s, rounds[..k]);
      RoundKeeps(f, hyd, init, maps, s', rounds[k]);
      var m := Rounds(f, maps, s, rounds).mem;
      before, last := s'.mem.results, Elements(s'.queue.ready);
      if m.aborted {
        AbortedFollowsDiscipline(f, hyd, m, s'.mem, last);
      }
    }
  }

  // ---- executeDag ------------------------------------------------------------------

  /** From the first test of the loop condition to the end of the job. */
  lemma JobFinished(
    f: Flow, hyd: map<Name, Record>, init: map<Var, Json>, maps: Maps, s: Sched, rounds: seq<seq<Name>>)
    returns (before: map<Name, Record>, last: set<Name>)
    requires ValidFlow(f) && KnownEndpoints(f.dag) && MapsOf(f.dag, maps)
    requires AtBoundary(f, hyd, init, s) && !s.mem.aborted && RoundsRun(f, maps, s, rounds)
    requires var s' := Rounds(f, maps, s, rounds); s'.queue.ready == [] || s'.mem.aborted
    ensures var m := FinalMemory(f, Rounds(f, maps, s, rounds).mem);
            && JobContract(f, hyd, init, m)
            && (m.aborted ==> AbortDiscipline(f, hyd, m.results, m.seen, before, last))
  {
    var s' := Rounds(f, maps, s, rounds);
    RoundsKeep(f, hyd, init, maps, s, rounds);
    before, last := LastRoundAborted(f, hyd, init, maps, s, rounds);
    FinishedContract(f, hyd, init, s');
    ReconcileExact(f.dag, s'.mem.results, s'.mem.writes);
  }

  /** A declared row that is done is taken over as it is and nothing is done for it; every other declared node
      starts in this job or ends pending. */
  lemma TakenOverOrRun(f: Flow, init: map<Var, Json>, initial: map<Name, Record>, m: Mem)
    requires JobContract(f, Hydrated(f.dag, initial), init, m)
    ensures m.results.Keys == Names(f.dag)
    ensures forall n ::
              n in initial && n in Names(f.dag) && initial[n].status in {Success, Failed, Skipped, Waiting} ==>
                m.results[n] == initial[n] && n !in m.seen && WritesOf(m.writes, n) == []
    ensures forall n :: n in Names(f.dag) && (n in initial ==> initial[n].status in {Pending, Running}) ==>
              (n in m.seen <==> m.results[n] != UNREACHED)
  {
    hide VarsOK, CallsInvariant, CompleteRun, Snapshot, Expected, DisjointWrites, Untouched;
    var hyd := Hydrated(f.dag, initial);
    forall n | n in Names(f.dag)
      ensures n in hyd ==> m.results[n] == hyd[n] && n !in m.seen && WritesOf(m.writes, n) == []
      ensures n !in hyd ==> (n in m.seen <==> m.results[n] != UNREACHED)
    {
      assert WritesOf(m.writes, n) == JobWrites(f, hyd, m.results, m.seen, n);
      assert n !in hyd && m.results[n] != UNREACHED ==> Explained(f, hyd, init, m.results, m.seen, n);
    }
  }

  /** What `executeDag` returns, with the writes it issued on the way. */
  datatype Report = Report(
    status: Overall, nodes: map<Name, Record>, ctx: Ctx, aborted: bool, seen: map<Name, Ctx>, writes: seq<Write>)

  /** The whole of `executeDag`: it keeps the contract of a job for every plugin behaviour and every
      order in which the plugin calls of a layer complete. */
  method ExecuteDag(f: Flow, init: map<Var, Json>, initial: map<Name, Record>)
    returns (r: Report, ghost calls: map<Name, nat>, ghost before: map<Name, Record>, ghost last: set<Name>)
    requires WellFormed(f.dag) && ValidFlow(f)
    ensures r.ctx.nodes == r.nodes && r.nodes.Keys == Names(f.dag) && r.status == Aggregate(r.aborted, r.nodes)
    ensures r.status == AllFailed <==> r.aborted
    ensures r.status == SomePartial <==> !r.aborted && exists n :: n in r.nodes && r.nodes[n].status == Failed
    ensures r.status == SomeWaiting <==>
              && !r.aborted && (forall n :: n in r.nodes ==> r.nodes[n].status != Failed)
              && exists n :: n in r.nodes && r.nodes[n].status == Waiting
    ensures r.status == AllSuccess <==>
              !r.aborted && forall n :: n in r.nodes ==> r.nodes[n].status !in {Failed, Waiting}
    ensures forall n :: n in initial && n in r.nodes && initial[n].status in {Success, Failed, Skipped, Waiting} ==>
              r.nodes[n] == initial[n] && n !in r.seen && WritesOf(r.writes, n) == []
    ensures forall n :: n in r.nodes && (n in initial ==> initial[n].status in {Pending, Running}) ==>
              (n in r.seen <==> r.nodes[n] != UNREACHED)
    ensures JobContract(f, Hydrated(f.dag, initial), init,
                        Mem(r.nodes, r.ctx.vars, r.aborted, map[], r.seen, calls, r.writes))
    ensures r.aborted ==> AbortDiscipline(f, Hydrated(f.dag, initial), r.nodes, r.seen, before, last)
  {
    var maps := BuildDag(f.dag);
    var e := new Execution(f, init, maps);
    ghost var s, rounds := e.Run(initial);
    before, last := JobFinished(f, Hydrated(f.dag, initial), init, maps, s, rounds);
    r := Report(Aggregate(e.aborted, e.nodeResults), e.nodeResults, e.ctx, e.aborted, e.seen, e.writes);
    calls := e.calls;
    ghost var m := e.Memory();
    assert m == Mem(r.nodes, r.ctx.vars, r.aborted, m.inflight, r.seen, calls, r.writes);
    AggregateExact(r.aborted, r.nodes);
    TakenOverOrRun(f, init, initial, m);
  }
}
