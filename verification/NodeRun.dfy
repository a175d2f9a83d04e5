/** What one node does in one job (engine/executor.js, `runOneInner`; engine/limits.js).
    Plugins and expressions are foreign code: a `World` says how they answer. The stages of
    `runOneInner` split in two: `Prefix` is what runs synchronously when the layer starts,
    `Complete` is what follows the awaited plugin calls. */
module NodeRun {
  import opened Common
  import opened Dags
  import Text

  datatype Status = Pending | Running | Success | Failed | Skipped | Waiting

  /** JSON values; `Null` also stands for `undefined` and for SQL NULL. */
  datatype Json =
    | Null
    | Bool(flag: bool)
    | Num(num: int)
    | Str(text: string)
    | Arr(items: seq<Json>)
    | Obj(fields: map<string, Json>)

  datatype Record = Record(status: Status, output: Json)

  /** Expressions see the context root and the per-node records under `nodes`. */
  datatype Ctx = Ctx(vars: map<Var, Json>, nodes: map<Name, Record>)

  datatype Reply = Returns(value: Json) | Throws

  /** The foreign code of a job and the configured caps. `None` means that the evaluation throws. */
  datatype World = World(
    evalIf: (Name, Ctx) -> Option<bool>,
    resolveInputs: (Name, Ctx) -> Option<Json>,
    resolveBatch: (Name, Ctx) -> Option<Json>,
    resolveItem: (Name, Ctx, Json, nat) -> Option<Json>,
    invoke: (Name, Ctx, Json, nat, nat) -> Reply,
    primary: string -> Option<string>,
    retryCap: nat,
    iterationCap: nat)

  datatype Job = Job(dag: Dag, world: World, overrides: map<Name, Json>)

  /** A recorded result; `raised` says that the failure went through `handleFailure`. */
  datatype Outcome = Outcome(record: Record, raised: bool)

  const FAILURE := Outcome(Record(Failed, Null), true)

  /** The arguments captured when the plugin calls of a node start. */
  datatype Launch = Launch(inputs: Json, batch: Option<seq<Json>>)

  datatype Started = Settled(outcome: Outcome) | Launched(launch: Launch)

  const WAITING_MARKER := "__dag_waiting__"

  predicate IsWaiting(output: Json) {
    output.Obj? && WAITING_MARKER in output.fields && output.fields[WAITING_MARKER] == Bool(true)
  }

  // ---- limits.js --------------------------------------------------------------

  function MaxRetries(w: World, retry: int): (r: nat)
    ensures retry <= 0 ==> r == 0
    ensures 0 <= retry <= w.retryCap ==> r == retry
    ensures retry >= w.retryCap ==> r == w.retryCap
  {
    Min(Max(retry, 0), w.retryCap)
  }

  /** The workflow's own cap, or the configured one. */
  function IterationCap(d: Dag, configured: nat): (cap: nat)
    ensures d.maxIterations.Some? && d.maxIterations.value >= 0 ==> d.maxIterations == Some(cap)
    ensures d.maxIterations.None? || d.maxIterations.value < 0 ==> cap == configured
  {
    if d.maxIterations.Some? && d.maxIterations.value >= 0 then d.maxIterations.value else configured
  }

  function MaxIterations(j: Job): nat { IterationCap(j.dag, j.world.iterationCap) }

  // ---- the synchronous prefix -------------------------------------------------

  function Prefix(j: Job, n: Name, c: Ctx): Started
    requires n in Names(j.dag)
  {
    var def := Def(j.dag, n);
    var cond := if def.hasExecuteIf then j.world.evalIf(n, c) else Some(true);
    if cond == None then Settled(Outcome(Record(Failed, Null), false))
    else if cond == Some(false) then Settled(Outcome(Record(Skipped, Null), false))
    else
      var inputs := if n in j.overrides then Some(j.overrides[n]) else j.world.resolveInputs(n, c);
      if inputs == None then Settled(FAILURE)
      else if !def.hasBatchOver then Launched(Launch(inputs.value, None))
      else
        var items := j.world.resolveBatch(n, c);
        if items.Some? && items.value.Arr? then Launched(Launch(inputs.value, Some(items.value.items)))
        else Settled(FAILURE)
  }

  // ---- attempts ---------------------------------------------------------------

  /** The value of the successful attempt, if any, and the number of attempts made. */
  datatype Tried = Tried(result: Option<Json>, attempts: nat)

  function AttemptsFrom(w: World, n: Name, c: Ctx, input: Json, item: nat, attempt: nat, maxRetries: nat): Tried
    requires 1 <= attempt <= maxRetries + 1
    decreases maxRetries + 1 - attempt
  {
    match w.invoke(n, c, input, item, attempt)
    case Returns(v) => Tried(Some(v), attempt)
    case Throws =>
      if attempt > maxRetries then Tried(None, attempt)
      else AttemptsFrom(w, n, c, input, item, attempt + 1, maxRetries)
  }

  function Attempts(j: Job, n: Name, c: Ctx, input: Json, item: nat): Tried
    requires n in Names(j.dag)
  {
    AttemptsFrom(j.world, n, c, input, item, 1, MaxRetries(j.world, Def(j.dag, n).retry))
  }

  /** What the attempt loop promises: it stops at the first success, and it gives up only after
      exactly `1 + maxRetries` failed attempts. */
  ghost predicate AttemptContract(w: World, n: Name, c: Ctx, input: Json, item: nat, maxRetries: nat, t: Tried) {
    && 1 <= t.attempts <= maxRetries + 1
    && (forall a: nat :: 1 <= a < t.attempts ==> w.invoke(n, c, input, item, a) == Throws)
    && (t.result.Some? ==> w.invoke(n, c, input, item, t.attempts) == Returns(t.result.value))
    && (t.result.None? ==> t.attempts == maxRetries + 1 && w.invoke(n, c, input, item, t.attempts) == Throws)
  }

  /** The contract has one solution, and `AttemptsFrom` computes it. */
  lemma {:induction false} AttemptsExact(
    w: World, n: Name, c: Ctx, input: Json, item: nat, attempt: nat, maxRetries: nat, t: Tried)
    requires 1 <= attempt <= maxRetries + 1
    requires forall a: nat :: 1 <= a < attempt ==> w.invoke(n, c, input, item, a) == Throws
    ensures AttemptContract(w, n, c, input, item, maxRetries, t)
            <==> t == AttemptsFrom(w, n, c, input, item, attempt, maxRetries)
    decreases maxRetries + 1 - attempt
  {
    if w.invoke(n, c, input, item, attempt) == Throws && attempt <= maxRetries {
      AttemptsExact(w, n, c, input, item, attempt + 1, maxRetries, t);
    }
  }

  method AttemptOnce(j: Job, n: Name, c: Ctx, input: Json, item: nat) returns (t: Tried)
    requires n in Names(j.dag)
    ensures t == Attempts(j, n, c, input, item)
    ensures AttemptContract(j.world, n, c, input, item, MaxRetries(j.world, Def(j.dag, n).retry), t)
  {
    var maxRetries := MaxRetries(j.world, Def(j.dag, n).retry);
    var attempt: nat := 0;
    t := Tried(None, 0);
    while attempt <= maxRetries
      invariant attempt <= maxRetries + 1 && t == Tried(None, attempt)
      invariant forall a: nat :: 1 <= a <= attempt ==> j.world.invoke(n, c, input, item, a) == Throws
    {
      attempt := attempt + 1;
      var reply := j.world.invoke(n, c, input, item, attempt);
      t := Tried(if reply.Returns? then Some(reply.value) else None, attempt);
      if reply.Returns? || attempt > maxRetries {
        break;
      }
    }
    AttemptsExact(j.world, n, c, input, item, 1, maxRetries, t);
  }

  // ---- completion ---------------------------------------------------------------

  /** One element of a batch: its inputs are resolved against the element, then attempted. */
  function ItemTry(j: Job, n: Name, c: Ctx, item: Json, index: nat): Tried
    requires n in Names(j.dag)
  {
    match j.world.resolveItem(n, c, item, index)
    case None => Tried(None, 0)
    case Some(input) => Attempts(j, n, c, input, index)
  }

  /** The results of a batch when every element succeeds. */
  function BatchResults(j: Job, n: Name, c: Ctx, items: seq<Json>): (r: Option<seq<Json>>)
    requires n in Names(j.dag)
    ensures r.Some? <==> forall i :: 0 <= i < |items| ==> ItemTry(j, n, c, items[i], i).result.Some?
    ensures r.Some? ==> |r.value| == |items|
    ensures r.Some? ==> forall i :: 0 <= i < |items| ==> ItemTry(j, n, c, items[i], i).result == Some(r.value[i])
  {
    if items == [] then Some([])
    else
      var k := |items| - 1;
      var init := BatchResults(j, n, c, items[..k]);
      assert forall i :: 0 <= i < k ==> items[..k][i] == items[i];
      var last := ItemTry(j, n, c, items[k], k).result;
      if init.Some? && last.Some? then Some(init.value + [last.value]) else None
  }

  function BatchCalls(j: Job, n: Name, c: Ctx, items: seq<Json>): nat
    requires n in Names(j.dag)
  {
    if items == [] then 0
    else
      var k := |items| - 1;
      BatchCalls(j, n, c, items[..k]) + ItemTry(j, n, c, items[k], k).attempts
  }

  function BatchOutput(results: seq<Json>): Json {
    Obj(map["items" := Arr(results), "count" := Num(|results|)])
  }

  function Complete(j: Job, n: Name, c: Ctx, l: Launch): Outcome
    requires n in Names(j.dag)
  {
    match l.batch
    case Some(items) =>
      if |items| > MaxIterations(j) then FAILURE
      else (match BatchResults(j, n, c, items)
            case None => FAILURE
            case Some(results) => Outcome(Record(Success, BatchOutput(results)), false))
    case None =>
      match Attempts(j, n, c, l.inputs, 0).result
      case None => FAILURE
      case Some(v) => Outcome(Record(if IsWaiting(v) then Waiting else Success, v), false)
  }

  /** The number of plugin calls that `Complete` makes. */
  function Calls(j: Job, n: Name, c: Ctx, l: Launch): nat
    requires n in Names(j.dag)
  {
    match l.batch
    case Some(items) => if |items| > MaxIterations(j) then 0 else BatchCalls(j, n, c, items)
    case None => Attempts(j, n, c, l.inputs, 0).attempts
  }

  /** The node is not held back by its `executeIf`. */
  predicate GateOpen(j: Job, n: Name, c: Ctx)
    requires n in Names(j.dag)
  {
    Def(j.dag, n).hasExecuteIf ==> j.world.evalIf(n, c) == Some(true)
  }

  /** The stages before the first `await`, in the order of the source. Each way they can end, and when:
      an `executeIf` error fails the node quietly, a false one skips it; behind an open gate the node is
      launched if its inputs and, where it has one, its batch array can be had, and fails loudly otherwise.
      Overridden inputs win over resolved ones. */
  method EvaluatePrefix(job: Job, n: Name, ctx: Ctx) returns (s: Started)
    requires n in Names(job.dag)
    ensures s == Prefix(job, n, ctx)
    ensures s == Settled(Outcome(Record(Failed, Null), false)) <==>
            Def(job.dag, n).hasExecuteIf && job.world.evalIf(n, ctx) == None
    ensures s == Settled(Outcome(Record(Skipped, Null), false)) <==>
            Def(job.dag, n).hasExecuteIf && job.world.evalIf(n, ctx) == Some(false)
    ensures s.Launched? <==>
            && GateOpen(job, n, ctx) && (n in job.overrides || job.world.resolveInputs(n, ctx).Some?)
            && (Def(job.dag, n).hasBatchOver ==>
                  job.world.resolveBatch(n, ctx).Some? && job.world.resolveBatch(n, ctx).value.Arr?)
    ensures s == Settled(FAILURE) <==> GateOpen(job, n, ctx) && !s.Launched?
    ensures s.Launched? ==>
              && Some(s.launch.inputs) == (if n in job.overrides then Some(job.overrides[n])
                                           else job.world.resolveInputs(n, ctx))
              && (s.launch.batch.Some? <==> Def(job.dag, n).hasBatchOver)
              && (s.launch.batch.Some? ==> job.world.resolveBatch(n, ctx) == Some(Arr(s.launch.batch.value)))
  {
    var def := Def(job.dag, n);
    if def.hasExecuteIf {
      var cond := job.world.evalIf(n, ctx);
      if cond == None {
        return Settled(Outcome(Record(Failed, Null), false));
      }
      if !cond.value {
        return Settled(Outcome(Record(Skipped, Null), false));
      }
    }
    var inputs := if n in job.overrides then Some(job.overrides[n]) else job.world.resolveInputs(n, ctx);
    if inputs == None {
      return Settled(FAILURE);
    }
    if !def.hasBatchOver {
      return Launched(Launch(inputs.value, None));
    }
    var items := job.world.resolveBatch(n, ctx);
    if items == None || !items.value.Arr? {
      return Settled(FAILURE);
    }
    return Launched(Launch(inputs.value, Some(items.value.items)));
  }

  /** An element of a batch was tried: not at all when its inputs cannot be resolved against it. */
  ghost predicate ItemTried(j: Job, n: Name, c: Ctx, item: Json, index: nat, t: Tried)
    requires n in Names(j.dag)
  {
    match j.world.resolveItem(n, c, item, index)
    case None => t == Tried(None, 0)
    case Some(input) => AttemptContract(j.world, n, c, input, index, MaxRetries(j.world, Def(j.dag, n).retry), t)
  }

  ghost predicate ItemsTried(j: Job, n: Name, c: Ctx, items: seq<Json>, tries: seq<Tried>)
    requires n in Names(j.dag)
  {
    |tries| == |items| && forall i :: 0 <= i < |items| ==> ItemTried(j, n, c, items[i], i, tries[i])
  }

  ghost function TotalAttempts(tries: seq<Tried>): nat {
    if tries == [] then 0 else TotalAttempts(tries[..|tries| - 1]) + tries[|tries| - 1].attempts
  }

  /** The results are those of the tries, element by element, or there are none because some try failed. */
  ghost predicate Collected(results: Option<seq<Json>>, tries: seq<Tried>) {
    && (results.Some? <==> forall i :: 0 <= i < |tries| ==> tries[i].result.Some?)
    && (results.Some? ==>
          |results.value| == |tries|
          && forall i :: 0 <= i < |tries| ==> tries[i].result == Some(results.value[i]))
  }

  lemma TriesSnoc(
    j: Job, n: Name, c: Ctx, items: seq<Json>, i: nat, results: Option<seq<Json>>, tries: seq<Tried>, t: Tried)
    requires n in Names(j.dag) && i < |items| && ItemTried(j, n, c, items[i], i, t)
    requires ItemsTried(j, n, c, items[..i], tries) && Collected(results, tries)
    ensures ItemsTried(j, n, c, items[..i + 1], tries + [t])
    ensures Collected(if results.Some? && t.result.Some? then Some(results.value + [t.result.value]) else None,
                      tries + [t])
    ensures TotalAttempts(tries + [t]) == TotalAttempts(tries) + t.attempts
  {
    hide ItemTried;
    assert (tries + [t])[..i] == tries;
    forall k | 0 <= k < i
      ensures ItemTried(j, n, c, items[..i + 1][k], k, (tries + [t])[k])
    {
      assert ItemTried(j, n, c, items[..i][k], k, tries[k]);
    }
    if results.None? {
      var k :| 0 <= k < |tries| && tries[k].result.None?;
      assert (tries + [t])[k].result.None?;
    }
  }

  lemma BatchNext(j: Job, n: Name, c: Ctx, items: seq<Json>, i: nat)
    requires n in Names(j.dag) && i < |items|
    ensures var so, t := BatchResults(j, n, c, items[..i]), ItemTry(j, n, c, items[i], i);
            && BatchResults(j, n, c, items[..i + 1])
               == (if so.Some? && t.result.Some? then Some(so.value + [t.result.value]) else None)
            && BatchCalls(j, n, c, items[..i + 1]) == BatchCalls(j, n, c, items[..i]) + t.attempts
  {
    assert items[..i + 1][..i] == items[..i];
  }

  method TryItem(j: Job, n: Name, c: Ctx, item: Json, index: nat) returns (t: Tried)
    requires n in Names(j.dag)
    ensures t == ItemTry(j, n, c, item, index) && ItemTried(j, n, c, item, index, t)
  {
    var input := j.world.resolveItem(n, c, item, index);
    t := Tried(None, 0);
    if input.Some? {
      t := AttemptOnce(j, n, c, input.value, index);
    }
  }

  method RunBatch(j: Job, n: Name, c: Ctx, items: seq<Json>)
    returns (results: Option<seq<Json>>, calls: nat, ghost tries: seq<Tried>)
    requires n in Names(j.dag)
    ensures results == BatchResults(j, n, c, items) && calls == BatchCalls(j, n, c, items)
    ensures ItemsTried(j, n, c, items, tries) && Collected(results, tries) && calls == TotalAttempts(tries)
  {
    results, calls, tries := Some([]), 0, [];
    for i := 0 to |items|
      invariant results == BatchResults(j, n, c, items[..i]) && calls == BatchCalls(j, n, c, items[..i])
      invariant ItemsTried(j, n, c, items[..i], tries) && Collected(results, tries) && calls == TotalAttempts(tries)
    {
      hide *;
      var t := TryItem(j, n, c, items[i], i);
      BatchNext(j, n, c, items, i);
      TriesSnoc(j, n, c, items, i, results, tries, t);
      calls, tries := calls + t.attempts, tries + [t];
      results := if results.Some? && t.result.Some? then Some(results.value + [t.result.value]) else None;
    }
    assert items[..|items|] == items;
  }

  /** The awaited part of a node. Beyond the iteration cap a batch fails without a call. Within it, it
      succeeds exactly when every element does, and its output lists the elements' values in order and
      counts them. A single call fails exactly when every attempt threw; otherwise its answer is the
      output, and the node waits exactly when the answer carries the marker. */
  method Perform(j: Job, n: Name, c: Ctx, l: Launch) returns (o: Outcome, calls: nat, ghost tries: seq<Tried>)
    requires n in Names(j.dag)
    ensures o == Complete(j, n, c, l) && calls == Calls(j, n, c, l)
    ensures l.batch.Some? && |l.batch.value| > MaxIterations(j) ==>
              o == Outcome(Record(Failed, Null), true) && calls == 0
    ensures l.batch.Some? && |l.batch.value| <= MaxIterations(j) ==>
              && ItemsTried(j, n, c, l.batch.value, tries) && calls == TotalAttempts(tries)
              && (if forall i :: 0 <= i < |tries| ==> tries[i].result.Some? then
                    && o.record.status == Success && !o.raised
                    && o.record.output.Obj? && o.record.output.fields.Keys == {"items", "count"}
                    && o.record.output.fields["count"] == Num(|l.batch.value|)
                    && o.record.output.fields["items"].Arr?
                    && Collected(Some(o.record.output.fields["items"].items), tries)
                  else o == Outcome(Record(Failed, Null), true))
    ensures l.batch.None? ==>
              && |tries| == 1 && calls == tries[0].attempts
              && AttemptContract(j.world, n, c, l.inputs, 0, MaxRetries(j.world, Def(j.dag, n).retry), tries[0])
              && match tries[0].result {
                   case None => o == Outcome(Record(Failed, Null), true)
                   case Some(v) =>
                     && o.record.output == v && !o.raised && o.record.status in {Success, Waiting}
                     && (o.record.status == Waiting <==>
                           v.Obj? && "__dag_waiting__" in v.fields && v.fields["__dag_waiting__"] == Bool(true))
                 }
  {
    tries := [];
    if l.batch.Some? {
      if |l.batch.value| > MaxIterations(j) {
        return FAILURE, 0, [];
      }
      var results;
      results, calls, tries := RunBatch(j, n, c, l.batch.value);
      o := if results.None? then FAILURE else Outcome(Record(Success, BatchOutput(results.value)), false);
    } else {
      var t := AttemptOnce(j, n, c, l.inputs, 0);
      calls, tries := t.attempts, [t];
      if t.result.None? {
        o := FAILURE;
      } else {
        o := Outcome(Record(if IsWaiting(t.result.value) then Waiting else Success, t.result.value), false);
      }
    }
  }

  // ---- invocation bound -----------------------------------------------------------

  lemma {:induction false} BatchCallsBound(j: Job, n: Name, c: Ctx, items: seq<Json>)
    requires n in Names(j.dag)
    ensures BatchCalls(j, n, c, items) <= (1 + MaxRetries(j.world, Def(j.dag, n).retry)) * |items|
  {
    if items != [] {
      var k := |items| - 1;
      var r := MaxRetries(j.world, Def(j.dag, n).retry);
      BatchCallsBound(j, n, c, items[..k]);
      var input := j.world.resolveItem(n, c, items[k], k);
      if input.Some? {
        AttemptsExact(j.world, n, c, input.value, k, 1, r, Attempts(j, n, c, input.value, k));
      }
      assert ItemTry(j, n, c, items[k], k).attempts <= 1 + r;
      assert (1 + r) * |items| == (1 + r) * k + (1 + r);
    }
  }

  /** One node makes at most (1 + min(retry, cap)) plugin calls per batch element, or in all when
      it has no batch, and never for more elements than the iteration cap. */
  lemma InvocationBound(j: Job, n: Name, c: Ctx, l: Launch)
    requires n in Names(j.dag)
    ensures var r := Min(Max(Def(j.dag, n).retry, 0), j.world.retryCap);
            && (l.batch.None? ==> 1 <= Calls(j, n, c, l) <= 1 + r)
            && (l.batch.Some? ==> Calls(j, n, c, l) <= (1 + r) * |l.batch.value|)
            && (l.batch.Some? && |l.batch.value| > MaxIterations(j) ==> Calls(j, n, c, l) == 0)
  {
    var r := MaxRetries(j.world, Def(j.dag, n).retry);
    if l.batch.Some? {
      BatchCallsBound(j, n, c, l.batch.value);
      assert 0 <= (1 + r) * |l.batch.value|;
    } else {
      AttemptsExact(j.world, n, c, l.inputs, 0, 1, r, Attempts(j, n, c, l.inputs, 0));
    }
  }

  // ---- context bindings -------------------------------------------------------------

  function PathFrom(v: Json, parts: seq<string>): Json
    decreases |parts|
  {
    if parts == [] || v == Null then v
    else PathFrom(if v.Obj? && parts[0] in v.fields then v.fields[parts[0]] else Null, parts[1..])
  }

  /** `getPath`: dotted paths into an object; the empty path is the object itself. */
  function GetPath(v: Json, path: string): Json {
    if path == "" then v else PathFrom(v, Text.Split(path, "."))
  }

  /** `trail` starts at `v` and follows the parts of `path` between its dots, field by field; a field that is
      not there, or of something that is no object, is null. */
  ghost predicate Follows(v: Json, path: string, parts: seq<string>, trail: seq<Json>) {
    && parts != [] && Text.Join(parts, ".") == path && (forall i :: 0 <= i < |parts| ==> '.' !in parts[i])
    && |trail| == |parts| + 1 && trail[0] == v
    && forall i :: 0 <= i < |parts| ==> trail[i + 1] == FieldOf(trail[i], parts[i])
  }

  ghost function FieldOf(v: Json, name: string): Json {
    if v.Obj? && name in v.fields then v.fields[name] else Null
  }

  /** `r` is what the path leads to in `v`. */
  ghost predicate AtPath(v: Json, path: string, r: Json) {
    if path == "" then r == v
    else exists parts, trail :: Follows(v, path, parts, trail) && r == trail[|parts|]
  }

  lemma {:induction false} PathTrail(v: Json, parts: seq<string>) returns (trail: seq<Json>)
    ensures |trail| == |parts| + 1 && trail[0] == v && trail[|parts|] == PathFrom(v, parts)
    ensures forall i :: 0 <= i < |parts| ==> trail[i + 1] == FieldOf(trail[i], parts[i])
    decreases |parts|
  {
    if parts == [] {
      trail := [v];
    } else {
      NullPath(parts[1..]);
      var rest := PathTrail(FieldOf(v, parts[0]), parts[1..]);
      trail := [v] + rest;
    }
  }

  lemma NullPath(parts: seq<string>)
    ensures PathFrom(Null, parts) == Null
  {
  }

  lemma PathFollowed(v: Json, path: string)
    ensures AtPath(v, path, GetPath(v, path))
  {
    if path != "" {
      var parts := Text.Split(path, ".");
      Text.JoinSplit(path, ".");
      Text.SplitLeftmost(path, ".");
      forall i | 0 <= i < |parts|
        ensures '.' !in parts[i]
      {
        forall k | 0 <= k < |parts[i]|
          ensures parts[i][k] != '.'
        {
          assert !Text.Occurs(parts[i], ".", k);
        }
      }
      var trail := PathTrail(v, parts);
      assert Follows(v, path, parts, trail);
    }
  }

  /** The entries that `applyOutputMapping` writes, later ones over earlier ones. */
  function MappingBindings(outputs: seq<(string, Var)>, output: Json): map<Var, Json> {
    if outputs == [] then map[]
    else
      var k := |outputs| - 1;
      var init := MappingBindings(outputs[..k], output);
      if outputs[k].1 == "" then init else init[outputs[k].1 := GetPath(output, outputs[k].0)]
  }

  function PrimaryOutput(w: World, def: NodeDef, output: Json): Json {
    var primary := w.primary(def.action);
    if primary.Some? && primary.value != "" && output.Obj? && primary.value in output.fields
    then output.fields[primary.value] else output
  }

  /** Everything a successful node writes at the root of the context. */
  function Bindings(w: World, def: NodeDef, output: Json): map<Var, Json> {
    var m := MappingBindings(def.outputs, output);
    if def.outputVar.Some? then m[def.outputVar.value := PrimaryOutput(w, def, output)] else m
  }

  ghost function MappingVars(outputs: seq<(string, Var)>): set<Var> {
    set i | 0 <= i < |outputs| && outputs[i].1 != "" :: outputs[i].1
  }

  /** The context variables a node can write; they do not depend on its output. */
  ghost function DeclaredVars(def: NodeDef): set<Var> {
    MappingVars(def.outputs) + (if def.outputVar.Some? then {def.outputVar.value} else {})
  }

  lemma {:induction false} MappingKeys(outputs: seq<(string, Var)>, output: Json)
    ensures MappingBindings(outputs, output).Keys == MappingVars(outputs)
  {
    if outputs != [] {
      var k := |outputs| - 1;
      MappingKeys(outputs[..k], output);
      var init := MappingVars(outputs[..k]);
      forall v
        ensures v in MappingVars(outputs) <==> v in init || (outputs[k].1 != "" && v == outputs[k].1)
      {
        if v in init {
          var i :| 0 <= i < k && outputs[..k][i].1 == v;
          assert outputs[i].1 == v;
        }
        if v in MappingVars(outputs) {
          var i :| 0 <= i < |outputs| && outputs[i].1 != "" && outputs[i].1 == v;
          if i < k {
            assert outputs[..k][i].1 == v;
          }
        }
      }
    }
  }

  lemma BindingKeys(w: World, def: NodeDef, output: Json)
    ensures Bindings(w, def, output).Keys == DeclaredVars(def)
  {
    MappingKeys(def.outputs, output);
  }

  /** The last entry of the mapping that has this entry's target. */
  ghost predicate LastFor(outputs: seq<(string, Var)>, i: nat)
    requires i < |outputs|
  {
    outputs[i].1 != "" && forall k :: i < k < |outputs| ==> outputs[k].1 != outputs[i].1
  }

  lemma {:induction false} LastEntryWins(outputs: seq<(string, Var)>, output: Json, i: nat)
    requires i < |outputs| && LastFor(outputs, i)
    ensures var m := MappingBindings(outputs, output);
            outputs[i].1 in m && m[outputs[i].1] == GetPath(output, outputs[i].0)
  {
    var k := |outputs| - 1;
    if i < k {
      assert LastFor(outputs[..k], i);
      LastEntryWins(outputs[..k], output, i);
    }
  }

  /** A null output binds nothing but nulls. */
  lemma {:induction false} NullMapping(outputs: seq<(string, Var)>)
    ensures forall v :: v in MappingBindings(outputs, Null) ==> MappingBindings(outputs, Null)[v] == Null
  {
    if outputs != [] {
      NullMapping(outputs[..|outputs| - 1]);
    }
  }

  lemma AddUpdate<K, V>(a: map<K, V>, m: map<K, V>, k: K, v: V)
    ensures a + m[k := v] == (a + m)[k := v]
  {
  }

  lemma MappingStep(outputs: seq<(string, Var)>, i: nat, output: Json)
    requires i < |outputs|
    ensures MappingBindings(outputs[..i + 1], output)
            == if outputs[i].1 == "" then MappingBindings(outputs[..i], output)
               else MappingBindings(outputs[..i], output)[outputs[i].1 := GetPath(output, outputs[i].0)]
  {
    assert outputs[..i + 1][..i] == outputs[..i];
  }

  /** `applyOutputMapping`: the loop over the mapping. */
  method ApplyOutputMapping(outputs: seq<(string, Var)>, output: Json, vars: map<Var, Json>) returns (r: map<Var, Json>)
    ensures r == vars + MappingBindings(outputs, output)
  {
    r := vars;
    for i := 0 to |outputs|
      invariant r == vars + MappingBindings(outputs[..i], output)
    {
      MappingStep(outputs, i, output);
      var (field, ctxVar) := outputs[i];
      if ctxVar != "" {
        AddUpdate(vars, MappingBindings(outputs[..i], output), ctxVar, GetPath(output, field));
        r := r[ctxVar := GetPath(output, field)];
      }
    }
    assert outputs[..|outputs|] == outputs;
  }

  /** `vars` holds what a node with this output hands on: under `outputVar` the output, or the field of it that
      the plugin names as primary where it has it; under every other target of the mapping what the path of its
      last entry leads to in the output. */
  ghost predicate Binds(w: World, def: NodeDef, output: Json, vars: map<Var, Json>) {
    && (def.outputVar.Some? ==>
          def.outputVar.value in vars
          && vars[def.outputVar.value]
             == match w.primary(def.action) {
                  case Some(p) => if p != "" && output.Obj? && p in output.fields then output.fields[p] else output
                  case None => output
                })
    && forall i :: 0 <= i < |def.outputs| && LastFor(def.outputs, i) && def.outputVar != Some(def.outputs[i].1) ==>
         def.outputs[i].1 in vars && AtPath(output, def.outputs[i].0, vars[def.outputs[i].1])
  }

  lemma BindingsBind(w: World, def: NodeDef, output: Json, vars: map<Var, Json>)
    requires SubMap(Bindings(w, def, output), vars)
    ensures Binds(w, def, output, vars)
  {
    forall i | 0 <= i < |def.outputs| && LastFor(def.outputs, i) && def.outputVar != Some(def.outputs[i].1)
      ensures def.outputs[i].1 in vars && AtPath(output, def.outputs[i].0, vars[def.outputs[i].1])
    {
      LastEntryWins(def.outputs, output, i);
      PathFollowed(output, def.outputs[i].0);
    }
  }

  /** The mapping, then the `outputVar` shortcut; no other variable changes. */
  method Publish(w: World, def: NodeDef, output: Json, vars: map<Var, Json>) returns (r: map<Var, Json>)
    ensures r == vars + Bindings(w, def, output)
    ensures Binds(w, def, output, r) && forall v :: v !in DeclaredVars(def) ==> SameAt(r, vars, v)
  {
    r := ApplyOutputMapping(def.outputs, output, vars);
    if def.outputVar.Some? {
      AddUpdate(vars, MappingBindings(def.outputs, output), def.outputVar.value, PrimaryOutput(w, def, output));
      r := r[def.outputVar.value := PrimaryOutput(w, def, output)];
    }
    BindingKeys(w, def, output);
    BindingsBind(w, def, output, r);
  }
}
