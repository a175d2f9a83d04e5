/** End-to-end consequences for real jobs, from plugin answers to durable rows. */
module Theorems {
  import opened Common
  import opened Dags
  import opened NodeRun
  import opened Semantics
  import opened JobResults
  import opened Reference
  import opened Executor
  import opened PauseResume

  // ---- one job ------------------------------------------------------------------------

  /** A fresh job that is not aborted computes exactly the sequential reference evaluation. */
  lemma JobComputesReference(f: Flow, order: seq<Name>, init: map<Var, Json>, m: Mem)
    requires ValidFlow(f) && DisjointWrites(f) && Local(f) && TopologicalOrder(f.dag, order)
    requires JobContract(f, map[], init, m) && !m.aborted
    ensures m.results == ReferenceResults(f, order, init) && m.vars == Evaluate(f, order, init).vars
  {
    RunsComputeReference(f, order, init, m.results, m.seen, m.vars);
  }

  lemma OutcomeNotRunning(
    f: Flow, hyd: map<Name, Record>, init: map<Var, Json>, res: map<Name, Record>, seen: map<Name, Ctx>, n: Name)
    requires ValidFlow(f) && PartialRun(f, hyd, init, res, seen) && n in res && n !in hyd
    ensures res[n].status != Running
    ensures res[n] != UNREACHED ==> Explained(f, hyd, init, res, seen, n)
  {
    if res[n] != UNREACHED {
      assert Explained(f, hyd, init, res, seen, n);
      QuietUnlessLaunched(f, n, seen[n]);
    }
  }

  /** In one job a node is marked running at most once, before its outcome, and never when it was
      rehydrated; and when it started, every parent already had status success, failed or skipped. */
  lemma StartedOnceAfterParents(f: Flow, hyd: map<Name, Record>, init: map<Var, Json>, m: Mem, n: Name)
    requires ValidFlow(f) && JobContract(f, hyd, init, m) && WritesOf(m.writes, n) != []
    ensures n !in hyd && n in m.results
    ensures forall i :: 0 < i < |WritesOf(m.writes, n)| ==> WritesOf(m.writes, n)[i].status != Running
    ensures m.results[n] != UNREACHED ==>
              n in m.seen && ParentsSettled(f.dag, m.seen[n].nodes, n) && SubMap(m.seen[n].nodes, m.results)
    ensures WritesOf(m.writes, n)[0].status == Running ==> n in m.seen && Launches(f, n, m.seen[n])
  {
    hide CallsInvariant, VarsOK, DisjointWrites;
    assert WritesOf(m.writes, n) == JobWrites(f, hyd, m.results, m.seen, n);
    OutcomeNotRunning(f, hyd, init, m.results, m.seen, n);
  }

  /** A node that ran aborts the job exactly when it ended failed under `onError: terminate` and the
      failure was not an `executeIf` evaluation error: that one is recorded but never raised. */
  lemma AbortsExactlyWhen(j: Job, n: Name, c: Ctx)
    requires n in Names(j.dag)
    ensures Aborting(FlowOf(j), n, c) <==>
            && Expected(FlowOf(j), n, c).record.status == Failed
            && Def(j.dag, n).onError == Terminate
            && !(Def(j.dag, n).hasExecuteIf && j.world.evalIf(n, c) == None)
  {
  }

  /** `n` ran in this job and failed loudly: under `onError: terminate`, and not because its `executeIf`
      threw in the context it saw. */
  ghost predicate FailedLoudly(j: Job, hyd: map<Name, Record>, m: Mem, n: Name) {
    && n in Names(j.dag) && n in m.results && n !in hyd && m.results[n].status == Failed && n in m.seen
    && Def(j.dag, n).onError == Terminate
    && !(Def(j.dag, n).hasExecuteIf && j.world.evalIf(n, m.seen[n]) == None)
  }

  /** A job is aborted, and its status "failed", exactly when some node failed loudly in it. */
  lemma JobAbortsExactlyWhen(j: Job, hyd: map<Name, Record>, init: map<Var, Json>, m: Mem)
    requires JobContract(FlowOf(j), hyd, init, m)
    ensures m.aborted <==> exists n :: FailedLoudly(j, hyd, m, n)
    ensures Aggregate(m.aborted, m.results) == AllFailed <==> m.aborted
  {
    hide FailedLoudly, AbortsAt, Aggregate;
    AggregateExact(m.aborted, m.results);
    var f := FlowOf(j);
    forall n
      ensures AbortsAt(f, hyd, m.results, m.seen, n) <==> FailedLoudly(j, hyd, m, n)
    {
      LoudAt(j, hyd, init, m, n);
    }
  }

  lemma LoudAt(j: Job, hyd: map<Name, Record>, init: map<Var, Json>, m: Mem, n: Name)
    requires JobContract(FlowOf(j), hyd, init, m)
    ensures AbortsAt(FlowOf(j), hyd, m.results, m.seen, n) <==> FailedLoudly(j, hyd, m, n)
  {
    if n in m.results && n !in hyd && m.results[n] != UNREACHED {
      assert Explained(FlowOf(j), hyd, init, m.results, m.seen, n);
      AbortsExactlyWhen(j, n, m.seen[n]);
    }
  }

  // ---- from the plugin's answer to the context -----------------------------------------------

  /** What a started single node is recorded with: success or waiting means that an attempt within its budget
      was answered, on the inputs it resolved or was given, and the record holds that answer; it is the last
      attempt made, and every earlier one threw. */
  lemma RecordIsAnswer(j: Job, hyd: map<Name, Record>, init: map<Var, Json>, m: Mem, n: Name) returns (t: Tried)
    requires JobContract(FlowOf(j), hyd, init, m) && n in m.seen && n in Names(j.dag)
    requires !Def(j.dag, n).hasBatchOver && m.results[n].status in {Success, Waiting}
    ensures Prefix(j, n, m.seen[n]).Launched? && n in m.calls && m.calls[n] == t.attempts
    ensures AttemptContract(j.world, n, m.seen[n], Prefix(j, n, m.seen[n]).launch.inputs, 0,
                            MaxRetries(j.world, Def(j.dag, n).retry), t)
    ensures t.result == Some(m.results[n].output)
    ensures m.results[n].status == Waiting <==> IsWaiting(m.results[n].output)
  {
    hide JobContract, Attempts;
    var c := m.seen[n];
    FlowOfValid(j);
    RanAndCost(FlowOf(j), hyd, init, m, n);
    var inputs := Prefix(j, n, c).launch.inputs;
    t := Attempts(j, n, c, inputs, 0);
    AnswerOfAttempts(j, n, c, inputs);
  }

  lemma AnswerOfAttempts(j: Job, n: Name, c: Ctx, inputs: Json)
    requires n in Names(j.dag)
    ensures AttemptContract(j.world, n, c, inputs, 0, MaxRetries(j.world, Def(j.dag, n).retry),
                            Attempts(j, n, c, inputs, 0))
  {
    AttemptsExact(j.world, n, c, inputs, 0, 1, MaxRetries(j.world, Def(j.dag, n).retry), Attempts(j, n, c, inputs, 0));
  }

  lemma RanAndCost(f: Flow, hyd: map<Name, Record>, init: map<Var, Json>, m: Mem, n: Name)
    requires ValidFlow(f) && JobContract(f, hyd, init, m) && n in m.seen && n in Names(f.dag)
    requires m.results[n].status in {Success, Waiting}
    ensures Launches(f, n, m.seen[n]) && n in m.calls
    ensures var l := f.prefix(n, m.seen[n]).launch;
            m.results[n] == f.complete(n, m.seen[n], l).record && m.calls[n] == f.calls(n, m.seen[n], l)
  {
    hide VarsOK, DisjointWrites;
    assert Explained(f, hyd, init, m.results, m.seen, n);
    QuietUnlessLaunched(f, n, m.seen[n]);
  }

  /** What it hands on: where no variable has two writers, the context holds it at the end of the job. */
  lemma OutputsReachContext(j: Job, hyd: map<Name, Record>, init: map<Var, Json>, m: Mem, n: Name)
    requires DisjointWrites(FlowOf(j)) && JobContract(FlowOf(j), hyd, init, m)
    requires n in Names(j.dag) && n in m.results && n !in hyd && m.results[n].status == Success
    ensures Binds(j.world, Def(j.dag, n), m.results[n].output, m.vars)
  {
    hide Bindings, Binds, JobContract;
    FlowOfValid(j);
    BoundInContext(FlowOf(j), hyd, init, m, n);
    BindingsBind(j.world, Def(j.dag, n), m.results[n].output, m.vars);
  }

  lemma BoundInContext(f: Flow, hyd: map<Name, Record>, init: map<Var, Json>, m: Mem, n: Name)
    requires ValidFlow(f) && DisjointWrites(f) && JobContract(f, hyd, init, m)
    requires n in Names(f.dag) && n in m.results && n !in hyd && m.results[n].status == Success
    ensures SubMap(f.bindings(n, m.results[n].output), m.vars)
  {
    hide Explained, CompleteRun, PartialRun;
    var bound := f.bindings(n, m.results[n].output);
    assert Publishes(hyd, m.results, n);
    forall v | v in bound
      ensures v in m.vars && m.vars[v] == bound[v]
    {
      assert v in Writes(f, n);
      assert SameAt(m.vars, bound, v);
    }
  }

  /** How many inputs a node started in context `c` sends to its plugin: one, or one per batch element
      unless the batch exceeds the iteration cap. */
  function Fanout(j: Job, n: Name, c: Ctx): nat
    requires n in Names(j.dag)
  {
    match Prefix(j, n, c)
    case Settled(_) => 0
    case Launched(l) =>
      if l.batch.None? then 1 else if |l.batch.value| <= MaxIterations(j) then |l.batch.value| else 0
  }

  /** The budget of a node: (1 + min(retry, cap)) calls for each input. */
  function Budget(j: Job, n: Name, c: Ctx): nat
    requires n in Names(j.dag)
  {
    (1 + Min(Max(Def(j.dag, n).retry, 0), j.world.retryCap)) * Fanout(j, n, c)
  }

  /** A node's calls stay within its budget, and a batch never counts more elements than the iteration
      cap. */
  lemma NodeCallsBound(j: Job, n: Name, c: Ctx)
    requires n in Names(j.dag)
    ensures Cost(FlowOf(j), n, c) <= Budget(j, n, c)
    ensures Fanout(j, n, c) <= if Def(j.dag, n).hasBatchOver then MaxIterations(j) else 1
  {
    if Launches(FlowOf(j), n, c) {
      InvocationBound(j, n, c, Prefix(j, n, c).launch);
    }
  }

  ghost function TotalCalls(nodes: seq<NodeDef>, calls: map<Name, nat>): nat {
    if nodes == [] then 0
    else
      var d := nodes[|nodes| - 1];
      TotalCalls(nodes[..|nodes| - 1], calls) + (if d.name in calls then calls[d.name] else 0)
  }

  /** The budgets of the nodes that started, each in the context it saw. */
  ghost function TotalBudget(j: Job, nodes: seq<NodeDef>, seen: map<Name, Ctx>): nat {
    if nodes == [] then 0
    else
      var n := nodes[|nodes| - 1].name;
      TotalBudget(j, nodes[..|nodes| - 1], seen) + (if n in Names(j.dag) && n in seen then Budget(j, n, seen[n]) else 0)
  }

  lemma {:induction false} CallsWithinBudget(j: Job, m: Mem, nodes: seq<NodeDef>)
    requires forall n :: n in m.calls ==> n in m.seen && m.calls[n] == Cost(FlowOf(j), n, m.seen[n])
    requires forall i :: 0 <= i < |nodes| ==> nodes[i].name in Names(j.dag)
    ensures TotalCalls(nodes, m.calls) <= TotalBudget(j, nodes, m.seen)
  {
    if nodes != [] {
      var k := |nodes| - 1;
      CallsWithinBudget(j, m, nodes[..k]);
      var n := nodes[k].name;
      if n in m.calls {
        NodeCallsBound(j, n, m.seen[n]);
      }
    }
  }

  /** The plugin calls of a whole job stay within the sum, over the nodes that started, of
      (1 + min(retry, cap)) times the length of the batch, or 1. */
  lemma JobCallsBound(j: Job, hyd: map<Name, Record>, init: map<Var, Json>, m: Mem)
    requires JobContract(FlowOf(j), hyd, init, m)
    ensures TotalCalls(j.dag.nodes, m.calls) <= TotalBudget(j, j.dag.nodes, m.seen)
  {
    CallsWithinBudget(j, m, j.dag.nodes);
  }

  // ---- what rehydration restores ----------------------------------------------------------

  /** What a reader gets for a variable: null when nothing is bound. */
  function ReadVar(vars: map<Var, Json>, v: Var): Json { if v in vars then vars[v] else Null }

  ghost predicate ReadAlike(a: map<Var, Json>, b: map<Var, Json>) { forall v :: ReadVar(a, v) == ReadVar(b, v) }

  /** Rehydration restores what readers see of a run's context exactly when every success with a null
      output binds only what the later job's initial data read as anyway: null outputs are not replayed. */
  lemma ReplayRestoresExactly(
    f: Flow, init: map<Var, Json>, init2: map<Var, Json>, res: map<Name, Record>,
    vars: map<Var, Json>, replayed: map<Var, Json>)
    requires ValidFlow(f) && DisjointWrites(f) && res.Keys <= Names(f.dag) && SameInit(f, res, init, init2)
    requires VarsOK(f, map[], init, res, vars) && VarsOK(f, res, init2, res, replayed)
    ensures ReadAlike(replayed, vars) <==> forall v :: ReplayedAt(f, init2, res, v)
  {
    forall v
      ensures ReadVar(replayed, v) == ReadVar(vars, v) <==> ReplayedAt(f, init2, res, v)
    {
      ReplayOfVariable(f, init, init2, res, vars, replayed, v);
    }
  }

  ghost predicate ReplayedAt(f: Flow, init2: map<Var, Json>, res: map<Name, Record>, v: Var) {
    forall n :: n in res && res[n] == Record(Success, Null) && v in Writes(f, n) ==>
      ReadVar(f.bindings(n, Null), v) == ReadVar(init2, v)
  }

  lemma ReplayOfVariable(
    f: Flow, init: map<Var, Json>, init2: map<Var, Json>, res: map<Name, Record>,
    vars: map<Var, Json>, replayed: map<Var, Json>, v: Var)
    requires ValidFlow(f) && DisjointWrites(f) && res.Keys <= Names(f.dag) && SameInit(f, res, init, init2)
    requires VarsOK(f, map[], init, res, vars) && VarsOK(f, res, init2, res, replayed)
    ensures ReadVar(replayed, v) == ReadVar(vars, v) <==> ReplayedAt(f, init2, res, v)
  {
    if n :| n in Names(f.dag) && Publishes(map[], res, n) && v in Writes(f, n) {
      assert SameAt(vars, f.bindings(n, res[n].output), v);
      if res[n].output == Null {
        assert Unpublished(f, res, res, v);
        assert SameAt(replayed, init2, v);
      } else {
        assert Publishes(res, res, n);
        assert SameAt(replayed, f.bindings(n, res[n].output), v);
      }
    } else {
      assert Unpublished(f, map[], res, v) && Unpublished(f, res, res, v) && Unwritten(f, res, v);
    }
  }

  // ---- answering at once --------------------------------------------------------------------

  /** The plugin world in which the answered nodes return their answers wherever they would ask to wait. */
  function AnswerWorld(world: World, answers: map<Name, Json>): World {
    world.(invoke := (n: Name, c: Ctx, input: Json, item: nat, attempt: nat) =>
      var reply := world.invoke(n, c, input, item, attempt);
      if n in answers && reply.Returns? && IsWaiting(reply.value) then Returns(answers[n]) else reply)
  }

  lemma {:induction false} AnswerAttempts(
    world: World, answers: map<Name, Json>, n: Name, c: Ctx, input: Json, item: nat, attempt: nat, maxRetries: nat)
    requires 1 <= attempt <= maxRetries + 1
    ensures var t := AttemptsFrom(world, n, c, input, item, attempt, maxRetries);
            AttemptsFrom(AnswerWorld(world, answers), n, c, input, item, attempt, maxRetries)
            == if n in answers && t.result.Some? && IsWaiting(t.result.value)
               then Tried(Some(answers[n]), t.attempts) else t
    decreases maxRetries + 1 - attempt
  {
    if world.invoke(n, c, input, item, attempt) == Throws && attempt <= maxRetries {
      AnswerAttempts(world, answers, n, c, input, item, attempt + 1, maxRetries);
    }
  }

  lemma {:induction false} AnswerBatch(j: Job, j': Job, answers: map<Name, Json>, n: Name, c: Ctx, items: seq<Json>)
    requires j' == j.(world := AnswerWorld(j.world, answers)) && n in Names(j.dag) && n !in answers
    ensures BatchResults(j', n, c, items) == BatchResults(j, n, c, items)
  {
    if items != [] {
      var k := |items| - 1;
      AnswerBatch(j, j', answers, n, c, items[..k]);
      var input := j.world.resolveItem(n, c, items[k], k);
      if input.Some? {
        AnswerAttempts(j.world, answers, n, c, input.value, k, 1, MaxRetries(j.world, Def(j.dag, n).retry));
      }
    }
  }

  lemma AnswerComplete(j: Job, j': Job, answers: map<Name, Json>, n: Name, c: Ctx, l: Launch)
    requires j' == j.(world := AnswerWorld(j.world, answers)) && n in Names(j.dag)
    requires n in answers ==> !IsWaiting(answers[n]) && l.batch.None?
    ensures Complete(j', n, c, l) == if n in answers && Complete(j, n, c, l).record.status == Waiting
                                     then Outcome(Record(Success, answers[n]), false) else Complete(j, n, c, l)
  {
    if l.batch.Some? {
      AnswerBatch(j, j', answers, n, c, l.batch.value);
    } else {
      AnswerAttempts(j.world, answers, n, c, l.inputs, 0, 1, MaxRetries(j.world, Def(j.dag, n).retry));
    }
  }

  /** Answering at once changes the job's flow just as the pause theorem asks. */
  lemma AnswerWorldAnswers(j: Job, answers: map<Name, Json>)
    requires forall w :: w in answers ==> w in Names(j.dag) && !Def(j.dag, w).hasBatchOver && !IsWaiting(answers[w])
    ensures Answered(FlowOf(j), FlowOf(j.(world := AnswerWorld(j.world, answers))), answers)
  {
    var j' := j.(world := AnswerWorld(j.world, answers));
    var f, f' := FlowOf(j), FlowOf(j');
    forall n, c
      ensures Own(f', n, c) == if n in answers && Own(f, n, c).record.status == Waiting
                               then Outcome(Record(Success, answers[n]), false) else Own(f, n, c)
    {
      if n in Names(j.dag) {
        assert Prefix(j', n, c) == Prefix(j, n, c);
        if Prefix(j, n, c).Launched? {
          AnswerComplete(j, j', answers, n, c, Prefix(j, n, c).launch);
        }
      }
    }
    forall n, output
      ensures f'.bindings(n, output) == f.bindings(n, output)
    {
      if n in Names(j.dag) {
        assert PrimaryOutput(j'.world, Def(j.dag, n), output) == PrimaryOutput(j.world, Def(j.dag, n), output);
      }
    }
  }
}
