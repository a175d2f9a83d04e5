/** Pausing and resuming through the worker and the durable rows: every job starts from the rows it finds
    and from the context its predecessor persisted. */
module WorkerResume {
  import opened Common
  import opened Dags
  import opened NodeRun
  import opened Semantics
  import opened JobResults
  import opened Executor
  import opened NodeStates
  import opened DurableJob
  import opened ExecutionStore
  import opened PauseResume
  import opened Theorems

  /** What all jobs of an execution share: the workflow's data, the user's inputs, the reserved keys. */
  datatype Setup = Setup(data: map<Var, Json>, inputs: Json, reserved: map<Var, Json>)

  function InitOf(s: Setup, context: map<Var, Json>): map<Var, Json> {
    JobInit(s.data, s.inputs, context, s.reserved)
  }

  /** The worker ran job `j` from these rows and this persisted context: as a single run, not as a batch. */
  ghost predicate RanSingle(j: Job, t: Table, s: Setup, context: map<Var, Json>, m: Mem) {
    !RunsAsBatch(s.inputs, context) && JobContract(FlowOf(j), Hydrated(j.dag, Load(t)), InitOf(s, context), m)
  }

  ghost predicate Landed(m: Mem, landed: seq<Write>) { forall n :: WritesOf(landed, n) == WritesOf(m.writes, n) }

  // ---- rows and results --------------------------------------------------------------------------

  /** The rows hold the results of a finished job. */
  ghost predicate RowsHold(d: Dag, t: Table, res: map<Name, Record>) {
    && Clean(t) && res.Keys == Names(d)
    && (forall n :: n in Names(d) ==> n in t && Load(t)[n] == res[n])
    && (forall n :: n in res ==> res[n].status != Running)
  }

  lemma RowsHoldAfter(f: Flow, init: map<Var, Json>, t: Table, m: Mem, landed: seq<Write>)
    requires ValidFlow(f) && Clean(t) && JobContract(f, Hydrated(f.dag, Load(t)), init, m) && Landed(m, landed)
    ensures RowsHold(f.dag, Apply(t, landed), m.results)
  {
    RowsAgreeWithMemory(f, init, t, m, landed);
    forall n | n in m.results
      ensures m.results[n].status != Running
    {
      if n !in Hydrated(f.dag, Load(t)) {
        OutcomeNotRunning(f, Hydrated(f.dag, Load(t)), init, m.results, m.seen, n);
      }
    }
  }

  function Respond(t: Table, w: Name, out: Json): Table { Upsert(t, w, Partial(Success, out, None)) }

  /** The rows after a response to each of the answered nodes. */
  function RespondAll(t: Table, answers: map<Name, Json>): Table {
    map n | n in t :: if n in answers then UpsertRow(Some(t[n]), Partial(Success, answers[n], None)) else t[n]
  }

  /** The rows after responses given one after the other. */
  function RespondEach(t: Table, answers: map<Name, Json>, order: seq<Name>): Table
    requires forall w :: w in order ==> w in answers
  {
    if order == [] then t
    else
      var k := |order| - 1;
      assert order[k] in order && forall w :: w in order[..k] ==> w in order;
      Respond(RespondEach(t, answers, order[..k]), order[k], answers[order[k]])
  }

  lemma RespondNone(t: Table)
    ensures RespondAll(t, map[]) == t
  {
  }

  lemma RespondOneMore(t: Table, answers: map<Name, Json>, w: Name, out: Json)
    requires w in t && w !in answers
    ensures Respond(RespondAll(t, answers), w, out) == RespondAll(t, answers[w := out])
  {
  }

  lemma {:induction false} SameAnswers(t: Table, a: map<Name, Json>, b: map<Name, Json>, order: seq<Name>)
    requires forall w :: w in order ==> w in a && w in b && a[w] == b[w]
    ensures RespondEach(t, a, order) == RespondEach(t, b, order)
  {
    if order != [] {
      var k := |order| - 1;
      assert order[k] in order && forall w :: w in order[..k] ==> w in order;
      SameAnswers(t, a, b, order[..k]);
    }
  }

  /** Whatever the order in which the answered nodes are responded to, each once, the rows are the same. */
  lemma {:induction false} ResponsesCommute(t: Table, answers: map<Name, Json>, order: seq<Name>)
    requires answers.Keys <= t.Keys && NoDuplicates(order) && forall w :: w in order <==> w in answers
    ensures RespondEach(t, answers, order) == RespondAll(t, answers)
  {
    if order == [] {
      RespondNone(t);
    } else {
      var k := |order| - 1;
      var rest, w := order[..k], order[k];
      var fewer := answers - {w};
      assert w in order && w !in rest && order == rest + [w];
      assert forall x :: x in rest ==> x in order;
      ResponsesCommute(t, fewer, rest);
      SameAnswers(t, answers, fewer, rest);
      RespondOneMore(t, fewer, w, answers[w]);
      assert answers == fewer[w := answers[w]];
    }
  }

  /** A response that arrives while a job is live, for a node that the job took over, comes to the same as one
      that arrives when its writes have landed: the job does not write that row. */
  lemma LateResponse(t: Table, log: seq<Write>, w: Name, out: Json)
    requires w in t && WritesOf(log, w) == []
    ensures Apply(Respond(t, w, out), log) == Respond(Apply(t, log), w, out)
  {
    var t1, t2 := Apply(Respond(t, w, out), log), Respond(Apply(t, log), w, out);
    forall n
      ensures Get(t1, n) == Get(t2, n)
    {
      ApplyByRow(Respond(t, w, out), log, n);
      ApplyByRow(t, log, n);
    }
    SameRows(t1, t2);
  }

  /** The rows after the responses are exactly what the resumed job of the pause theorem takes over. */
  lemma RespondedRows(d: Dag, t: Table, res: map<Name, Record>, answers: map<Name, Json>)
    requires RowsHold(d, t, res) && Answerable(res, answers)
    ensures Clean(RespondAll(t, answers)) && Hydrated(d, Load(RespondAll(t, answers))) == Responded(res, answers)
  {
    var t' := RespondAll(t, answers);
    var taken, responded := Hydrated(d, Load(t')), Responded(res, answers);
    forall n
      ensures n in taken <==> n in responded
      ensures n in taken ==> taken[n] == responded[n]
    {
      assert n in Names(d) ==> Load(t)[n] == res[n];
    }
  }

  /** The initial data of a resumed job, from the user's inputs or from the context that its predecessor
      persisted, differ from the first job's only in what has been bound since. */
  lemma ResumedInitialData(f: Flow, s: Setup, context: map<Var, Json>, res: map<Name, Record>, vars: map<Var, Json>)
    requires s.reserved.Keys == RESERVED && res.Keys == Names(f.dag)
    requires VarsOK(f, map[], InitOf(s, context), res, vars)
    ensures SameInit(f, res, InitOf(s, context), InitOf(s, Redact(vars)))
  {
    var init := InitOf(s, context);
    forall v | Unwritten(f, res, v)
      ensures SameAt(init, InitOf(s, Redact(vars)), v)
    {
      forall n | n in Names(f.dag) && Publishes(map[], res, n)
        ensures v !in Writes(f, n)
      {
      }
      assert Unpublished(f, map[], res, v);
      assert SameAt(vars, init, v);
    }
  }

  // ---- what rehydration restores ---------------------------------------------------------------------

  predicate HasInputs(s: Setup) { Given(s.inputs) }

  /** `n` succeeded with a null output that was to bind `v`. */
  ghost predicate BindsNull(j: Job, res: map<Name, Record>, n: Name, v: Var) {
    n in Names(j.dag) && n in res && res[n] == Record(Success, Null) && v in DeclaredVars(Def(j.dag, n))
  }

  /** Where a null success was to overwrite a variable, either the initial data read null there, or the null
      comes back with the persisted context: there are no inputs and the key is not reserved. */
  ghost predicate NullsCoverNothing(j: Job, s: Setup, context: map<Var, Json>, res: map<Name, Record>) {
    forall n, v :: BindsNull(j, res, n, v) && (HasInputs(s) || v in RESERVED) ==> ReadVar(InitOf(s, context), v) == Null
  }

  /** What a later job's initial data hold where a null success was to bind. */
  lemma NullComesBack(s: Setup, context: map<Var, Json>, vars: map<Var, Json>, v: Var)
    requires s.reserved.Keys == RESERVED && v in vars && vars[v] == Null
    ensures ReadVar(InitOf(s, Redact(vars)), v)
            == if HasInputs(s) || v in RESERVED then ReadVar(InitOf(s, context), v) else Null
  {
  }

  lemma NullIsBound(j: Job, init: map<Var, Json>, m: Mem, n: Name, v: Var)
    requires DisjointWrites(FlowOf(j)) && JobContract(FlowOf(j), map[], init, m) && BindsNull(j, m.results, n, v)
    ensures v in Writes(FlowOf(j), n) && v in m.vars && m.vars[v] == Null
    ensures ReadVar(FlowOf(j).bindings(n, Null), v) == Null
  {
    hide Own, Explained;
    BindingKeys(j.world, Def(j.dag, n), Null);
    NullMapping(Def(j.dag, n).outputs);
    assert Publishes(map[], m.results, n);
    assert SameAt(m.vars, FlowOf(j).bindings(n, Null), v);
  }

  /** `m1` ran a workflow to its end; `m2` is a later job, which takes over all its rows and starts from its
      own initial data. Both leave the same context to readers exactly when no null success was to overwrite
      something that the later job starts with. */
  lemma JobReplaysExactly(
    j: Job, s: Setup, context: map<Var, Json>, m1: Mem, landed: seq<Write>, m2: Mem)
    requires DisjointWrites(FlowOf(j)) && AllRecordable(m1.results) && s.reserved.Keys == RESERVED
    requires RanSingle(j, map[], s, context, m1) && Landed(m1, landed)
    requires RanSingle(j, Apply(map[], landed), s, Redact(m1.vars), m2)
    ensures ReadAlike(m2.vars, m1.vars) <==> NullsCoverNothing(j, s, context, m1.results)
  {
    var f, res, init2 := FlowOf(j), m1.results, InitOf(s, Redact(m1.vars));
    TakenOverWhole(j, s, context, m1, landed, m2);
    FlowOfValid(j);
    ResumedInitialData(f, s, context, res, m1.vars);
    ReplayRestoresExactly(f, InitOf(s, context), init2, res, m1.vars, m2.vars);
    forall v
      ensures ReplayedAt(f, init2, res, v) <==> NullCoversNothingAt(j, s, context, res, v)
    {
      ReplayedExactlyAt(j, s, context, m1, v);
    }
    NullsAt(j, s, context, res);
  }

  ghost predicate NullCoversNothingAt(j: Job, s: Setup, context: map<Var, Json>, res: map<Name, Record>, v: Var) {
    forall n :: BindsNull(j, res, n, v) && (HasInputs(s) || v in RESERVED) ==> ReadVar(InitOf(s, context), v) == Null
  }

  lemma NullsAt(j: Job, s: Setup, context: map<Var, Json>, res: map<Name, Record>)
    ensures NullsCoverNothing(j, s, context, res) <==> forall v :: NullCoversNothingAt(j, s, context, res, v)
  {
    if forall v :: NullCoversNothingAt(j, s, context, res, v) {
      forall n, v | BindsNull(j, res, n, v) && (HasInputs(s) || v in RESERVED)
        ensures ReadVar(InitOf(s, context), v) == Null
      {
        assert NullCoversNothingAt(j, s, context, res, v);
      }
    }
  }

  lemma ReplayedExactlyAt(j: Job, s: Setup, context: map<Var, Json>, m: Mem, v: Var)
    requires DisjointWrites(FlowOf(j)) && s.reserved.Keys == RESERVED
    requires JobContract(FlowOf(j), map[], InitOf(s, context), m)
    ensures ReplayedAt(FlowOf(j), InitOf(s, Redact(m.vars)), m.results, v)
       <==> NullCoversNothingAt(j, s, context, m.results, v)
  {
    forall n
      ensures n in m.results && m.results[n] == Record(Success, Null) && v in Writes(FlowOf(j), n)
         <==> BindsNull(j, m.results, n, v)
      ensures BindsNull(j, m.results, n, v) ==>
                && ReadVar(FlowOf(j).bindings(n, Null), v) == Null
                && ReadVar(InitOf(s, Redact(m.vars)), v)
                   == if HasInputs(s) || v in RESERVED then ReadVar(InitOf(s, context), v) else Null
    {
      if n in Names(j.dag) {
        BindingKeys(j.world, Def(j.dag, n), Null);
      }
      if BindsNull(j, m.results, n, v) {
        NullIsBound(j, InitOf(s, context), m, n, v);
        NullComesBack(s, context, m.vars, v);
      }
    }
  }

  /** A job over the rows of a finished workflow takes all of them over. */
  lemma TakenOverWhole(j: Job, s: Setup, context: map<Var, Json>, m1: Mem, landed: seq<Write>, m2: Mem)
    requires AllRecordable(m1.results) && RanSingle(j, map[], s, context, m1) && Landed(m1, landed)
    requires RanSingle(j, Apply(map[], landed), s, Redact(m1.vars), m2)
    ensures JobContract(FlowOf(j), map[], InitOf(s, context), m1)
    ensures JobContract(FlowOf(j), m1.results, InitOf(s, Redact(m1.vars)), m2) && m2.results == m1.results
  {
    hide JobContract, AllRecordable;
    var none: Table := map[];
    assert Hydrated(j.dag, Load(none)) == map[];
    FlowOfValid(j);
    RowsHoldAfter(FlowOf(j), InitOf(s, context), none, m1, landed);
    HydratedWhole(j.dag, Apply(none, landed), m1.results);
    NothingLeft(FlowOf(j), m1.results, InitOf(s, Redact(m1.vars)), m2);
  }

  lemma NothingLeft(f: Flow, res: map<Name, Record>, init: map<Var, Json>, m: Mem)
    requires JobContract(f, res, init, m) && res.Keys == Names(f.dag)
    ensures m.results == res
  {
  }

  lemma HydratedWhole(d: Dag, t: Table, res: map<Name, Record>)
    requires RowsHold(d, t, res) && AllRecordable(res)
    ensures Hydrated(d, Load(t)) == res
  {
    RespondNone(t);
    RespondedRows(d, t, res, map[]);
    assert Responded(res, map[]) == res;
  }

  // ---- one round of answers ------------------------------------------------------------------------------------

  /** The responses given before a job, several or none, the job, and the order in which its writes land. */
  datatype Answer = Answer(answers: map<Name, Json>, m: Mem, landed: seq<Write>)

  /** The job in whose plugin world the answered nodes answer at once. */
  function Answering(j: Job, answers: map<Name, Json>): Job { j.(world := AnswerWorld(j.world, answers)) }

  /** `a` answers nodes that wait in `res`; the worker resumes `job` from the rows and from the persisted
      context, as a single run that does not abort. `j` is `job` with the earlier answers given at once. */
  ghost predicate AnswerOK(
    job: Job, j: Job, s: Setup, t: Table, res: map<Name, Record>, vars: map<Var, Json>, a: Answer)
  {
    && Answerable(res, a.answers) && (forall w :: w in a.answers ==> !IsWaiting(a.answers[w]))
    && NonNullOutputs(FlowOf(job), res)
    && RanSingle(job, RespondAll(t, a.answers), s, Redact(vars), a.m) && !a.m.aborted && Landed(a.m, a.landed)
    && Local(FlowOf(Answering(j, a.answers)))
  }

  function StageOf(j: Job, s: Setup, vars: map<Var, Json>, a: Answer): Stage {
    Stage(a.answers, FlowOf(Answering(j, a.answers)), InitOf(s, Redact(vars)), a.m.results, a.m.seen, a.m.vars)
  }

  lemma WaitingIsNotBatch(j: Job, init: map<Var, Json>, res: map<Name, Record>, seen: map<Name, Ctx>, w: Name)
    requires PartialRun(FlowOf(j), map[], init, res, seen) && w in res && res[w].status == Waiting
    ensures w in Names(j.dag) && !Def(j.dag, w).hasBatchOver
  {
    assert Explained(FlowOf(j), map[], init, res, seen, w);
    assert Own(FlowOf(j), w, seen[w]).record.status == Waiting;
    BatchNeverWaits(j, w, seen[w]);
  }

  /** Only a single call can ask to wait: a batch wraps its items' answers. */
  lemma BatchNeverWaits(j: Job, n: Name, c: Ctx)
    requires n in Names(j.dag) && Own(FlowOf(j), n, c).record.status == Waiting
    ensures !Def(j.dag, n).hasBatchOver
  {
    var p := Prefix(j, n, c);
    assert FlowOf(j).prefix(n, c) == p;
    if p.Launched? {
      assert FlowOf(j).complete(n, c, p.launch) == Complete(j, n, c, p.launch);
    }
  }

  lemma NoAbortsUnlessAborted(f: Flow, hyd: map<Name, Record>, init: map<Var, Json>, m: Mem)
    requires JobContract(f, hyd, init, m)
    ensures !m.aborted <==> NoAborts(f, hyd, m.results, m.seen)
  {
  }

  lemma SameBindings(j: Job, j': Job)
    requires j'.dag == j.dag && j'.world.primary == j.world.primary
    ensures forall n, output :: FlowOf(j').bindings(n, output) == FlowOf(j).bindings(n, output)
    ensures forall n :: Writes(FlowOf(j'), n) == Writes(FlowOf(j), n)
  {
    forall n, output
      ensures FlowOf(j').bindings(n, output) == FlowOf(j).bindings(n, output)
    {
      if n in Names(j.dag) {
        assert PrimaryOutput(j'.world, Def(j.dag, n), output) == PrimaryOutput(j.world, Def(j.dag, n), output);
      }
    }
  }

  /** What the worker's job means on results alone. */
  lemma ResumedJob(job: Job, s: Setup, t: Table, res: map<Name, Record>, vars: map<Var, Json>, a: Answer)
    requires RowsHold(job.dag, t, res) && DisjointWrites(FlowOf(job)) && Answerable(res, a.answers)
    requires RanSingle(job, RespondAll(t, a.answers), s, Redact(vars), a.m) && !a.m.aborted && Landed(a.m, a.landed)
    ensures var f, hyd, init := FlowOf(job), Responded(res, a.answers), InitOf(s, Redact(vars));
            && CompleteRun(f, hyd, init, a.m.results, a.m.seen) && NoAborts(f, hyd, a.m.results, a.m.seen)
            && VarsOK(f, hyd, init, a.m.results, a.m.vars)
    ensures RowsHold(job.dag, Apply(RespondAll(t, a.answers), a.landed), a.m.results)
  {
    var f, hyd, init := FlowOf(job), Responded(res, a.answers), InitOf(s, Redact(vars));
    RespondedRows(job.dag, t, res, a.answers);
    assert JobContract(f, hyd, init, a.m);
    NoAbortsUnlessAborted(f, hyd, init, a.m);
    FlowOfValid(job);
    RowsHoldAfter(f, init, RespondAll(t, a.answers), a.m, a.landed);
  }

  lemma AnswerIsStage(
    job: Job, j: Job, s: Setup, context: map<Var, Json>, t: Table,
    res: map<Name, Record>, seen: map<Name, Ctx>, vars: map<Var, Json>, a: Answer)
    requires j.dag == job.dag && j.world.primary == job.world.primary
    requires DisjointWrites(FlowOf(job)) && s.reserved.Keys == RESERVED && RowsHold(job.dag, t, res)
    requires FreshRun(FlowOf(j), InitOf(s, context), res, seen, vars) && AnswerOK(job, j, s, t, res, vars, a)
    ensures StageOK(FlowOf(job), FlowOf(j), InitOf(s, context), res, StageOf(j, s, vars, a))
  {
    ResumedJob(job, s, t, res, vars, a);
    forall w | w in a.answers
      ensures w in Names(j.dag) && !Def(j.dag, w).hasBatchOver
    {
      WaitingIsNotBatch(j, InitOf(s, context), res, seen, w);
    }
    AnswerWorldAnswers(j, a.answers);
    FlowOfValid(Answering(j, a.answers));
    SameBindings(job, j);
    SameBindings(job, Answering(j, a.answers));
    ResumedInitialData(FlowOf(j), s, context, res, vars);
  }

  // ---- any number of answers -----------------------------------------------------------------------

  /** Each answer is given where the one before it left the rows and the context. */
  ghost predicate AnswerChain(
    job: Job, j: Job, s: Setup, t: Table, res: map<Name, Record>, vars: map<Var, Json>, answers: seq<Answer>)
    decreases |answers|
  {
    answers == [] ||
    (var a := answers[0];
     && AnswerOK(job, j, s, t, res, vars, a)
     && AnswerChain(job, Answering(j, a.answers), s, Apply(RespondAll(t, a.answers), a.landed), a.m.results, a.m.vars,
                    answers[1..]))
  }

  /** The job that gives all the answers at once. */
  function WithAnswers(j: Job, answers: seq<Answer>): Job
    decreases |answers|
  {
    if answers == [] then j else WithAnswers(Answering(j, answers[0].answers), answers[1..])
  }

  /** The memory of the last job. */
  function LastJob(m: Mem, answers: seq<Answer>): Mem {
    if answers == [] then m else answers[|answers| - 1].m
  }

  /** Between two jobs of `job`: the rows and the context are those of a fresh run `m` of `j`, which gives
      the answers for `answered` at once. */
  ghost predicate BetweenJobs(
    job: Job, j: Job, answered: set<Name>, s: Setup, context: map<Var, Json>, t: Table, m: Mem, seen: map<Name, Ctx>)
  {
    && j.dag == job.dag && j.world.primary == job.world.primary && RowsHold(job.dag, t, m.results)
    && SameOutside(FlowOf(job), FlowOf(j), answered)
    && (forall n :: n in answered ==> n in m.results && m.results[n].status == Success)
    && FreshRun(FlowOf(j), InitOf(s, context), m.results, seen, m.vars)
  }

  lemma AnswerStep(
    job: Job, j: Job, answered: set<Name>, order: seq<Name>, s: Setup, context: map<Var, Json>, t: Table,
    m: Mem, seen: map<Name, Ctx>, a: Answer)
    requires DisjointWrites(FlowOf(job)) && s.reserved.Keys == RESERVED
    requires TopologicalOrder(job.dag, order) && KnownEndpoints(job.dag)
    requires BetweenJobs(job, j, answered, s, context, t, m, seen) && AnswerOK(job, j, s, t, m.results, m.vars, a)
    ensures BetweenJobs(job, Answering(j, a.answers), answered + a.answers.Keys, s, context,
                        Apply(RespondAll(t, a.answers), a.landed), a.m,
                        Joined(Responded(m.results, a.answers), a.answers.Keys, seen, a.m.seen))
  {
    var stage := StageOf(j, s, m.vars, a);
    FlowOfValid(j);
    AnswerIsStage(job, j, s, context, t, m.results, seen, m.vars, a);
    ResumedJob(job, s, t, m.results, m.vars, a);
    NextStage(FlowOf(job), FlowOf(j), answered, order, InitOf(s, context), m.results, seen, m.vars, stage);
    AnsweredOutside(FlowOf(job), FlowOf(j), stage.flow, answered, a.answers);
    AnswersStay(FlowOf(job), FlowOf(j), answered, m.results, stage);
  }

  lemma ChainTail(j: Job, m: Mem, answers: seq<Answer>)
    requires answers != []
    ensures var a := answers[0];
            && WithAnswers(Answering(j, a.answers), answers[1..]) == WithAnswers(j, answers)
            && LastJob(a.m, answers[1..]) == LastJob(m, answers)
  {
  }

  /** The jobs of the chain together are one fresh run of the workflow that gives all answers at once. */
  lemma {:induction false} AnswersJoin(
    job: Job, j: Job, answered: set<Name>, order: seq<Name>, s: Setup, context: map<Var, Json>, t: Table,
    m: Mem, seen: map<Name, Ctx>, answers: seq<Answer>) returns (joined: map<Name, Ctx>)
    requires DisjointWrites(FlowOf(job)) && s.reserved.Keys == RESERVED
    requires TopologicalOrder(job.dag, order) && KnownEndpoints(job.dag)
    requires BetweenJobs(job, j, answered, s, context, t, m, seen)
    requires AnswerChain(job, j, s, t, m.results, m.vars, answers)
    ensures FreshRun(FlowOf(WithAnswers(j, answers)), InitOf(s, context), LastJob(m, answers).results, joined,
                     LastJob(m, answers).vars)
    decreases |answers|
  {
    if answers == [] {
      joined := seen;
    } else {
      var a := answers[0];
      AnswerStep(job, j, answered, order, s, context, t, m, seen, a);
      joined := AnswersJoin(job, Answering(j, a.answers), answered + a.answers.Keys, order, s, context,
                            Apply(RespondAll(t, a.answers), a.landed), a.m,
                            Joined(Responded(m.results, a.answers), a.answers.Keys, seen, a.m.seen), answers[1..]);
      ChainTail(j, m, answers);
    }
  }

  /** The first job, its writes landed, is such a run. */
  lemma FirstJob(job: Job, s: Setup, context: map<Var, Json>, m: Mem, landed: seq<Write>)
    requires DisjointWrites(FlowOf(job)) && RanSingle(job, map[], s, context, m) && !m.aborted && Landed(m, landed)
    ensures BetweenJobs(job, job, {}, s, context, Apply(map[], landed), m, m.seen)
  {
    var none: Table := map[];
    assert Hydrated(job.dag, Load(none)) == map[];
    FlowOfValid(job);
    RowsHoldAfter(FlowOf(job), InitOf(s, context), none, m, landed);
    NoAbortsUnlessAborted(FlowOf(job), map[], InitOf(s, context), m);
  }

  /** Pause/resume equivalence for the worker, over any number of pauses. The first job of an execution runs
      from no rows; each later one is started by a response and runs from the rows it finds, as its
      predecessor's writes left them in whatever order they landed, and from its own initial data. If all are
      single runs, none aborts, successes that bind variables are non-null, no variable has two writers and
      nodes read only what their ancestors provide, then one uninterrupted job whose plugins give all the
      answers at once is not aborted either and ends with the results and the context of the last one. */
  lemma WorkerManyPauses(
    job: Job, order: seq<Name>, s: Setup, context: map<Var, Json>, m1: Mem, landed: seq<Write>,
    answers: seq<Answer>, direct: Mem)
    requires WellFormed(job.dag) && TopologicalOrder(job.dag, order) && s.reserved.Keys == RESERVED
    requires DisjointWrites(FlowOf(job)) && Local(FlowOf(WithAnswers(job, answers)))
    requires RanSingle(job, map[], s, context, m1) && !m1.aborted && Landed(m1, landed)
    requires AnswerChain(job, job, s, Apply(map[], landed), m1.results, m1.vars, answers)
    requires RanSingle(WithAnswers(job, answers), map[], s, context, direct)
    ensures !direct.aborted
    ensures direct.results == LastJob(m1, answers).results && direct.vars == LastJob(m1, answers).vars
  {
    var none: Table := map[];
    var g, init, last := FlowOf(WithAnswers(job, answers)), InitOf(s, context), LastJob(m1, answers);
    FirstJob(job, s, context, m1, landed);
    var joined := AnswersJoin(job, job, {}, order, s, context, Apply(none, landed), m1, m1.seen, answers);
    WithAnswersShape(job, answers);
    FlowOfValid(WithAnswers(job, answers));
    SameBindings(job, WithAnswers(job, answers));
    assert Hydrated(job.dag, Load(none)) == map[];
    NoAbortsUnlessAborted(g, map[], init, direct);
    SameAsUnaborted(g, order, init, last.results, joined, last.vars, direct.results, direct.seen, direct.vars);
  }

  lemma {:induction false} WithAnswersShape(j: Job, answers: seq<Answer>)
    ensures WithAnswers(j, answers).dag == j.dag && WithAnswers(j, answers).world.primary == j.world.primary
    decreases |answers|
  {
    if answers != [] {
      WithAnswersShape(Answering(j, answers[0].answers), answers[1..]);
    }
  }

  lemma OneResponse(d: Dag, t: Table, res: map<Name, Record>, w: Name, out: Json)
    requires RowsHold(d, t, res) && w in res
    ensures Respond(t, w, out) == RespondAll(t, map[w := out])
  {
    RespondNone(t);
    RespondOneMore(t, map[], w, out);
  }

  lemma OneAnswer(job: Job, s: Setup, t: Table, m: Mem, a: Answer)
    requires AnswerOK(job, job, s, t, m.results, m.vars, a)
    ensures AnswerChain(job, job, s, t, m.results, m.vars, [a])
    ensures WithAnswers(job, [a]) == Answering(job, a.answers) && LastJob(m, [a]) == a.m
  {
    assert [a][1..] == [];
  }

  /** One pause. */
  lemma WorkerPauseResume(
    job: Job, order: seq<Name>, s: Setup, context: map<Var, Json>, w: Name, out: Json,
    paused: Mem, landed: seq<Write>, resumed: Mem, direct: Mem)
    requires WellFormed(job.dag) && TopologicalOrder(job.dag, order) && s.reserved.Keys == RESERVED
    requires !IsWaiting(out) && out != Null
    requires DisjointWrites(FlowOf(job)) && Local(FlowOf(Answering(job, map[w := out])))
    requires RanSingle(job, map[], s, context, paused) && !paused.aborted && Landed(paused, landed)
    requires w in paused.results && paused.results[w].status == Waiting && NonNullOutputs(FlowOf(job), paused.results)
    requires RanSingle(job, Respond(Apply(map[], landed), w, out), s, Redact(paused.vars), resumed) && !resumed.aborted
    requires RanSingle(Answering(job, map[w := out]), map[], s, context, direct)
    ensures !direct.aborted && direct.results == resumed.results && direct.vars == resumed.vars
  {
    hide JobContract, Local, AnswerChain, DisjointWrites, WellFormed, TopologicalOrder, RowsHold;
    var answers := [Answer(map[w := out], resumed, resumed.writes)];
    FirstJob(job, s, context, paused, landed);
    OneResponse(job.dag, Apply(map[], landed), paused.results, w, out);
    OneAnswer(job, s, Apply(map[], landed), paused, answers[0]);
    WorkerManyPauses(job, order, s, context, paused, landed, answers, direct);
  }
}
