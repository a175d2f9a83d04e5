/** An execution from its first job to its last, through the store, the handlers and the worker. */
module EndToEnd {
  import opened Common
  import opened Dags
  import opened NodeRun
  import opened Semantics
  import opened JobResults
  import opened Executor
  import opened NodeStates
  import opened ExecutionStore
  import opened PauseResume
  import opened Theorems
  import opened WorkerResume

  /** The memory of a finished job, as its report shows it. */
  ghost function Final(r: Report, calls: map<Name, nat>): Mem {
    Mem(r.nodes, r.ctx.vars, r.aborted, map[], r.seen, calls, r.writes)
  }

  /** The job paused at `w` without aborting. */
  ghost predicate PausedAt(r: Report, w: Name) {
    !r.aborted && w in r.nodes && r.nodes[w].status == Waiting
  }

  /** The pause theorem applies to this execution: the first job was a single run that paused at `w`, the
      context it left lets the resumed one be a single run too, that one did not abort, and the order in
      which plugin calls return does not matter. */
  ghost predicate Applies(
    job: Job, order: seq<Name>, s: Setup, context: map<Var, Json>, w: Name, out: Json, paused: JobRun, resumed: JobRun)
  {
    && TopologicalOrder(job.dag, order) && DisjointWrites(FlowOf(job)) && Local(FlowOf(Answering(job, map[w := out])))
    && !RunsAsBatch(s.inputs, context) && paused.Single? && PausedAt(paused.report, w)
    && NonNullOutputs(FlowOf(job), paused.report.nodes)
    && !RunsAsBatch(s.inputs, Redact(paused.report.ctx.vars)) && resumed.Single? && !resumed.report.aborted
  }

  /** A waiting node's row waits once the writes have drained, so its response is accepted. */
  lemma WaitingRow(j: Job, init: map<Var, Json>, r: Report, calls: map<Name, nat>, landed: seq<Write>, w: Name)
    requires Ran(j, map[], init, r, calls) && forall n :: WritesOf(landed, n) == WritesOf(r.writes, n)
    requires w in r.nodes && r.nodes[w].status == Waiting
    ensures var rows := Apply(map[], landed); w in rows && rows[w].status == Waiting
  {
    var none: Table := map[];
    FlowOfValid(j);
    RowsHoldAfter(FlowOf(j), init, none, Final(r, calls), landed);
    assert RowsHold(j.dag, Apply(none, landed), r.nodes);
  }

  /** The resumed job takes the answer over: the answered node's record is a success that holds it. */
  lemma AnswerIsKept(
    j: Job, rows: Table, init: map<Var, Json>, r: Report, calls: map<Name, nat>, w: Name, body: Json, now: string)
    requires Ran(j, rows, init, r, calls) && w in Names(j.dag)
    requires w in rows && rows[w].status == Success && HoldsAnswer(rows[w].output, body, now)
    ensures w in r.nodes && r.nodes[w].status == Success && HoldsAnswer(r.nodes[w].output, body, now)
  {
    hide JobContract, HoldsAnswer;
    TakenOverOrRun(FlowOf(j), init, Load(rows), Final(r, calls));
  }

  /** The execution's own two jobs: run until it pauses, answer it, run the resumed job. Each is a single run
      exactly when inputs and persisted context say so. */
  method AnswerLater(dag: Dag, world: World, s: Setup, context: map<Var, Json>, w: Name, body: Json, now: string)
    returns (paused: JobRun, accepted: bool, resumed: JobRun, ghost landed: seq<Write>,
             ghost calls1: map<Name, nat>, ghost calls2: map<Name, nat>)
    requires WellFormed(dag)
    ensures paused.Single? <==> !RunsAsBatch(s.inputs, context)
    ensures accepted ==> paused.Single?
    ensures paused.Single? ==>
              && Ran(Job(dag, world, map[]), map[], InitOf(s, context), paused.report, calls1)
              && (forall n :: WritesOf(landed, n) == WritesOf(paused.report.writes, n))
              && (accepted <==> var rows := Apply(map[], landed); w in rows && rows[w].status == Waiting)
    ensures accepted ==> (resumed.Single? <==> !RunsAsBatch(s.inputs, Redact(paused.report.ctx.vars)))
    ensures accepted && resumed.Single? ==>
              && resumed.report.status == Aggregate(resumed.report.aborted, resumed.report.nodes)
              && resumed.report.ctx.nodes == resumed.report.nodes
              && Ran(Job(dag, world, map[]), Respond(Apply(map[], landed), w, ResponseOutput(body, now)),
                     InitOf(s, Redact(paused.report.ctx.vars)), resumed.report, calls2)
    ensures accepted && resumed.Single? && w in Names(dag) ==>
              w in resumed.report.nodes && resumed.report.nodes[w].status == Success
              && HoldsAnswer(resumed.report.nodes[w].output, body, now)
  {
    var store := new Store(s.inputs, context);
    ghost var made;
    paused, made, landed := store.ProcessJob(dag, world, s.data, s.reserved);
    calls1, calls2 := if paused.Single? then made[0] else map[], map[];
    var answer := store.Respond(w, body, now);
    accepted, resumed := answer.Ok?, paused;
    if accepted {
      ghost var landed2, rows, left := [], store.rows, store.context;
      resumed, made, landed2 := store.ProcessJob(dag, world, s.data, s.reserved);
      calls2 := if resumed.Single? then made[0] else map[];
      if resumed.Single? && w in Names(dag) {
        AnswerIsKept(Job(dag, world, map[]), rows, InitOf(s, left), resumed.report, calls2, w, body, now);
      }
    }
  }

  /** Run an execution until it pauses, answer it, run the resumed job; beside it, run the workflow whose
      plugin answers at once. Wherever the pause theorem applies, the response is accepted and both ways end
      with the same status, the same records and the same context. */
  method PauseAnswerResume(
    dag: Dag, world: World, s: Setup, context: map<Var, Json>, w: Name, body: Json, now: string, ghost order: seq<Name>)
    returns (paused: JobRun, accepted: bool, resumed: JobRun, direct: Report)
    requires WellFormed(dag) && s.reserved.Keys == RESERVED
    ensures paused.Single? <==> !RunsAsBatch(s.inputs, context)
    ensures paused.Single? && PausedAt(paused.report, w) ==> accepted
    ensures accepted ==>
              paused.Single? && (resumed.Single? <==> !RunsAsBatch(s.inputs, Redact(paused.report.ctx.vars)))
    ensures Applies(Job(dag, world, map[]), order, s, context, w, ResponseOutput(body, now), paused, resumed) ==>
              && !direct.aborted && resumed.report.status == direct.status
              && resumed.report.nodes == direct.nodes && resumed.report.ctx == direct.ctx
              && w in direct.nodes && direct.nodes[w].status == Success
              && HoldsAnswer(direct.nodes[w].output, body, now)
  {
    ghost var landed, calls1, calls2, calls3;
    paused, accepted, resumed, landed, calls1, calls2 := AnswerLater(dag, world, s, context, w, body, now);
    direct, calls3 := RunJob(Job(dag, AnswerWorld(world, map[w := ResponseOutput(body, now)]), map[]),
                             InitOf(s, context), map[]);
    Conclude(Job(dag, world, map[]), order, s, context, w, ResponseOutput(body, now), landed, paused, calls1, accepted,
             resumed, calls2, direct, calls3);
  }

  lemma Conclude(
    job: Job, order: seq<Name>, s: Setup, context: map<Var, Json>, w: Name, out: Json, landed: seq<Write>,
    paused: JobRun, calls1: map<Name, nat>, accepted: bool, resumed: JobRun, calls2: map<Name, nat>,
    direct: Report, calls3: map<Name, nat>)
    requires WellFormed(job.dag) && s.reserved.Keys == RESERVED && out != Null && !IsWaiting(out)
    requires paused.Single? ==>
               && Ran(job, map[], InitOf(s, context), paused.report, calls1)
               && (forall n :: WritesOf(landed, n) == WritesOf(paused.report.writes, n))
               && (accepted <==> var rows := Apply(map[], landed); w in rows && rows[w].status == Waiting)
    requires paused.Single? && accepted && resumed.Single? ==>
               Ran(job, Respond(Apply(map[], landed), w, out), InitOf(s, Redact(paused.report.ctx.vars)),
                   resumed.report, calls2)
    requires Ran(Answering(job, map[w := out]), map[], InitOf(s, context), direct, calls3)
    ensures paused.Single? && PausedAt(paused.report, w) ==> accepted
    ensures Applies(job, order, s, context, w, out, paused, resumed) ==>
              && accepted && !direct.aborted
              && resumed.report.nodes == direct.nodes && resumed.report.ctx.vars == direct.ctx.vars
  {
    if paused.Single? && PausedAt(paused.report, w) {
      WaitingRow(job, InitOf(s, context), paused.report, calls1, landed, w);
      if Applies(job, order, s, context, w, out, paused, resumed) {
        WorkerPauseResume(job, order, s, context, w, out, Final(paused.report, calls1), landed,
                          Final(resumed.report, calls2), Final(direct, calls3));
      }
    }
  }
}
