/** One execution as its API handlers and its worker see it (api/executions.js, worker.js): the
    execution row, its node rows and the queued jobs. The transitions are pure functions on
    `Durable`; the class performs them step by step. */
module ExecutionStore {
  import opened Common
  import opened Dags
  import opened NodeRun
  import opened Semantics
  import opened JobResults
  import opened Executor
  import opened NodeStates
  import Batch

  datatype ExecStatus = ExQueued | ExRunning | ExSuccess | ExPartial | ExFailed | ExWaiting | ExCancelled

  /** The execution's row, its node rows and the `inputsOverride` of each queued job. The inputs never
      change; the context is what the last finished job persisted. */
  datatype Durable = Durable(
    exec: ExecStatus, rows: Table, jobs: seq<map<Name, Json>>, inputs: Json, context: map<Var, Json>)

  datatype ApiError =
    InFlight(exec: ExecStatus) | NodeRequired | NoFailedNode | NodeNotFound | NotWaiting(status: Status)

  function StatusOf(o: Overall): ExecStatus {
    match o
    case AllSuccess => ExSuccess
    case SomePartial => ExPartial
    case AllFailed => ExFailed
    case SomeWaiting => ExWaiting
  }

  // ---- transitions ------------------------------------------------------------------

  /** The rows changed and one more job queued. */
  function Queued(s: Durable, rows: Table, overrides: map<Name, Json>): Durable {
    s.(exec := ExQueued, rows := rows, jobs := s.jobs + [overrides])
  }

  predicate IsObject(v: Json) { v.Obj? || v.Arr? }

  function ResumedRows(rows: Table, target: Name, inputs: Json): Table {
    var reset := Reset(rows, target, Pending);
    if IsObject(inputs) then Upsert(reset, target, Partial(Pending, Null, Some(inputs))) else reset
  }

  /** `/resume` of `target`, with optional edited inputs. */
  function ResumeStep(s: Durable, target: Name, inputs: Json): Durable {
    Queued(s, ResumedRows(s.rows, target, inputs), if IsObject(inputs) then map[target := inputs] else map[])
  }

  function SkipStep(s: Durable, node: Name): Durable {
    Queued(s, Reset(s.rows, node, Skipped), map[])
  }

  /** The posted body, or its `data` field when it has one. */
  function ResponseData(body: Json): Json {
    if body.Obj? && "data" in body.fields then body.fields["data"] else body
  }

  function ResponseOutput(body: Json, now: string): Json {
    Obj(map["data" := ResponseData(body), "respondedAt" := Str(now)])
  }

  function RespondStep(s: Durable, node: Name, output: Json): Durable {
    Queued(s, Upsert(s.rows, node, Partial(Success, output, None)), map[])
  }

  function ReapStep(s: Durable): Durable {
    if s.exec == ExRunning then s.(exec := ExFailed, rows := ReapRows(s.rows)) else s
  }

  // ---- initial data -----------------------------------------------------------------

  /** Context keys that the worker rebuilds for every job and strips before persisting. */
  const RESERVED: set<Var> :=
    {"config", "env", "memory", "execution", "_ancestors", "_parsed", "_tokens", "_fireCount"}

  /** What a job starts from: the user's inputs or, when there are none, the persisted context. */
  function UserContext(inputs: Json, context: map<Var, Json>): Json {
    match inputs
    case Arr(_) => inputs
    case Obj(fields) => if fields != map[] then inputs else Obj(context)
    case Str(text) => if text != "" then inputs else Obj(context)
    case _ => Obj(context)
  }

  /** The items of a batch: an array, or the array under `items`. */
  function BatchItems(user: Json): Option<seq<Json>> {
    match user
    case Arr(items) => Some(items)
    case Obj(fields) => if "items" in fields && fields["items"].Arr? then Some(fields["items"].items) else None
    case _ => None
  }

  /** The worker's choice for every job, a resumed one too: a batch, or a single run. */
  predicate RunsAsBatch(inputs: Json, context: map<Var, Json>) {
    BatchItems(UserContext(inputs, context)).Some?
  }

  predicate HasItems(vars: map<Var, Json>) { "items" in vars && vars["items"].Arr? }

  /** The root context of a single run: the workflow's `data`, then what the user gave or the persisted
      context, then the reserved keys. */
  function JobInit(
    data: map<Var, Json>, inputs: Json, context: map<Var, Json>, reserved: map<Var, Json>): map<Var, Json>
  {
    var user := UserContext(inputs, context);
    data + (if user.Obj? then user.fields else map[]) + reserved
  }

  /** The root context of one item of a batch; the reserved keys are not passed on. */
  function ItemInit(data: map<Var, Json>, item: Json): map<Var, Json> {
    match item
    case Obj(fields) => data + fields
    case Arr(_) => data
    case _ => data["input" := item]
  }

  function Redact(vars: map<Var, Json>): map<Var, Json> { vars - RESERVED }

  // ---- what a job starts from and leaves, said outright ---------------------------------

  /** The execution was given inputs. */
  predicate Given(inputs: Json) {
    inputs.Arr? || (inputs.Obj? && inputs.fields != map[]) || (inputs.Str? && inputs.text != "")
  }

  /** `items` is what a batch of this execution runs over: the given array or the array given under `items`,
      or, with nothing given, the array that the persisted context holds there. */
  ghost predicate GivenItems(inputs: Json, context: map<Var, Json>, items: seq<Json>) {
    || inputs == Arr(items)
    || (Given(inputs) && inputs.Obj? && "items" in inputs.fields && inputs.fields["items"] == Arr(items))
    || (!Given(inputs) && "items" in context && context["items"] == Arr(items))
  }

  lemma BatchItemsExact(inputs: Json, context: map<Var, Json>, items: seq<Json>)
    ensures BatchItems(UserContext(inputs, context)) == Some(items) <==> GivenItems(inputs, context, items)
  {
  }

  lemma WhichItems(inputs: Json, context: map<Var, Json>)
    ensures BatchItems(UserContext(inputs, context)).None? <==> forall items :: !GivenItems(inputs, context, items)
    ensures var b := BatchItems(UserContext(inputs, context)); b.Some? ==> GivenItems(inputs, context, b.value)
  {
    var b := BatchItems(UserContext(inputs, context));
    if b.Some? {
      BatchItemsExact(inputs, context, b.value);
    } else {
      forall items
        ensures !GivenItems(inputs, context, items)
      {
        BatchItemsExact(inputs, context, items);
      }
    }
  }

  /** `vars` reads at `v` what a single run starts with there: the reserved value, what the user gave, with
      nothing given what the persisted context holds, and last the workflow's own data. */
  ghost predicate ReadsInitial(
    vars: map<Var, Json>, data: map<Var, Json>, inputs: Json, context: map<Var, Json>, reserved: map<Var, Json>, v: Var)
  {
    if v in reserved then SameAt(vars, reserved, v)
    else if inputs.Obj? && v in inputs.fields then SameAt(vars, inputs.fields, v)
    else if !Given(inputs) && v in context then SameAt(vars, context, v)
    else SameAt(vars, data, v)
  }

  /** What no node of `f` writes, `vars` reads as a single run starts with it. */
  ghost predicate StartedFrom(
    f: Flow, vars: map<Var, Json>, data: map<Var, Json>, inputs: Json, context: map<Var, Json>,
    reserved: map<Var, Json>)
  {
    forall v :: NobodyWrites(f, v) ==> ReadsInitial(vars, data, inputs, context, reserved, v)
  }

  /** The same for one item of a batch: its own fields, or the item under `input` when it is no object. */
  ghost predicate ReadsItem(vars: map<Var, Json>, data: map<Var, Json>, item: Json, v: Var) {
    if item.Obj? && v in item.fields then SameAt(vars, item.fields, v)
    else if v == "input" && !item.Obj? && !item.Arr? then v in vars && vars[v] == item
    else SameAt(vars, data, v)
  }

  ghost predicate ItemStartedFrom(f: Flow, vars: map<Var, Json>, data: map<Var, Json>, item: Json) {
    forall v :: NobodyWrites(f, v) ==> ReadsItem(vars, data, item, v)
  }

  /** `context` is what may be stored of `vars`: everything but the keys that are rebuilt for every job, among
      them the decrypted configuration. */
  ghost predicate Stored(context: map<Var, Json>, vars: map<Var, Json>) {
    forall v ::
      if v in {"config", "env", "memory", "execution", "_ancestors", "_parsed", "_tokens", "_fireCount"}
      then v !in context else SameAt(context, vars, v)
  }

  /** The stored summary of item `i`. */
  ghost predicate Summarises(summary: Json, i: nat, r: Report) {
    && summary.Obj? && summary.fields.Keys == {"index", "status", "ctx"}
    && summary.fields["index"] == Num(i)
    && (summary.fields["status"] == Str("success") <==> r.status == AllSuccess)
    && (summary.fields["status"] == Str("partial") <==> r.status == SomePartial)
    && (summary.fields["status"] == Str("failed") <==> r.status == AllFailed)
    && (summary.fields["status"] == Str("waiting") <==> r.status == SomeWaiting)
    && summary.fields["ctx"].Obj? && Stored(summary.fields["ctx"].fields, r.ctx.vars)
  }

  /** What a batch stores: that it was one, and the summaries in item order. */
  ghost predicate StoredBatch(context: map<Var, Json>, reports: seq<Report>) {
    && context.Keys == {"batch", "items"} && context["batch"] == Bool(true)
    && context["items"].Arr? && |context["items"].items| == |reports|
    && forall i :: 0 <= i < |reports| ==> Summarises(context["items"].items[i], i, reports[i])
  }

  /** The stored status of an execution after a single run. */
  ghost predicate StatusOfRun(exec: ExecStatus, aborted: bool, nodes: map<Name, Record>) {
    && (exec == ExFailed <==> aborted)
    && (exec == ExPartial <==> !aborted && exists n :: n in nodes && nodes[n].status == Failed)
    && (exec == ExWaiting <==>
          !aborted && (forall n :: n in nodes ==> nodes[n].status != Failed)
          && exists n :: n in nodes && nodes[n].status == Waiting)
    && (exec == ExSuccess <==> !aborted && forall n :: n in nodes ==> nodes[n].status !in {Failed, Waiting})
  }

  /** And after a batch. */
  ghost predicate StatusOfBatch(exec: ExecStatus, reports: seq<Report>) {
    if forall i :: 0 <= i < |reports| ==> reports[i].status == AllSuccess then exec == ExSuccess
    else if forall i :: 0 <= i < |reports| ==> reports[i].status == AllFailed then exec == ExFailed
    else exec == ExPartial
  }

  /** `was` with one row turned back to pending, without output and with the edited inputs if there are any;
      those also bring in a row that was missing. */
  ghost predicate TurnedPending(was: Table, rows: Table, n: Name, edited: Json) {
    && (forall m :: m != n ==> SameAt(rows, was, m))
    && (n in rows <==> n in was || edited.Obj? || edited.Arr?)
    && (n in rows ==>
          && rows[n].status == Pending && rows[n].output == Null
          && rows[n].inputs == if edited.Obj? || edited.Arr? then Some(edited) else was[n].inputs)
  }

  lemma ResumeTurns(was: Table, n: Name, edited: Json)
    ensures TurnedPending(was, ResumedRows(was, n, edited), n, edited)
    ensures forall d :: n !in Hydrated(d, Load(ResumedRows(was, n, edited)))
  {
  }

  /** `was` with one row, if it is there, turned to skipped and without output. */
  ghost predicate TurnedSkipped(was: Table, rows: Table, n: Name) {
    && (forall m :: m != n ==> SameAt(rows, was, m))
    && (n in rows <==> n in was)
    && (n in rows ==> rows[n].status == Skipped && rows[n].output == Null && rows[n].inputs == was[n].inputs)
  }

  /** `was` with one row turned to success; its output is an object that holds the posted answer under `data`:
      the body's own `data` where it is an object with such a field, else the whole body. */
  ghost predicate TurnedAnswered(was: Table, rows: Table, n: Name, body: Json, now: string) {
    && rows.Keys == was.Keys && n in rows && (forall m :: m != n ==> SameAt(rows, was, m))
    && rows[n].status == Success && rows[n].inputs == was[n].inputs
    && HoldsAnswer(rows[n].output, body, now)
  }

  ghost predicate HoldsAnswer(output: Json, body: Json, now: string) {
    && output.Obj? && output.fields.Keys == {"data", "respondedAt"}
    && output.fields["data"] == (if body.Obj? && "data" in body.fields then body.fields["data"] else body)
    && output.fields["respondedAt"] == Str(now)
  }

  // ---- draining the writes -------------------------------------------------------------

  function Without(s: seq<Write>, i: nat): seq<Write>
    requires i < |s|
  {
    s[..i] + s[i + 1..]
  }

  ghost predicate FirstOfItsName(s: seq<Write>, i: nat)
    requires i < |s|
  {
    forall k :: 0 <= k < i ==> s[k].name != s[i].name
  }

  ghost function PartialFor(w: Write, n: Name): seq<Partial> { if w.name == n then [w.partial] else [] }

  lemma {:induction false} TakeFirst(s: seq<Write>, i: nat, n: Name)
    requires i < |s| && FirstOfItsName(s, i)
    ensures WritesOf(s, n) == PartialFor(s[i], n) + WritesOf(Without(s, i), n)
  {
    var k := |s| - 1;
    assert WritesOf(s, n) == WritesOf(s[..k], n) + PartialFor(s[k], n);
    if i == k {
      assert Without(s, i) == s[..k];
      if s[i].name == n {
        NoneBefore(s[..k], n);
      }
      assert PartialFor(s[k], n) == [] || WritesOf(s[..k], n) == [];
    } else {
      var rest := Without(s[..k], i);
      TakeFirst(s[..k], i, n);
      WithoutLast(s, i);
      WritesOfAppend(rest, s[k], n);
      Regroup(PartialFor(s[i], n), WritesOf(rest, n), PartialFor(s[k], n));
    }
  }

  lemma WithoutLast(s: seq<Write>, i: nat)
    requires i < |s| - 1
    ensures Without(s, i) == Without(s[..|s| - 1], i) + [s[|s| - 1]]
  {
    var k := |s| - 1;
    assert s[i + 1..] == s[..k][i + 1..] + [s[k]];
  }

  lemma Regroup<T>(a: seq<T>, b: seq<T>, c: seq<T>)
    ensures (a + b) + c == a + (b + c)
  {
  }

  lemma {:induction false} NoneBefore(s: seq<Write>, n: Name)
    requires forall k :: 0 <= k < |s| ==> s[k].name != n
    ensures WritesOf(s, n) == []
  {
    if s != [] {
      NoneBefore(s[..|s| - 1], n);
    }
  }

  /** The report keeps the contract of a job that started from these rows and this initial data. */
  ghost predicate Ran(j: Job, rows: Table, init: map<Var, Json>, r: Report, calls: map<Name, nat>) {
    JobContract(FlowOf(j), Hydrated(j.dag, Load(rows)), init,
                Mem(r.nodes, r.ctx.vars, r.aborted, map[], r.seen, calls, r.writes))
  }

  method RunJob(j: Job, init: map<Var, Json>, rows: Table) returns (r: Report, ghost calls: map<Name, nat>)
    requires WellFormed(j.dag)
    ensures Ran(j, rows, init, r, calls) && r.status == Aggregate(r.aborted, r.nodes) && r.ctx.nodes == r.nodes
  {
    FlowOfValid(j);
    var initial := LoadNodeStates(rows);
    ghost var before, last;
    r, calls, before, last := ExecuteDag(FlowOf(j), init, initial);
  }

  lemma SingleStarted(
    j: Job, rows: Table, data: map<Var, Json>, inputs: Json, context: map<Var, Json>, reserved: map<Var, Json>,
    r: Report, calls: map<Name, nat>)
    requires !RunsAsBatch(inputs, context) && Ran(j, rows, JobInit(data, inputs, context, reserved), r, calls)
    ensures StartedFrom(FlowOf(j), r.ctx.vars, data, inputs, context, reserved)
  {
    var init := JobInit(data, inputs, context, reserved);
    assert Untouched(FlowOf(j), init, r.ctx.vars);
    forall v | NobodyWrites(FlowOf(j), v)
      ensures ReadsInitial(r.ctx.vars, data, inputs, context, reserved, v)
    {
      assert SameAt(r.ctx.vars, init, v);
    }
  }

  lemma RunStatus(r: Report)
    requires r.status == Aggregate(r.aborted, r.nodes)
    ensures StatusOfRun(StatusOf(r.status), r.aborted, r.nodes)
  {
    AggregateExact(r.aborted, r.nodes);
  }

  /** How a job went: one run; a run for each item; or a batch over the iteration cap, which throws. */
  datatype JobRun = Single(report: Report) | Fanned(reports: seq<Report>) | Refused

  function FanStatus(reports: seq<Report>): Overall {
    Batch.BatchStatus(seq(|reports|, i requires 0 <= i < |reports| => Batch.ItemResult(i, reports[i].status)))
  }

  function StatusText(o: Overall): string {
    match o
    case AllSuccess => "success"
    case SomePartial => "partial"
    case AllFailed => "failed"
    case SomeWaiting => "waiting"
  }

  /** What a batch persists: a summary of each item's run under `items`. */
  function BatchContext(reports: seq<Report>): map<Var, Json> {
    map["batch" := Bool(true),
        "items" := Arr(seq(|reports|, i requires 0 <= i < |reports| => Summary(i, reports[i])))]
  }

  function Summary(index: nat, r: Report): Json {
    Obj(map["index" := Num(index), "status" := Str(StatusText(r.status)), "ctx" := Obj(Redact(r.ctx.vars))])
  }

  lemma BatchContextStored(reports: seq<Report>)
    ensures StoredBatch(BatchContext(reports), reports)
  {
    forall i | 0 <= i < |reports|
      ensures Summarises(Summary(i, reports[i]), i, reports[i])
    {
    }
  }

  lemma BatchStatusStored(reports: seq<Report>)
    ensures StatusOfBatch(StatusOf(FanStatus(reports)), reports)
  {
    var results := seq(|reports|, k requires 0 <= k < |reports| => Batch.ItemResult(k, reports[k].status));
    Batch.BatchStatusExact(results);
    assert forall i :: 0 <= i < |reports| ==> results[i].status == reports[i].status;
  }

  /** Every item went through a fresh run of its own, rows or no rows. */
  ghost predicate FannedOut(
    j: Job, data: map<Var, Json>, items: seq<Json>, reports: seq<Report>, calls: seq<map<Name, nat>>)
  {
    && |reports| == |calls| == |items|
    && forall i :: 0 <= i < |items| ==> ItemRan(j, data, items[i], reports[i], calls[i])
  }

  ghost predicate ItemRan(j: Job, data: map<Var, Json>, item: Json, r: Report, calls: map<Name, nat>) {
    Ran(j, map[], ItemInit(data, item), r, calls) && r.status == Aggregate(r.aborted, r.nodes)
  }

  /** Every item's run started from that item. */
  ghost predicate ItemsStarted(f: Flow, data: map<Var, Json>, items: seq<Json>, reports: seq<Report>) {
    |reports| == |items| && forall i :: 0 <= i < |items| ==> ItemStartedFrom(f, reports[i].ctx.vars, data, items[i])
  }

  lemma FannedStarted(
    j: Job, data: map<Var, Json>, items: seq<Json>, reports: seq<Report>, calls: seq<map<Name, nat>>)
    requires FannedOut(j, data, items, reports, calls)
    ensures ItemsStarted(FlowOf(j), data, items, reports)
  {
    forall i | 0 <= i < |items|
      ensures ItemStartedFrom(FlowOf(j), reports[i].ctx.vars, data, items[i])
    {
      assert ItemRan(j, data, items[i], reports[i], calls[i]);
      var vars, init := reports[i].ctx.vars, ItemInit(data, items[i]);
      assert Untouched(FlowOf(j), init, vars);
      forall v | NobodyWrites(FlowOf(j), v)
        ensures ReadsItem(vars, data, items[i], v)
      {
        assert SameAt(vars, init, v);
      }
    }
  }

  lemma FannedSnoc(
    j: Job, data: map<Var, Json>, items: seq<Json>, i: nat, reports: seq<Report>, calls: seq<map<Name, nat>>,
    r: Report, made: map<Name, nat>)
    requires i < |items| && FannedOut(j, data, items[..i], reports, calls) && ItemRan(j, data, items[i], r, made)
    ensures FannedOut(j, data, items[..i + 1], reports + [r], calls + [made])
  {
    forall k | 0 <= k < i + 1
      ensures ItemRan(j, data, items[..i + 1][k], (reports + [r])[k], (calls + [made])[k])
    {
      if k < i {
        assert ItemRan(j, data, items[..i][k], reports[k], calls[k]);
      }
    }
  }

  /** The items one after the other; `Batch.RunPool` covers how the workers of the pool interleave. */
  method FanOut(j: Job, data: map<Var, Json>, items: seq<Json>)
    returns (reports: seq<Report>, ghost calls: seq<map<Name, nat>>)
    requires WellFormed(j.dag)
    ensures FannedOut(j, data, items, reports, calls)
  {
    reports, calls := [], [];
    for i := 0 to |items|
      invariant FannedOut(j, data, items[..i], reports, calls)
    {
      var r;
      ghost var made;
      r, made := RunJob(j, ItemInit(data, items[i]), map[]);
      assert ItemRan(j, data, items[i], r, made);
      FannedSnoc(j, data, items, i, reports, calls, r, made);
      reports, calls := reports + [r], calls + [made];
    }
    assert items[..|items|] == items;
  }

  /** Landing the next write of some node keeps every node's writes in the order they were issued. */
  lemma LandOne(log: seq<Write>, landed: seq<Write>, pending: seq<Write>, i: nat)
    requires i < |pending| && FirstOfItsName(pending, i)
    requires forall n :: WritesOf(landed, n) + WritesOf(pending, n) == WritesOf(log, n)
    ensures forall n :: WritesOf(landed + [pending[i]], n) + WritesOf(Without(pending, i), n) == WritesOf(log, n)
  {
    forall n
      ensures WritesOf(landed + [pending[i]], n) + WritesOf(Without(pending, i), n) == WritesOf(log, n)
    {
      var w := PartialFor(pending[i], n);
      WritesOfAppend(landed, pending[i], n);
      TakeFirst(pending, i, n);
      Regroup(WritesOf(landed, n), w, WritesOf(Without(pending, i), n));
      assert WritesOf(landed, n) + WritesOf(pending, n) == WritesOf(log, n);
    }
  }

  function FailedRows(rows: Table): set<Name> { set n | n in rows && rows[n].status == Failed }

  /** `a` comes before `b`, or with it, when rows are listed by ascending finish time, the missing last. */
  predicate NoLater(finishedAt: map<Name, int>, a: Name, b: Name) {
    b in finishedAt ==> a in finishedAt && finishedAt[a] <= finishedAt[b]
  }

  predicate EarliestOf(names: set<Name>, finishedAt: map<Name, int>, a: Name) {
    forall b :: b in names ==> NoLater(finishedAt, a, b)
  }

  lemma {:induction false} EarliestExists(names: set<Name>, finishedAt: map<Name, int>)
    requires names != {}
    ensures exists a :: a in names && EarliestOf(names, finishedAt, a)
  {
    var b :| b in names;
    var rest := names - {b};
    if rest == {} {
      assert names == {b};
      assert EarliestOf(names, finishedAt, b);
    } else {
      EarliestExists(rest, finishedAt);
      var a :| a in rest && EarliestOf(rest, finishedAt, a);
      assert names == rest + {b};
      assert EarliestOf(names, finishedAt, if NoLater(finishedAt, a, b) then a else b);
    }
  }

  /** The failed row that finished first; rows without a finish time come last. */
  ghost predicate FirstFailed(rows: Table, finishedAt: map<Name, int>, n: Name) {
    && n in rows && rows[n].status == Failed
    && forall m :: m in rows && rows[m].status == Failed && m in finishedAt ==>
         n in finishedAt && finishedAt[n] <= finishedAt[m]
  }

  method PickFailed(rows: Table, finishedAt: map<Name, int>) returns (r: Option<Name>)
    ensures r == None <==> forall n :: n in rows ==> rows[n].status != Failed
    ensures r.Some? ==> FirstFailed(rows, finishedAt, r.value)
  {
    var failed := FailedRows(rows);
    assert forall n :: n in rows && rows[n].status == Failed ==> n in failed;
    if failed == {} {
      return None;
    }
    EarliestExists(failed, finishedAt);
    var first :| first in failed && EarliestOf(failed, finishedAt, first);
    assert forall m :: m in failed ==> NoLater(finishedAt, first, m);
    return Some(first);
  }

  class Store {
    var exec: ExecStatus
    var rows: Table
    var jobs: seq<map<Name, Json>>
    var context: map<Var, Json>
    const inputs: Json

    constructor (inputs: Json, context: map<Var, Json>)
      ensures this.inputs == inputs && this.context == context
      ensures View() == Durable(ExQueued, map[], [map[]], inputs, context)
    {
      this.inputs, this.context := inputs, context;
      exec, rows, jobs := ExQueued, map[], [map[]];
    }

    ghost function View(): Durable
      reads this
    {
      Durable(exec, rows, jobs, inputs, context)
    }

    /** POST /executions/:id/resume. `finishedAt` is the rows' column of that name. */
    method Resume(node: Option<Name>, edited: Json, finishedAt: map<Name, int>) returns (r: Result<Name, ApiError>)
      modifies `exec, `rows, `jobs
      ensures old(exec) in {ExRunning, ExQueued} <==> r == Err(InFlight(old(exec)))
      ensures r.Err? ==> View() == old(View())
      ensures r == Err(NoFailedNode) <==>
                && old(exec) !in {ExRunning, ExQueued} && node.None?
                && forall n :: n in old(rows) ==> old(rows)[n].status != Failed
      ensures r.Ok? ==> View() == ResumeStep(old(View()), r.value, edited)
      ensures r.Ok? && node.Some? ==> r.value == node.value
      ensures r.Ok? && node.None? ==> FirstFailed(old(rows), finishedAt, r.value)
      ensures r.Ok? ==>
                && TurnedPending(old(rows), rows, r.value, edited) && exec == ExQueued
                && jobs == old(jobs) + [if edited.Obj? || edited.Arr? then map[r.value := edited] else map[]]
      ensures r.Ok? ==> forall d :: r.value !in Hydrated(d, Load(rows))
    {
      hide Upsert, Reset, TurnedPending, Hydrated;
      if exec == ExRunning || exec == ExQueued {
        return Err(InFlight(exec));
      }
      var target: Name;
      if node.Some? {
        target := node.value;
      } else {
        var failed := PickFailed(rows, finishedAt);
        if failed == None {
          return Err(NoFailedNode);
        }
        target := failed.value;
      }
      rows := Reset(rows, target, Pending);
      var overrides: map<Name, Json> := map[];
      if IsObject(edited) {
        overrides := overrides[target := edited];
        rows := Upsert(rows, target, Partial(Pending, Null, Some(edited)));
      }
      ResumeTurns(old(rows), target, edited);
      exec := ExQueued;
      jobs := jobs + [overrides];
      return Ok(target);
    }

    /** POST /executions/:id/skip */
    method Skip(node: Option<Name>) returns (r: Result<Name, ApiError>)
      modifies `exec, `rows, `jobs
      ensures r == Err(NodeRequired) <==> node.None?
      ensures node.Some? && old(exec) in {ExRunning, ExQueued} <==> r == Err(InFlight(old(exec)))
      ensures r.Err? ==> View() == old(View())
      ensures r.Ok? ==> node == Some(r.value) && View() == SkipStep(old(View()), r.value)
      ensures r.Ok? ==>
                TurnedSkipped(old(rows), rows, r.value) && exec == ExQueued && jobs == old(jobs) + [map[]]
      ensures r.Ok? && r.value in old(rows) ==>
                forall d :: r.value in Names(d) ==> r.value in Hydrated(d, Load(rows))
    {
      if node == None {
        return Err(NodeRequired);
      }
      if exec == ExRunning || exec == ExQueued {
        return Err(InFlight(exec));
      }
      rows := Reset(rows, node.value, Skipped);
      exec := ExQueued;
      jobs := jobs + [map[]];
      return Ok(node.value);
    }

    /** POST /executions/:id/nodes/:nodeName/respond; the execution's own status is not consulted. */
    method Respond(node: Name, body: Json, now: string) returns (r: Result<Name, ApiError>)
      modifies `exec, `rows, `jobs
      ensures r == Err(NodeNotFound) <==> node !in old(rows)
      ensures r.Ok? <==> node in old(rows) && old(rows)[node].status == Waiting
      ensures r.Err? ==> View() == old(View())
      ensures r.Ok? ==> r.value == node && View() == RespondStep(old(View()), node, ResponseOutput(body, now))
      ensures r.Ok? ==>
                TurnedAnswered(old(rows), rows, node, body, now) && exec == ExQueued && jobs == old(jobs) + [map[]]
      ensures r.Ok? ==> forall d :: node in Names(d) ==> node in Hydrated(d, Load(rows))
    {
      if node !in rows {
        return Err(NodeNotFound);
      }
      if rows[node].status != Waiting {
        return Err(NotWaiting(rows[node].status));
      }
      rows := Upsert(rows, node, Partial(Success, ResponseOutput(body, now), None));
      exec := ExQueued;
      jobs := jobs + [map[]];
      return Ok(node);
    }

    /** `reapOrphanedExecutions` for this execution, when no job is live. Of an orphaned execution exactly
        the running rows turn failed, so that each can be resumed, and no row is left running; any other
        execution is left alone, a waiting one too. */
    method Reap()
      modifies `exec, `rows
      ensures View() == ReapStep(old(View()))
      ensures old(exec) != ExRunning ==> View() == old(View())
      ensures old(exec) == ExRunning ==> exec == ExFailed && forall n :: n in rows ==> rows[n].status != Running
      ensures rows.Keys == old(rows).Keys
      ensures forall n :: n in rows ==>
                rows[n] == if old(exec) == ExRunning && old(rows)[n].status == Running
                           then old(rows)[n].(status := Failed) else old(rows)[n]
    {
      if exec == ExRunning {
        exec := ExFailed;
        rows := ReapRows(rows);
      }
    }

    /** The fire-and-forget writes land in an arbitrary order, except that the writes for one node
        land in the order they were issued. */
    method Drain(log: seq<Write>) returns (ghost landed: seq<Write>)
      modifies `rows
      ensures rows == Apply(old(rows), landed)
      ensures forall n :: WritesOf(landed, n) == WritesOf(log, n)
    {
      var pending := log;
      landed := [];
      while pending != []
        invariant rows == Apply(old(rows), landed)
        invariant forall n :: WritesOf(landed, n) + WritesOf(pending, n) == WritesOf(log, n)
        decreases |pending|
      {
        assert FirstOfItsName(pending, 0);
        var i: nat :| i < |pending| && forall k :: 0 <= k < i ==> pending[k].name != pending[i].name;
        var w := pending[i];
        LandOne(log, landed, pending, i);
        assert (landed + [w])[..|landed|] == landed;
        rows := Upsert(rows, w.name, w.partial);
        landed := landed + [w];
        pending := Without(pending, i);
      }
    }

    /** A single run: load the rows, run the workflow, drain its writes, store the status and the context. */
    method RunSingle(job: Job, data: map<Var, Json>, reserved: map<Var, Json>)
      returns (r: Report, ghost calls: map<Name, nat>, ghost landed: seq<Write>)
      requires WellFormed(job.dag)
      modifies `exec, `rows, `context
      ensures r.status == Aggregate(r.aborted, r.nodes) && r.ctx.nodes == r.nodes && exec == StatusOf(r.status)
      ensures context == Redact(r.ctx.vars)
      ensures Ran(job, old(rows), JobInit(data, inputs, old(context), reserved), r, calls)
      ensures rows == Apply(old(rows), landed) && forall n :: WritesOf(landed, n) == WritesOf(r.writes, n)
      ensures StatusOfRun(exec, r.aborted, r.nodes) && Stored(context, r.ctx.vars)
      ensures !RunsAsBatch(inputs, old(context)) ==>
                StartedFrom(FlowOf(job), r.ctx.vars, data, inputs, old(context), reserved)
    {
      hide StatusOfRun, StartedFrom, JobInit, FlowOf, RunsAsBatch, Apply, Ran;
      exec := ExRunning;
      r, calls := RunJob(job, JobInit(data, inputs, context, reserved), rows);
      RunStatus(r);
      if !RunsAsBatch(inputs, context) {
        SingleStarted(job, rows, data, inputs, context, reserved, r, calls);
      }
      landed := Drain(r.writes);
      context := Redact(r.ctx.vars);
      exec := StatusOf(r.status);
    }

    /** One job of the worker. A batch starts afresh for every item: it neither reads the node rows nor
        writes them, and what it persists makes later jobs of an execution without inputs batches too. */
    method ProcessJob(dag: Dag, world: World, data: map<Var, Json>, reserved: map<Var, Json>)
      returns (run: JobRun, ghost calls: seq<map<Name, nat>>, ghost landed: seq<Write>)
      requires jobs != [] && WellFormed(dag)
      modifies this
      ensures jobs == old(jobs)[1..]
      ensures run.Single? <==> !RunsAsBatch(inputs, old(context))
      ensures run.Single? ==>
                && |calls| == 1 && run.report.ctx.nodes == run.report.nodes
                && run.report.status == Aggregate(run.report.aborted, run.report.nodes)
                && Ran(Job(dag, world, old(jobs)[0]), old(rows), JobInit(data, inputs, old(context), reserved),
                       run.report, calls[0])
                && rows == Apply(old(rows), landed)
                && (forall n :: WritesOf(landed, n) == WritesOf(run.report.writes, n))
                && exec == StatusOf(run.report.status) && context == Redact(run.report.ctx.vars)
      ensures run.Single? <==> forall items :: !GivenItems(inputs, old(context), items)
      ensures run.Single? ==>
                && StatusOfRun(exec, run.report.aborted, run.report.nodes) && Stored(context, run.report.ctx.vars)
                && StartedFrom(FlowOf(Job(dag, world, old(jobs)[0])), run.report.ctx.vars,
                               data, inputs, old(context), reserved)
      ensures run.Fanned? ==>
                && StatusOfBatch(exec, run.reports) && StoredBatch(context, run.reports)
                && exists items ::
                     GivenItems(inputs, old(context), items)
                     && ItemsStarted(FlowOf(Job(dag, world, map[])), data, items, run.reports)
      ensures !run.Single? ==> rows == old(rows)
      ensures run.Refused? <==>
                && RunsAsBatch(inputs, old(context))
                && |BatchItems(UserContext(inputs, old(context))).value| > MaxIterations(Job(dag, world, map[]))
      ensures run.Refused? ==> exec == ExFailed && context == old(context)
      ensures run.Fanned? ==>
                && FannedOut(Job(dag, world, map[]), data, BatchItems(UserContext(inputs, old(context))).value,
                             run.reports, calls)
                && exec == StatusOf(FanStatus(run.reports)) && context == BatchContext(run.reports)
    {
      hide FlowOf, JobInit, BatchItems, UserContext, GivenItems, StatusOfRun, StatusOfBatch, StoredBatch;
      hide Stored, BatchContext, StatusOf, FanStatus, StartedFrom, ItemsStarted, Apply, FannedOut;
      var overrides := jobs[0];
      var items := BatchItems(UserContext(inputs, context));
      WhichItems(inputs, context);
      jobs := jobs[1..];
      exec := ExRunning;
      landed, calls := [], [];
      if items.None? {
        var r;
        ghost var made;
        r, made, landed := RunSingle(Job(dag, world, overrides), data, reserved);
        return Single(r), [made], landed;
      }
      if |items.value| > MaxIterations(Job(dag, world, map[])) {
        exec := ExFailed;
        return Refused, [], [];
      }
      var reports;
      reports, calls := FanOut(Job(dag, world, map[]), data, items.value);
      FannedStarted(Job(dag, world, map[]), data, items.value, reports, calls);
      BatchContextStored(reports);
      BatchStatusStored(reports);
      context := BatchContext(reports);
      exec := StatusOf(FanStatus(reports));
      run := Fanned(reports);
    }
  }

  // ---- single run or batch ----------------------------------------------------------------------

  /** When the worker runs a job as a batch: the inputs are an array or hold one under `items`, or there
      are no inputs and the persisted context holds one. */
  lemma RunsAsBatchIff(inputs: Json, context: map<Var, Json>)
    ensures RunsAsBatch(inputs, context) <==>
            || inputs.Arr?
            || (inputs.Obj? && inputs.fields != map[] && HasItems(inputs.fields))
            || (UserContext(inputs, context) == Obj(context) && HasItems(context))
  {
  }

  /** `items` is no reserved key, so it is persisted. */
  lemma ItemsArePersisted(vars: map<Var, Json>)
    ensures "items" !in RESERVED
    ensures "items" in Redact(vars) <==> "items" in vars
    ensures "items" in vars ==> Redact(vars)["items"] == vars["items"]
  {
  }

  /** After a single run the next job is a batch exactly when the inputs were empty and the run left an
      array under `items` in its context. */
  lemma NextJobIsBatchIff(inputs: Json, context: map<Var, Json>, vars: map<Var, Json>)
    requires !RunsAsBatch(inputs, context)
    ensures RunsAsBatch(inputs, Redact(vars)) <==> !Given(inputs) && HasItems(vars)
  {
    ItemsArePersisted(vars);
  }

  /** Where no node binds `items` and neither the workflow's data nor its inputs hold an array there, every
      single run is followed by another. */
  lemma StaysSingle(
    f: Flow, hyd: map<Name, Record>, data: map<Var, Json>, inputs: Json, context: map<Var, Json>,
    reserved: map<Var, Json>, m: Mem)
    requires reserved.Keys == RESERVED && !HasItems(data) && NobodyWrites(f, "items")
    requires !RunsAsBatch(inputs, context) && JobContract(f, hyd, JobInit(data, inputs, context, reserved), m)
    ensures !RunsAsBatch(inputs, Redact(m.vars))
  {
    var init := JobInit(data, inputs, context, reserved);
    ItemsArePersisted(m.vars);
    assert SameAt(m.vars, init, "items");
    NextJobIsBatchIff(inputs, context, m.vars);
  }

  /** Once a batch has run, every later job of an execution without inputs is a batch. */
  lemma OnceBatchAlwaysBatch(inputs: Json, context: map<Var, Json>, reports: seq<Report>)
    requires RunsAsBatch(inputs, context)
    ensures RunsAsBatch(inputs, BatchContext(reports))
  {
  }

  /** A batch succeeds exactly when every item's run does: a batch without items always. */
  lemma FanStatusExact(reports: seq<Report>)
    ensures FanStatus(reports) == AllSuccess <==> forall i :: 0 <= i < |reports| ==> reports[i].status == AllSuccess
  {
    var results := seq(|reports|, k requires 0 <= k < |reports| => Batch.ItemResult(k, reports[k].status));
    Batch.BatchStatusExact(results);
    assert forall i :: 0 <= i < |reports| ==> results[i].status == reports[i].status;
  }

  /** An item that pauses makes its whole batch "partial". */
  lemma WaitingItemIsPartial(reports: seq<Report>, i: nat)
    requires i < |reports| && reports[i].status == SomeWaiting
    ensures FanStatus(reports) == SomePartial
  {
    var results := seq(|reports|, k requires 0 <= k < |reports| => Batch.ItemResult(k, reports[k].status));
    Batch.BatchStatusExact(results);
    assert results[i].status == SomeWaiting;
  }
}
