/** A whole job against the durable rows (worker.js, `processExecutionBody`): after its writes have
    drained, the rows and the engine's memory agree, in whatever order the writes landed. */
module DurableJob {
  import opened Common
  import opened Dags
  import opened NodeRun
  import opened Semantics
  import opened JobResults
  import opened Executor
  import opened NodeStates

  /** The writes of one node that was not rehydrated turn its row into its record. */
  lemma RowAfterJob(f: Flow, hyd: map<Name, Record>, init: map<Var, Json>, m: Mem, t: Table, n: Name)
    requires ValidFlow(f) && JobContract(f, hyd, init, m) && Clean(t)
    requires n in Names(f.dag) && n !in hyd && !DoneIn(t, n)
    ensures var row := ApplyToRow(Get(t, n), WritesOf(m.writes, n));
            row.Some? && row.value.status == m.results[n].status && row.value.output == m.results[n].output
            && RowClean(row.value)
  {
    assert WritesOf(m.writes, n) == JobWrites(f, hyd, m.results, m.seen, n);
    RecordOfRun(f, hyd, init, m.results, m.seen, n);
    RowAfterWrites(f, hyd, m, Get(t, n), n);
  }

  lemma RowAfterWrites(f: Flow, hyd: map<Name, Record>, m: Mem, was: Option<Row>, n: Name)
    requires n in m.results && n !in hyd && (m.results[n].output != Null ==> m.results[n].status in {Success, Waiting})
    requires was.Some? ==> RowClean(was.value) && !IsDone(was.value)
    ensures var row := ApplyToRow(was, JobWrites(f, hyd, m.results, m.seen, n));
            row.Some? && row.value.status == m.results[n].status && row.value.output == m.results[n].output
            && RowClean(row.value)
  {
    var p := RecordWrite(n, m.results[n]).partial;
    if n in m.seen && Launches(f, n, m.seen[n]) {
      ApplyTwo(was, RunningWrite(n, f.prefix(n, m.seen[n]).launch).partial, p);
    } else {
      assert JobWrites(f, hyd, m.results, m.seen, n) == [p];
      ApplyOne(was, p);
    }
  }

  lemma RecordOfRun(
    f: Flow, hyd: map<Name, Record>, init: map<Var, Json>, res: map<Name, Record>, seen: map<Name, Ctx>, n: Name)
    requires ValidFlow(f) && PartialRun(f, hyd, init, res, seen) && n in res && n !in hyd
    ensures res[n].output != Null ==> res[n].status in {Success, Waiting}
  {
    if res[n] != UNREACHED {
      assert Explained(f, hyd, init, res, seen, n);
      QuietUnlessLaunched(f, n, seen[n]);
    }
  }

  lemma UntouchedRow(f: Flow, hyd: map<Name, Record>, init: map<Var, Json>, m: Mem, n: Name)
    requires JobContract(f, hyd, init, m) && (n in hyd || n !in Names(f.dag))
    ensures WritesOf(m.writes, n) == []
  {
    assert WritesOf(m.writes, n) == JobWrites(f, hyd, m.results, m.seen, n);
  }

  /** Durable rows agree with memory: after the writes of a job have landed, in any order that keeps
      the writes of each node in sequence, every declared node's row holds exactly its in-memory
      record, rehydrated and undeclared rows are untouched, and no stale output survives. */
  lemma RowsAgreeWithMemory(
    f: Flow, init: map<Var, Json>, t: Table, m: Mem, landed: seq<Write>)
    requires ValidFlow(f) && Clean(t)
    requires JobContract(f, Hydrated(f.dag, Load(t)), init, m)
    requires forall n :: WritesOf(landed, n) == WritesOf(m.writes, n)
    ensures var t' := Apply(t, landed);
            && Clean(t')
            && (forall n :: n in Names(f.dag) ==> n in t' && Load(t')[n] == m.results[n])
            && (forall n :: n in Hydrated(f.dag, Load(t)) || n !in Names(f.dag) ==> Get(t', n) == Get(t, n))
  {
    var hyd := Hydrated(f.dag, Load(t));
    var t' := Apply(t, landed);
    forall n
      ensures n in t' ==> RowClean(t'[n])
      ensures n in Names(f.dag) ==> n in t' && Load(t')[n] == m.results[n]
      ensures n in hyd || n !in Names(f.dag) ==> Get(t', n) == Get(t, n)
    {
      ApplyByRow(t, landed, n);
      assert WritesOf(landed, n) == WritesOf(m.writes, n);
      if n in hyd || n !in Names(f.dag) {
        UntouchedRow(f, hyd, init, m, n);
        assert n in hyd ==> m.results[n] == hyd[n];
      } else {
        RowAfterJob(f, hyd, init, m, t, n);
      }
    }
  }

  /** The inputs in a row are those its node was last launched with: a job that launches the node stores what
      the plugin is given, and any other job leaves what is there. */
  lemma RowInputs(f: Flow, hyd: map<Name, Record>, init: map<Var, Json>, t: Table, m: Mem, landed: seq<Write>, n: Name)
    requires JobContract(f, hyd, init, m) && n in Names(f.dag)
    requires forall x :: WritesOf(landed, x) == WritesOf(m.writes, x)
    ensures var row := Get(Apply(t, landed), n);
            if n in m.seen && Launches(f, n, m.seen[n]) then
              row.Some? && row.value.inputs == Some(f.prefix(n, m.seen[n]).launch.inputs)
            else if n in t then row.Some? && row.value.inputs == t[n].inputs
            else row.Some? ==> row.value.inputs == None
  {
    ApplyByRow(t, landed, n);
    assert WritesOf(landed, n) == JobWrites(f, hyd, m.results, m.seen, n);
    InputsAfterWrites(f, hyd, m, Get(t, n), n);
  }

  lemma InputsAfterWrites(f: Flow, hyd: map<Name, Record>, m: Mem, was: Option<Row>, n: Name)
    requires n in m.results && (n in m.seen ==> n !in hyd)
    ensures var row := ApplyToRow(was, JobWrites(f, hyd, m.results, m.seen, n));
            if n in m.seen && Launches(f, n, m.seen[n]) then
              row.Some? && row.value.inputs == Some(f.prefix(n, m.seen[n]).launch.inputs)
            else if was.Some? then row.Some? && row.value.inputs == was.value.inputs
            else row.Some? ==> row.value.inputs == None
  {
    var p := RecordWrite(n, m.results[n]).partial;
    if n in hyd {
    } else if n in m.seen && Launches(f, n, m.seen[n]) {
      ApplyTwo(was, RunningWrite(n, f.prefix(n, m.seen[n]).launch).partial, p);
    } else {
      assert JobWrites(f, hyd, m.results, m.seen, n) == [p];
      ApplyOne(was, p);
    }
  }
}
