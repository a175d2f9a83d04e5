/** The durable state of one execution (engine/nodeStateStore.js): its `node_states` rows and the
    transitions that each SQL statement denotes. */
module NodeStates {
  import opened Common
  import opened Dags
  import opened NodeRun
  import opened Semantics

  /** A `node_states` row: status, output and the resolved inputs. */
  datatype Row = Row(status: Status, output: Json, inputs: Option<Json>)

  type Table = map<Name, Row>

  function Coalesce(update: Json, was: Json): Json { if update != Null then update else was }

  function UpsertRow(was: Option<Row>, p: Partial): Row {
    match was
    case None => Row(p.status, p.output, p.inputs)
    case Some(r) => Row(p.status, Coalesce(p.output, r.output), if p.inputs.Some? then p.inputs else r.inputs)
  }

  function Get(t: Table, n: Name): Option<Row> { if n in t then Some(t[n]) else None }

  /** `upsertNodeState` */
  function Upsert(t: Table, n: Name, p: Partial): Table { t[n := UpsertRow(Get(t, n), p)] }

  /** `resetNodeForReplay`: an UPDATE, so a missing row stays missing. */
  function Reset(t: Table, n: Name, target: Status): Table {
    if n in t then t[n := t[n].(status := target, output := Null)] else t
  }

  /** The row part of `reapOrphanedExecutions`. */
  function ReapRows(t: Table): Table {
    map n | n in t :: if t[n].status == Running then t[n].(status := Failed) else t[n]
  }

  /** `loadNodeStates` */
  function Load(t: Table): map<Name, Record> {
    map n | n in t :: Record(t[n].status, t[n].output)
  }

  method LoadNodeStates(t: Table) returns (out: map<Name, Record>)
    ensures out == Load(t)
  {
    out := map[];
    var todo := t.Keys;
    while todo != {}
      invariant todo <= t.Keys && out.Keys == t.Keys - todo
      invariant forall n :: n in out ==> out[n] == Record(t[n].status, t[n].output)
      decreases todo
    {
      var n :| n in todo;
      todo := todo - {n};
      out := out[n := Record(t[n].status, t[n].output)];
    }
  }

  /** Only successful and waiting rows hold an output. */
  ghost predicate RowClean(r: Row) { r.output != Null ==> r.status in {Success, Waiting} }

  ghost predicate Clean(t: Table) { forall n :: n in t ==> RowClean(t[n]) }

  /** A row that the next job takes over instead of running the node. */
  predicate IsDone(r: Row) { r.status in {Success, Failed, Skipped, Waiting} }

  ghost predicate DoneIn(t: Table, n: Name) { n in t && IsDone(t[n]) }

  // ---- writes landing in the table ---------------------------------------------

  ghost function Apply(t: Table, log: seq<Write>): Table {
    if log == [] then t
    else
      var w := log[|log| - 1];
      Upsert(Apply(t, log[..|log| - 1]), w.name, w.partial)
  }

  ghost function ApplyToRow(was: Option<Row>, ps: seq<Partial>): Option<Row> {
    if ps == [] then was
    else Some(UpsertRow(ApplyToRow(was, ps[..|ps| - 1]), ps[|ps| - 1]))
  }

  lemma ApplyOne(was: Option<Row>, p: Partial)
    ensures ApplyToRow(was, [p]) == Some(UpsertRow(was, p))
  {
    assert [p][..0] == [];
  }

  lemma ApplyTwo(was: Option<Row>, p: Partial, q: Partial)
    ensures ApplyToRow(was, [p] + [q]) == Some(UpsertRow(Some(UpsertRow(was, p)), q))
  {
    assert ([p] + [q])[..1] == [p];
    ApplyOne(was, p);
  }

  /** The row of a node depends only on the writes for that node, in their order. */
  lemma {:induction false} ApplyByRow(t: Table, log: seq<Write>, n: Name)
    ensures Get(Apply(t, log), n) == ApplyToRow(Get(t, n), WritesOf(log, n))
  {
    if log != [] {
      var w := log[|log| - 1];
      var rest := log[..|log| - 1];
      ApplyByRow(t, rest, n);
      if w.name == n {
        assert WritesOf(log, n)[..|WritesOf(rest, n)|] == WritesOf(rest, n);
      } else {
        assert WritesOf(log, n) == WritesOf(rest, n);
      }
    }
  }

  /** Two landing orders that agree node by node leave the same table. */
  lemma LandingOrderIrrelevant(t: Table, log1: seq<Write>, log2: seq<Write>)
    requires forall n :: WritesOf(log1, n) == WritesOf(log2, n)
    ensures Apply(t, log1) == Apply(t, log2)
  {
    var t1, t2 := Apply(t, log1), Apply(t, log2);
    forall n
      ensures Get(t1, n) == Get(t2, n)
    {
      ApplyByRow(t, log1, n);
      ApplyByRow(t, log2, n);
    }
    SameRows(t1, t2);
  }

  lemma SameRows(t1: Table, t2: Table)
    requires forall n :: Get(t1, n) == Get(t2, n)
    ensures t1 == t2
  {
    forall n
      ensures n in t1 <==> n in t2
      ensures n in t1 ==> t1[n] == t2[n]
    {
      assert Get(t1, n) == Get(t2, n);
    }
  }
}
