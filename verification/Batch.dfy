/** The batch worker pool (engine/batch.js): workers share a cursor and a result array; their steps
    interleave arbitrarily. */
module Batch {
  import opened Common
  import opened NodeRun
  import opened JobResults

  datatype ItemResult = ItemResult(index: nat, status: Overall)

  /** A worker between two awaits: about to claim, running one item, or gone. */
  datatype Worker = Idle | Busy(index: nat) | Exited

  datatype BatchError = IterationCap(count: nat, max: nat)

  /** What one item comes to: the status of its run, or "failed" when the run throws. */
  function ItemStatus(run: (nat, Json) -> Option<Overall>, index: nat, item: Json): Overall {
    match run(index, item)
    case Some(status) => status
    case None => AllFailed
  }

  function Expected(run: (nat, Json) -> Option<Overall>, items: seq<Json>, i: nat): ItemResult
    requires i < |items|
  {
    ItemResult(i, ItemStatus(run, i, items[i]))
  }

  // ---- work left ------------------------------------------------------------------

  function Weight(w: Worker): nat {
    match w
    case Idle => 1
    case Busy(_) => 2
    case Exited => 0
  }

  ghost function TotalWeight(workers: seq<Worker>): nat {
    if workers == [] then 0 else TotalWeight(workers[..|workers| - 1]) + Weight(workers[|workers| - 1])
  }

  lemma {:induction false} WeightUpdate(workers: seq<Worker>, w: nat, s: Worker)
    requires w < |workers|
    ensures TotalWeight(workers[w := s]) == TotalWeight(workers) - Weight(workers[w]) + Weight(s)
  {
    var k := |workers| - 1;
    if w == k {
      assert workers[w := s][..k] == workers[..k];
    } else {
      assert workers[w := s][..k] == workers[..k][w := s];
      WeightUpdate(workers[..k], w, s);
    }
  }

  // ---- the pool --------------------------------------------------------------------

  /** The items in flight. */
  ghost function InFlight(workers: seq<Worker>): set<nat> {
    set w | 0 <= w < |workers| && workers[w].Busy? :: workers[w].index
  }

  lemma {:induction false} InFlightBound(workers: seq<Worker>)
    ensures |InFlight(workers)| <= |workers|
  {
    if workers != [] {
      var k := |workers| - 1;
      InFlightBound(workers[..k]);
      var rest := InFlight(workers[..k]);
      if workers[k].Busy? {
        assert InFlight(workers) <= rest + {workers[k].index} by {
          forall i | i in InFlight(workers)
            ensures i in rest + {workers[k].index}
          {
            var w :| 0 <= w < |workers| && workers[w].Busy? && workers[w].index == i;
            assert w < k ==> workers[..k][w] == workers[w];
          }
        }
        SubsetSize(InFlight(workers), rest + {workers[k].index});
      } else {
        assert InFlight(workers) <= rest by {
          forall i | i in InFlight(workers)
            ensures i in rest
          {
            var w :| 0 <= w < |workers| && workers[w].Busy? && workers[w].index == i;
            assert workers[..k][w] == workers[w];
          }
        }
        SubsetSize(InFlight(workers), rest);
      }
    }
  }

  /** Between any two steps: the claimed indices are the first ones, in order; a claimed index is
      either in flight at exactly one worker or its slot holds the result of that very item. */
  ghost predicate PoolOK(
    items: seq<Json>, run: (nat, Json) -> Option<Overall>, cursor: nat, claims: seq<nat>,
    workers: seq<Worker>, results: seq<Option<ItemResult>>)
  {
    && |results| == |items|
    && |claims| == Min(cursor, |items|)
    && (forall k :: 0 <= k < |claims| ==> claims[k] == k)
    && (forall i :: |claims| <= i < |items| ==> results[i] == None)
    && (forall i :: 0 <= i < |claims| ==> results[i] == Some(Expected(run, items, i)) || RunningAt(workers, i))
    && (forall w :: 0 <= w < |workers| && workers[w].Busy? ==>
          workers[w].index < |claims| && results[workers[w].index] == None)
    && (forall v, w :: 0 <= v < w < |workers| && workers[v].Busy? && workers[w].Busy? ==>
          workers[v].index != workers[w].index)
    && (forall w :: 0 <= w < |workers| && workers[w].Exited? ==> cursor >= |items|)
  }

  ghost predicate RunningAt(workers: seq<Worker>, i: nat) {
    exists w :: 0 <= w < |workers| && workers[w] == Busy(i)
  }

  /** A worker claims the next index: `const i = cursor++`. */
  lemma ClaimKeeps(
    items: seq<Json>, run: (nat, Json) -> Option<Overall>, cursor: nat, claims: seq<nat>,
    workers: seq<Worker>, results: seq<Option<ItemResult>>, w: nat)
    requires PoolOK(items, run, cursor, claims, workers, results) && w < |workers| && workers[w].Idle?
    ensures cursor < |items| ==>
              PoolOK(items, run, cursor + 1, claims + [cursor], workers[w := Busy(cursor)], results)
    ensures cursor >= |items| ==> PoolOK(items, run, cursor + 1, claims, workers[w := Exited], results)
  {
    var s := if cursor < |items| then Busy(cursor) else Exited;
    var workers' := workers[w := s];
    forall i | 0 <= i < |claims| && RunningAt(workers, i)
      ensures RunningAt(workers', i)
    {
      var v :| 0 <= v < |workers| && workers[v] == Busy(i);
      assert workers'[v] == Busy(i);
    }
    if cursor < |items| {
      assert workers'[w] == Busy(cursor);
      assert RunningAt(workers', cursor);
    }
  }

  /** A worker stores the result of its item. */
  lemma StoreKeeps(
    items: seq<Json>, run: (nat, Json) -> Option<Overall>, cursor: nat, claims: seq<nat>,
    workers: seq<Worker>, results: seq<Option<ItemResult>>, w: nat)
    requires PoolOK(items, run, cursor, claims, workers, results) && w < |workers| && workers[w].Busy?
    ensures var i := workers[w].index;
            PoolOK(items, run, cursor, claims, workers[w := Idle], results[i := Some(Expected(run, items, i))])
  {
    var workers' := workers[w := Idle];
    forall i | 0 <= i < |claims| && i != workers[w].index && RunningAt(workers, i)
      ensures RunningAt(workers', i)
    {
      var v :| 0 <= v < |workers| && workers[v] == Busy(i);
      assert workers'[v] == Busy(i);
    }
  }

  // ---- executeBatch ---------------------------------------------------------------------

  predicate AllHave(results: seq<ItemResult>, s: Overall) {
    forall i :: 0 <= i < |results| ==> results[i].status == s
  }

  function BatchStatus(results: seq<ItemResult>): Overall {
    if AllHave(results, AllSuccess) then AllSuccess
    else if AllHave(results, AllFailed) then AllFailed
    else SomePartial
  }

  /** Success iff every item succeeded (also with no items), failed iff there are items and all failed,
      otherwise partial. */
  lemma BatchStatusExact(results: seq<ItemResult>)
    ensures BatchStatus(results) == AllSuccess <==> forall i :: 0 <= i < |results| ==> results[i].status == AllSuccess
    ensures BatchStatus(results) == AllFailed <==>
              |results| > 0 && forall i :: 0 <= i < |results| ==> results[i].status == AllFailed
    ensures BatchStatus(results) in {AllSuccess, AllFailed, SomePartial}
  {
    if |results| > 0 {
      assert results[0].status == AllSuccess ==> !AllHave(results, AllFailed);
    }
  }

  /** The workers run until all have exited, in any interleaving. */
  method RunPool(items: seq<Json>, workerCount: nat, run: (nat, Json) -> Option<Overall>)
    returns (results: seq<Option<ItemResult>>, ghost claims: seq<nat>, ghost peak: nat)
    requires workerCount <= |items| && (items != [] ==> workerCount > 0)
    ensures |results| == |items|
    ensures forall i :: 0 <= i < |items| ==> results[i] == Some(Expected(run, items, i))
    ensures claims == seq(|items|, i => i)
    ensures peak <= workerCount
  {
    var slots := new Option<ItemResult>[|items|](_ => None);
    var workers := seq(workerCount, _ => Idle);
    var cursor := 0;
    claims, peak := [], 0;
    while exists w :: 0 <= w < |workers| && !workers[w].Exited?
      invariant PoolOK(items, run, cursor, claims, workers, slots[..])
      invariant |workers| == workerCount && peak <= workerCount
      decreases 3 * Max(0, |items| - cursor) + TotalWeight(workers)
    {
      var w :| 0 <= w < |workers| && !workers[w].Exited?;
      if workers[w].Idle? {
        ClaimKeeps(items, run, cursor, claims, workers, slots[..], w);
        WeightUpdate(workers, w, Busy(cursor));
        WeightUpdate(workers, w, Exited);
        var i := cursor;
        cursor := cursor + 1;
        if i >= |items| {
          workers := workers[w := Exited];
        } else {
          workers := workers[w := Busy(i)];
          claims := claims + [i];
        }
      } else {
        var i := workers[w].index;
        StoreKeeps(items, run, cursor, claims, workers, slots[..], w);
        WeightUpdate(workers, w, Idle);
        ghost var before := slots[..];
        slots[i] := Some(ItemResult(i, ItemStatus(run, i, items[i])));
        assert slots[..] == before[i := Some(Expected(run, items, i))];
        workers := workers[w := Idle];
      }
      InFlightBound(workers);
      peak := Max(peak, |InFlight(workers)|);
    }
    results := slots[..];
    if items != [] {
      assert workers[0].Exited?;
    }
    forall i | 0 <= i < |claims|
      ensures results[i] == Some(Expected(run, items, i))
    {
      assert !RunningAt(workers, i);
    }
  }

  /** `executeBatch`: the iteration cap is checked before anything runs. */
  method ExecuteBatch(items: seq<Json>, concurrency: int, maxIterations: nat, run: (nat, Json) -> Option<Overall>)
    returns (r: Result<(Overall, seq<ItemResult>), BatchError>, ghost claims: seq<nat>, ghost peak: nat)
    ensures r.Err? <==> |items| > maxIterations
    ensures r.Err? ==> claims == []
    ensures r.Ok? ==>
              && r.value.1 == seq(|items|, i requires 0 <= i < |items| => Expected(run, items, i))
              && r.value.0 == BatchStatus(r.value.1)
              && |r.value.1| == |items|
              && (forall i :: 0 <= i < |items| ==>
                    && r.value.1[i].index == i
                    && r.value.1[i].status == (if run(i, items[i]).Some? then run(i, items[i]).value else AllFailed))
              && claims == seq(|items|, i => i)
              && peak <= Min(Max(1, if concurrency == 0 then 4 else concurrency), |items|)
  {
    claims, peak := [], 0;
    if |items| > maxIterations {
      return Err(IterationCap(|items|, maxIterations)), claims, peak;
    }
    var limit := Max(1, if concurrency == 0 then 4 else concurrency);
    var slots;
    slots, claims, peak := RunPool(items, Min(limit, |items|), run);
    var results := seq(|slots|, i requires 0 <= i < |slots| && slots[i].Some? => slots[i].value);
    r := Ok((BatchStatus(results), results));
  }
}
