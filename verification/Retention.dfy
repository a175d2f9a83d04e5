/** Draining retention policies (retention/runner.js, retention/policies.js): bounded deletes repeated
    until one of them removes fewer rows than its limit. Time stands still and nobody else writes. */
module Retention {
  import opened Common
  import opened History

  type Id = string

  datatype Status = Queued | Running | Success | Partial | Failed | Waiting | Cancelled

  datatype Execution = Execution(status: Status, createdAt: int)

  type Executions = map<Id, Execution>

  datatype Slice = SuccessSlice | FailedSlice

  const SECONDS_PER_DAY := 86400

  datatype Windows = Windows(now: int, successDays: nat, failedDays: nat)

  /** Where a pass of the executions policy throws, if it does. */
  datatype Fault = NoFault | BeforeSuccessSlice | BeforeFailedSlice

  datatype Report = Report(successDeleted: nat, failedDeleted: nat, total: nat, passes: nat, failed: bool)

  predicate InSlice(e: Execution, s: Slice, w: Windows) {
    match s
    case SuccessSlice => e.status == Success && e.createdAt < w.now - w.successDays * SECONDS_PER_DAY
    case FailedSlice =>
      e.status in {Failed, Cancelled, Partial} && e.createdAt < w.now - w.failedDays * SECONDS_PER_DAY
  }

  function Eligible(rows: Executions, s: Slice, w: Windows): set<Id> {
    set id | id in rows && InSlice(rows[id], s, w)
  }

  /** The policy lets this execution go: it succeeded and is older than the one window, or it ended otherwise and
      is older than the other. Queued, running and waiting executions never go. */
  ghost predicate Expired(e: Execution, w: Windows) {
    || (e.status == Success && e.createdAt < w.now - 86400 * w.successDays)
    || (e.status in {Failed, Cancelled, Partial} && e.createdAt < w.now - 86400 * w.failedDays)
  }

  lemma EligibleExact(rows: Executions, w: Windows)
    ensures forall id :: id in Eligible(rows, SuccessSlice, w) <==>
              id in rows && rows[id].status == Success && Expired(rows[id], w)
    ensures forall id :: id in Eligible(rows, FailedSlice, w) <==>
              id in rows && rows[id].status != Success && Expired(rows[id], w)
  {
  }

  ghost predicate NoneEligible(rows: Executions, w: Windows) {
    Eligible(rows, SuccessSlice, w) == {} && Eligible(rows, FailedSlice, w) == {}
  }

  /** `picked` are `limit` rows of the slice, oldest first (all of them if there are fewer). */
  predicate OldestPick(rows: Executions, slice: set<Id>, limit: nat, picked: set<Id>) {
    && picked <= slice && |picked| == Min(limit, |slice|)
    && forall a, b :: a in picked && b in slice - picked && a in rows && b in rows ==>
         rows[a].createdAt <= rows[b].createdAt
  }

  lemma OldestExists(rows: Executions, slice: set<Id>) returns (x: Id)
    requires slice != {} && slice <= rows.Keys
    ensures x in slice && forall y :: y in slice ==> rows[x].createdAt <= rows[y].createdAt
  {
    x :| x in slice;
    var rest := slice - {x};
    if rest == {} {
      assert slice == {x} + rest;
    } else {
      var o := OldestExists(rows, rest);
      assert slice == {x} + rest;
      if rows[o].createdAt < rows[x].createdAt {
        x := o;
      }
    }
  }

  lemma {:induction false} PickExists(rows: Executions, slice: set<Id>, limit: nat)
    requires slice <= rows.Keys
    ensures exists picked :: OldestPick(rows, slice, limit, picked)
  {
    if limit == 0 || slice == {} {
      assert OldestPick(rows, slice, limit, {});
    } else {
      var x := OldestExists(rows, slice);
      PickExists(rows, slice - {x}, limit - 1);
      var rest :| OldestPick(rows, slice - {x}, limit - 1, rest);
      assert OldestPick(rows, slice, limit, rest + {x});
    }
  }

  lemma SlicesDisjoint(rows: Executions, w: Windows)
    ensures Eligible(rows, SuccessSlice, w) !! Eligible(rows, FailedSlice, w)
  {
  }

  lemma MinusCount<T>(all: set<T>, gone: set<T>)
    requires gone <= all
    ensures |all - gone| == |all| - |gone|
  {
    assert all == (all - gone) + gone;
  }

  // ---- the executions policy ------------------------------------------------------------

  /** What one pass reports: the two counts, or that a statement threw. */
  datatype PassResult = Counted(successDeleted: nat, failedDeleted: nat) | Thrown

  /** The rows a drain or a pass removed, by slice. */
  datatype Gone = Gone(successes: set<Id>, failures: set<Id>) {
    function All(): set<Id> { successes + failures }

    function And(more: Gone): Gone { Gone(successes + more.successes, failures + more.failures) }
  }

  /** One pass over `before`: the success slice first, then the failed slice, unless a fault stopped it in
      between or before. */
  ghost predicate Pass(before: Executions, w: Windows, limit: nat, fault: Fault, p: PassResult, gone: Gone) {
    && (if fault == BeforeSuccessSlice then gone.successes == {}
        else OldestPick(before, Eligible(before, SuccessSlice, w), limit, gone.successes))
    && (if fault != NoFault then gone.failures == {}
        else OldestPick(before, Eligible(before, FailedSlice, w), limit, gone.failures))
    && p == (if fault != NoFault then Thrown else Counted(|gone.successes|, |gone.failures|))
  }

  /** How many rows a pass removed without counting them: those of the success slice when the second
      statement throws. */
  function Uncounted(r: Report, fault: Fault, successes: nat, limit: nat): nat {
    if r.failed && fault == BeforeFailedSlice && r.successDeleted <= successes
    then Min(limit, successes - r.successDeleted)
    else 0
  }

  /** The state of a drain that removed `gone` from `before`: only eligible rows, each counted in its slice
      except `uncounted` rows of the success slice. */
  ghost predicate Progress(before: Executions, w: Windows, r: Report, uncounted: nat, gone: Gone) {
    && gone.successes <= Eligible(before, SuccessSlice, w) && |gone.successes| == r.successDeleted + uncounted
    && gone.failures <= Eligible(before, FailedSlice, w) && |gone.failures| == r.failedDeleted
    && r.total == r.successDeleted + r.failedDeleted
  }

  function AfterPass(r: Report, p: PassResult): Report {
    match p
    case Counted(s, f) => Report(r.successDeleted + s, r.failedDeleted + f, r.total + s + f, r.passes + 1, false)
    case Thrown => r.(failed := true)
  }

  /** What `passes` passes count at least, each of them hitting the limit. */
  function FullPasses(passes: nat, limit: nat): nat {
    if passes == 0 then 0 else FullPasses(passes - 1, limit) + limit
  }

  ghost predicate FaultFree(faults: nat -> Fault, passes: nat) {
    forall i: nat :: i < passes ==> faults(i) == NoFault
  }

  lemma FaultFreeNext(faults: nat -> Fault, passes: nat)
    requires FaultFree(faults, passes) && faults(passes) == NoFault
    ensures FaultFree(faults, passes + 1)
  {
  }

  lemma GoneTwice(t: Executions, a: Gone, b: Gone)
    ensures t - a.All() - b.All() == t - a.And(b).All()
  {
  }

  lemma UnionCount<T>(a: set<T>, b: set<T>)
    requires a !! b
    ensures |a + b| == |a| + |b|
  {
  }

  /** Removing rows of either slice shortens exactly that slice. */
  lemma EligibleAfterGone(before: Executions, w: Windows, gone: Gone)
    requires gone.successes <= Eligible(before, SuccessSlice, w)
    requires gone.failures <= Eligible(before, FailedSlice, w)
    ensures Eligible(before - gone.All(), SuccessSlice, w) == Eligible(before, SuccessSlice, w) - gone.successes
    ensures Eligible(before - gone.All(), FailedSlice, w) == Eligible(before, FailedSlice, w) - gone.failures
  {
    SlicesDisjoint(before, w);
  }

  lemma PassProgress(before: Executions, w: Windows, limit: nat, r: Report, gone: Gone,
                     fault: Fault, p: PassResult, more: Gone)
    requires Progress(before, w, r, 0, gone) && !r.failed
    requires Pass(before - gone.All(), w, limit, fault, p, more)
    ensures var r' := AfterPass(r, p);
            Progress(before, w, r', Uncounted(r', fault, |Eligible(before, SuccessSlice, w)|, limit), gone.And(more))
  {
    hide Eligible, Pass, OldestPick;
    PassSizes(before - gone.All(), w, limit, fault, p, more);
    EligibleAfterGone(before, w, gone);
    MinusCount(Eligible(before, SuccessSlice, w), gone.successes);
    GrowWithin(Eligible(before, SuccessSlice, w), gone.successes, more.successes);
    GrowWithin(Eligible(before, FailedSlice, w), gone.failures, more.failures);
  }

  /** What a pass removes, in numbers. */
  lemma PassSizes(before: Executions, w: Windows, limit: nat, fault: Fault, p: PassResult, gone: Gone)
    requires Pass(before, w, limit, fault, p, gone)
    ensures gone.successes <= Eligible(before, SuccessSlice, w) && gone.failures <= Eligible(before, FailedSlice, w)
    ensures p.Counted? ==> fault == NoFault && p == Counted(|gone.successes|, |gone.failures|)
    ensures p.Thrown? ==>
              && gone.failures == {} && fault != NoFault
              && |gone.successes| == if fault == BeforeFailedSlice
                                     then Min(limit, |Eligible(before, SuccessSlice, w)|) else 0
  {
  }

  lemma GrowWithin<T>(all: set<T>, gone: set<T>, more: set<T>)
    requires gone <= all && more <= all - gone
    ensures gone + more <= all && |gone + more| == |gone| + |more|
  {
    UnionCount(gone, more);
  }

  /** A pass that counts fewer rows than the limit has emptied both slices. */
  lemma ShortPassDrains(before: Executions, w: Windows, limit: nat, p: PassResult, gone: Gone)
    requires Pass(before, w, limit, NoFault, p, gone) && p.successDeleted + p.failedDeleted < limit
    ensures NoneEligible(before - gone.All(), w)
  {
    EligibleAfterGone(before, w, gone);
    MinusCount(Eligible(before, SuccessSlice, w), gone.successes);
    MinusCount(Eligible(before, FailedSlice, w), gone.failures);
  }

  /** What a whole drain of `before` amounts to. */
  ghost predicate DrainOutcome(
    before: Executions, w: Windows, limit: nat, maxPasses: nat, faults: nat -> Fault, r: Report, gone: Gone)
  {
    && r.passes <= maxPasses && FaultFree(faults, r.passes)
    && (r.failed ==> r.passes < maxPasses && faults(r.passes) != NoFault)
    && Progress(before, w, r, Uncounted(r, faults(r.passes), |Eligible(before, SuccessSlice, w)|, limit), gone)
    && r.successDeleted == Min(FullPasses(r.passes, limit), |Eligible(before, SuccessSlice, w)|)
    && (!r.failed && (r.passes < maxPasses || r.total < FullPasses(r.passes, limit)) ==>
          NoneEligible(before - gone.All(), w))
  }

  /** A drain between two passes: none has thrown, and each has counted at least `limit` rows. */
  ghost predicate DrainGoesOn(before: Executions, w: Windows, limit: nat, faults: nat -> Fault, r: Report, gone: Gone) {
    && FaultFree(faults, r.passes) && !r.failed && r.total >= FullPasses(r.passes, limit)
    && Progress(before, w, r, 0, gone)
    && r.successDeleted == Min(FullPasses(r.passes, limit), |Eligible(before, SuccessSlice, w)|)
  }

  /** One more pass: the drain goes on, or this is its outcome. */
  lemma DrainStep(
    before: Executions, w: Windows, limit: nat, maxPasses: nat, faults: nat -> Fault, r: Report, gone: Gone,
    p: PassResult, more: Gone)
    requires DrainGoesOn(before, w, limit, faults, r, gone) && r.passes < maxPasses
    requires Pass(before - gone.All(), w, limit, faults(r.passes), p, more)
    ensures var r', gone' := AfterPass(r, p), gone.And(more);
            if p.Thrown? || p.successDeleted + p.failedDeleted < limit
            then DrainOutcome(before, w, limit, maxPasses, faults, r', gone')
            else r'.passes == r.passes + 1 && DrainGoesOn(before, w, limit, faults, r', gone')
  {
    PassProgress(before, w, limit, r, gone, faults(r.passes), p, more);
    PassCount(before, w, limit, r, gone, faults(r.passes), p, more);
    if p.Counted? {
      FaultFreeNext(faults, r.passes);
      if p.successDeleted + p.failedDeleted < limit {
        ShortPassDrains(before - gone.All(), w, limit, p, more);
        GoneTwice(before, gone, more);
      }
    }
  }

  /** As long as none throws, pass after pass takes `limit` successes until there are none left. */
  lemma PassCount(
    before: Executions, w: Windows, limit: nat, r: Report, gone: Gone, fault: Fault, p: PassResult, more: Gone)
    requires Progress(before, w, r, 0, gone) && Pass(before - gone.All(), w, limit, fault, p, more)
    requires r.successDeleted == Min(FullPasses(r.passes, limit), |Eligible(before, SuccessSlice, w)|)
    ensures p.Counted? ==> r.successDeleted + p.successDeleted
                           == Min(FullPasses(r.passes + 1, limit), |Eligible(before, SuccessSlice, w)|)
  {
    EligibleAfterGone(before, w, gone);
    MinusCount(Eligible(before, SuccessSlice, w), gone.successes);
  }

  lemma RemovedCount(before: Executions, w: Windows, gone: Gone)
    requires gone.successes <= Eligible(before, SuccessSlice, w)
    requires gone.failures <= Eligible(before, FailedSlice, w)
    ensures |before - gone.All()| == |before| - |gone.All()|
  {
    assert (before - gone.All()).Keys == before.Keys - gone.All();
    MinusCount(before.Keys, gone.All());
  }

  /** Pass `p` is the first to throw, between its two statements, with success rows left to delete. */
  ghost predicate HidesRows(before: Executions, w: Windows, limit: nat, faults: nat -> Fault, p: nat) {
    && FaultFree(faults, p) && faults(p) == BeforeFailedSlice
    && limit > 0 && p * limit < |Eligible(before, SuccessSlice, w)|
  }

  ghost predicate SomePassHidesRows(before: Executions, w: Windows, limit: nat, maxPasses: nat, faults: nat -> Fault) {
    exists p: nat :: p < maxPasses && HidesRows(before, w, limit, faults, p)
  }

  lemma {:induction false} FullPassesCount(passes: nat, limit: nat)
    ensures FullPasses(passes, limit) == passes * limit
  {
    if passes > 0 {
      FullPassesCount(passes - 1, limit);
      assert passes * limit == (passes - 1) * limit + limit;
    }
  }

  lemma {:induction false} FullPassesGrow(p: nat, q: nat, limit: nat)
    requires p <= q
    ensures FullPasses(p, limit) <= FullPasses(q, limit)
    decreases q - p
  {
    if p < q {
      FullPassesGrow(p, q - 1, limit);
    }
  }

  /** A pass that hides rows is the drain's last one: every pass before it finds a full slice. */
  lemma HidingPassIsLast(
    before: Executions, w: Windows, limit: nat, maxPasses: nat, faults: nat -> Fault, r: Report, gone: Gone, p: nat)
    requires DrainOutcome(before, w, limit, maxPasses, faults, r, gone)
    requires p < maxPasses && HidesRows(before, w, limit, faults, p)
    ensures r.failed && r.passes == p
  {
    var successes := Eligible(before, SuccessSlice, w);
    FullPassesCount(p, limit);
    assert r.passes <= p;
    FullPassesGrow(r.passes, p, limit);
    assert r.successDeleted < |successes|;
    EligibleAfterGone(before, w, gone);
    MinusCount(successes, gone.successes);
  }

  /** The counters understate what went exactly when some pass hides rows. Whether one does can be read off
      the table and the faults before the drain starts. */
  lemma CountsExactIff(
    before: Executions, w: Windows, limit: nat, maxPasses: nat, faults: nat -> Fault, r: Report, gone: Gone)
    requires DrainOutcome(before, w, limit, maxPasses, faults, r, gone)
    ensures |before - gone.All()| == |before| - |gone.All()|
    ensures r.total == |gone.All()| <==> !SomePassHidesRows(before, w, limit, maxPasses, faults)
  {
    var successes := Eligible(before, SuccessSlice, w);
    SlicesDisjoint(before, w);
    UnionCount(gone.successes, gone.failures);
    RemovedCount(before, w, gone);
    FullPassesCount(r.passes, limit);
    if r.failed && faults(r.passes) == BeforeFailedSlice && limit > 0 && r.successDeleted < |successes| {
      assert HidesRows(before, w, limit, faults, r.passes);
    }
    if p: nat :| p < maxPasses && HidesRows(before, w, limit, faults, p) {
      HidingPassIsLast(before, w, limit, maxPasses, faults, r, gone, p);
    }
  }

  /** A failing case: the table holds one old success and the second statement throws. Whatever the limits,
      the drain deletes the row and reports nothing. */
  lemma FaultHidesRows(w: Windows, limit: nat, maxPasses: nat, r: Report, gone: Gone)
    requires limit > 0 && maxPasses > 0
    requires var past := w.now - w.successDays * SECONDS_PER_DAY - 1;
             DrainOutcome(map["run" := Execution(Success, past)], w, limit, maxPasses, _ => BeforeFailedSlice, r, gone)
    ensures gone.All() == {"run"} && r.total == 0
  {
    var rows := map["run" := Execution(Success, w.now - w.successDays * SECONDS_PER_DAY - 1)];
    assert Eligible(rows, SuccessSlice, w) == {"run"} && Eligible(rows, FailedSlice, w) == {};
    HidingPassIsLast(rows, w, limit, maxPasses, _ => BeforeFailedSlice, r, gone, 0);
    SameSize(gone.successes, {"run"});
  }

  /** The second statement finds the same failed slice as if the first had not run. */
  lemma SecondDelete(before: Executions, w: Windows, limit: nat, successes: set<Id>, failures: set<Id>)
    requires OldestPick(before, Eligible(before, SuccessSlice, w), limit, successes)
    requires OldestPick(before - successes, Eligible(before - successes, FailedSlice, w), limit, failures)
    ensures OldestPick(before, Eligible(before, FailedSlice, w), limit, failures)
    ensures before - successes - failures == before - Gone(successes, failures).All()
  {
    hide OldestPick;
    SuccessesAside(before, w, limit, successes);
    PickFromMore(before, successes, Eligible(before, FailedSlice, w), limit, failures);
  }

  lemma SuccessesAside(before: Executions, w: Windows, limit: nat, successes: set<Id>)
    requires OldestPick(before, Eligible(before, SuccessSlice, w), limit, successes)
    ensures Eligible(before - successes, FailedSlice, w) == Eligible(before, FailedSlice, w)
    ensures Eligible(before, FailedSlice, w) !! successes
  {
    assert successes <= Eligible(before, SuccessSlice, w);
  }

  lemma PickFromMore(rows: Executions, gone: set<Id>, slice: set<Id>, limit: nat, picked: set<Id>)
    requires OldestPick(rows - gone, slice, limit, picked) && slice !! gone
    ensures OldestPick(rows, slice, limit, picked)
  {
  }

  /** Only expired executions of that slice are gone, at most `limit`; if any is left, `limit` are gone and none of
      them is younger than one that is left. */
  ghost predicate OldestGone(was: Executions, s: Slice, w: Windows, limit: nat, gone: set<Id>) {
    && |gone| <= limit
    && (forall id :: id in gone ==>
          id in was && Expired(was[id], w) && (was[id].status == Success <==> s == SuccessSlice))
    && forall left :: left in was && left !in gone && Expired(was[left], w)
                      && (was[left].status == Success <==> s == SuccessSlice) ==>
         |gone| == limit && forall id :: id in gone ==> id in was && was[id].createdAt <= was[left].createdAt
  }

  lemma PickedOldest(was: Executions, s: Slice, w: Windows, limit: nat, gone: set<Id>)
    requires OldestPick(was, Eligible(was, s, w), limit, gone)
    ensures OldestGone(was, s, w, limit, gone)
  {
    var slice := Eligible(was, s, w);
    EligibleExact(was, w);
    forall left | left in slice && left !in gone
      ensures |gone| == limit && forall id :: id in gone ==> id in was && was[id].createdAt <= was[left].createdAt
    {
      if |gone| < limit {
        SameSize(gone, slice);
      }
    }
  }

  class Retention {
    var executions: Executions

    constructor (executions: Executions)
      ensures this.executions == executions
    {
      this.executions := executions;
    }

    /** One bounded DELETE; which rows go among equally old ones is left open. */
    method DeleteWithLimit(s: Slice, w: Windows, limit: nat) returns (n: nat, ghost gone: set<Id>)
      modifies this
      ensures OldestPick(old(executions), Eligible(old(executions), s, w), limit, gone)
      ensures executions == old(executions) - gone && n == |gone| <= limit
      ensures OldestGone(old(executions), s, w, limit, gone)
    {
      var slice := Eligible(executions, s, w);
      PickExists(executions, slice, limit);
      var picked :| OldestPick(executions, slice, limit, picked);
      PickedOldest(executions, s, w, limit, picked);
      executions := executions - picked;
      n, gone := |picked|, picked;
    }

    method PruneExecutions(w: Windows, limit: nat, fault: Fault) returns (p: PassResult, ghost gone: Gone)
      modifies this
      ensures Pass(old(executions), w, limit, fault, p, gone) && executions == old(executions) - gone.All()
    {
      hide OldestPick, Eligible;
      ghost var before := executions;
      if fault == BeforeSuccessSlice {
        return Thrown, Gone({}, {});
      }
      var s, successes := DeleteWithLimit(SuccessSlice, w, limit);
      if fault == BeforeFailedSlice {
        return Thrown, Gone(successes, {});
      }
      var f, failures := DeleteWithLimit(FailedSlice, w, limit);
      SecondDelete(before, w, limit, successes, failures);
      p, gone := Counted(s, f), Gone(successes, failures);
    }

    /** `drainPass` over `pruneExecutions`: passes go on while one counts at least `limit` rows, and stop
        for good at a throw. Only eligible rows go; a drain that ends early without a throw, or that counts
        less than full passes, leaves nothing eligible; and the counters are exact unless a pass throws
        between its statements while success rows are left. */
    method DrainExecutions(w: Windows, limit: nat, maxPasses: nat, faults: nat -> Fault)
      returns (r: Report, ghost gone: Gone)
      modifies this
      ensures executions == old(executions) - gone.All()
      ensures DrainOutcome(old(executions), w, limit, maxPasses, faults, r, gone)
      ensures forall id :: id in gone.All() ==> id in old(executions) && Expired(old(executions)[id], w)
      ensures !r.failed && r.passes < maxPasses ==> forall id :: id in executions ==> !Expired(executions[id], w)
      ensures r.total == |old(executions)| - |executions| <==>
              !SomePassHidesRows(old(executions), w, limit, maxPasses, faults)
    {
      r, gone := Report(0, 0, 0, 0, false), Gone({}, {});
      ghost var table := executions;
      for i := 0 to maxPasses
        invariant executions == table - gone.All()
        invariant r.passes == i && DrainGoesOn(table, w, limit, faults, r, gone)
      {
        var p, more := PruneExecutions(w, limit, faults(i));
        GoneTwice(table, gone, more);
        DrainStep(table, w, limit, maxPasses, faults, r, gone, p, more);
        gone, r := gone.And(more), AfterPass(r, p);
        if p.Thrown? || p.successDeleted + p.failedDeleted < limit {
          break;
        }
      }
      CountsExactIff(table, w, limit, maxPasses, faults, r, gone);
      EligibleExact(table, w);
      EligibleExact(executions, w);
    }
  }

  // ---- the conversation-history policy ------------------------------------------------------

  lemma {:induction false} SubsetOfSize<T>(s: set<T>, n: nat)
    requires n <= |s|
    ensures exists p :: p <= s && |p| == n
  {
    if n == 0 {
      assert {} <= s;
    } else {
      var x :| x in s;
      SubsetOfSize(s - {x}, n - 1);
      var p :| p <= s - {x} && |p| == n - 1;
      assert p + {x} <= s && |p + {x}| == n;
    }
  }

  /** One pruning of what `gone` left of `table`. */
  method PruneOnce(store: MemoryStore, keepTurns: nat, limit: nat, ghost table: Table, ghost gone: set<Slot>)
    returns (n: nat, ghost gone': set<Slot>)
    requires store.rows == table - gone && gone <= ExcessRows(table, keepTurns)
    modifies store
    ensures store.rows == table - gone' && gone' <= ExcessRows(table, keepTurns) && |gone'| == |gone| + n
    ensures n < limit ==> gone' == ExcessRows(table, keepTurns)
  {
    var excess := ExcessRows(store.rows, keepTurns);
    SubsetOfSize(excess, Min(limit, |excess|));
    var picked :| picked <= excess && |picked| == Min(limit, |excess|);
    PruningsAddUp(table, gone, picked, keepTurns);
    n := store.PruneConversationHistory(keepTurns, limit, picked);
    gone' := gone + picked;
  }

  lemma PruningsAddUp(table: Table, gone: set<Slot>, picked: set<Slot>, keepTurns: nat)
    requires gone <= ExcessRows(table, keepTurns) && picked <= ExcessRows(table - gone, keepTurns)
    ensures table - gone - picked == table - (gone + picked)
    ensures gone + picked <= ExcessRows(table, keepTurns) && |gone + picked| == |gone| + |picked|
    ensures picked == ExcessRows(table - gone, keepTurns) ==> gone + picked == ExcessRows(table, keepTurns)
  {
    ExcessAfter(table, gone, keepTurns);
    UnionCount(gone, picked);
  }

  lemma DrainedEverywhere(table: Table, gone: set<Slot>, keepTurns: nat)
    requires gone == ExcessRows(table, keepTurns)
    ensures NewestOnly(table - gone, table, keepTurns)
  {
    forall c
      ensures SeqsOf(table - gone, c) == set x | x in NewestSeqs(SeqsOf(table, c), keepTurns)
    {
      DrainedHistory(table, gone, keepTurns, c);
    }
  }

  /** Every conversation of `after` holds exactly the newest `keepTurns` turns it has in `before`. */
  ghost predicate NewestOnly(after: Table, before: Table, keepTurns: nat) {
    forall c :: SeqsOf(after, c) == set x | x in NewestSeqs(SeqsOf(before, c), keepTurns)
  }

  datatype HistoryReport = HistoryReport(deleted: nat, passes: nat, failed: bool)

  /** `drainPass` over `pruneConversationHistory`. The counts are exact even when a pass throws, reads of at
      most `keepTurns` turns see nothing, and a drain that ends early without a throw leaves every
      conversation with exactly its newest `keepTurns` turns. */
  method DrainHistory(store: MemoryStore, keepTurns: nat, limit: nat, maxPasses: nat, throws: nat -> bool)
    returns (r: HistoryReport, ghost gone: set<Slot>)
    modifies store
    ensures store.rows == old(store.rows) - gone && gone <= ExcessRows(old(store.rows), keepTurns)
    ensures r.deleted == |gone| && r.passes <= maxPasses && (r.failed ==> throws(r.passes))
    ensures forall c, asked :: asked <= keepTurns ==> Load(store.rows, c, asked) == Load(old(store.rows), c, asked)
    ensures !r.failed && r.passes < maxPasses ==> NewestOnly(store.rows, old(store.rows), keepTurns)
  {
    r, gone := HistoryReport(0, 0, false), {};
    ghost var table := store.rows;
    for i := 0 to maxPasses
      invariant store.rows == table - gone && gone <= ExcessRows(table, keepTurns)
      invariant r.deleted == |gone| && r.passes == i && !r.failed
    {
      if throws(i) {
        r := r.(failed := true);
        break;
      }
      var n;
      n, gone := PruneOnce(store, keepTurns, limit, table, gone);
      r := HistoryReport(r.deleted + n, r.passes + 1, false);
      if n < limit {
        DrainedEverywhere(table, gone, keepTurns);
        break;
      }
    }
    PruneInvisible(table, gone, keepTurns);
  }
}
