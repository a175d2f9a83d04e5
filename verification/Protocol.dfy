/** The durable resume protocol over whole histories: jobs start, issue writes that land one by one or
    get lost, finish or crash; operators reap, resume, skip and respond. At most one job is live. */
module Protocol {
  import opened Common
  import opened Dags
  import opened NodeRun
  import opened Semantics
  import opened JobResults
  import opened Executor
  import opened NodeStates
  import opened ExecutionStore

  /** A live job: the rows it took over, the writes it has issued, and per node the ones not landed. */
  datatype Live = Live(hyd: map<Name, Record>, issued: seq<Write>, pending: map<Name, seq<Partial>>)

  /** At most one job is live: a single run, or a batch that is fanning out. */
  datatype Sys = Sys(durable: Durable, live: Option<Live>, fanning: bool)

  /** The workflow of the execution and the configured iteration cap. */
  datatype Deployment = Deployment(dag: Dag, iterationCap: nat)

  predicate Busy(s: Sys) { s.live.Some? || s.fanning }

  /** The next job will be a batch. */
  predicate BatchNext(s: Sys) { RunsAsBatch(s.durable.inputs, s.durable.context) }

  /** The items of a batch job in this state are run: there are some, and not more than the cap. */
  predicate FansOut(p: Deployment, s: Durable) {
    var items := BatchItems(UserContext(s.inputs, s.context));
    items.Some? && 0 < |items.value| <= IterationCap(p.dag, p.iterationCap)
  }

  /** What a batch job leaves behind: over the cap it throws, otherwise it persists its summaries. */
  predicate BatchEnds(p: Deployment, s: Durable, status: ExecStatus, context: map<Var, Json>) {
    var items := BatchItems(UserContext(s.inputs, s.context));
    if items.Some? && |items.value| > IterationCap(p.dag, p.iterationCap)
    then status == ExFailed && context == s.context
    else HasItems(context)
  }

  datatype Event =
    | StartJob
    | StartBatch
    | FanOut(node: Name)
    | FinishBatch(status: ExecStatus, context: map<Var, Json>)
    | Issue(write: Write)
    | Land(node: Name)
    | Lose(node: Name)
    | Finish(status: ExecStatus, context: map<Var, Json>)
    | Crash(redelivered: bool)
    | Abandon
    | Reap
    | Resume(target: Name, inputs: Json)
    | Skip(node: Name)
    | Respond(node: Name, output: Json)

  // ---- what a job may write ---------------------------------------------------------

  predicate Outcomes(p: Partial) {
    p.status in {Success, Failed, Skipped, Waiting, Pending} && (p.output != Null ==> p.status in {Success, Waiting})
  }

  predicate RunningMark(p: Partial) { p.status == Running && p.output == Null }

  /** A node that the job owns: at most one RUNNING mark, then at most one outcome. */
  predicate AcceptedFor(ps: seq<Partial>) {
    || ps == []
    || (|ps| == 1 && (RunningMark(ps[0]) || Outcomes(ps[0])))
    || (|ps| == 2 && RunningMark(ps[0]) && Outcomes(ps[1]))
  }

  /** A job writes only declared nodes that it did not take over. */
  ghost predicate Accepted(names: set<Name>, hyd: map<Name, Record>, log: seq<Write>) {
    forall n :: AcceptedFor(WritesOf(log, n)) && (n in hyd || n !in names ==> WritesOf(log, n) == [])
  }

  lemma {:induction false} WritesOfPrefix(log: seq<Write>, k: nat, n: Name)
    requires k <= |log|
    ensures WritesOf(log[..k], n) <= WritesOf(log, n)
    decreases |log| - k
  {
    if k < |log| {
      WritesOfPrefix(log, k + 1, n);
      assert log[..k + 1][..k] == log[..k];
      WritesOfAppend(log[..k], log[k], n);
      assert log[..k + 1] == log[..k] + [log[k]];
    } else {
      assert log[..k] == log;
    }
  }

  lemma AcceptedPrefix(names: set<Name>, hyd: map<Name, Record>, log: seq<Write>, k: nat)
    requires Accepted(names, hyd, log) && k <= |log|
    ensures Accepted(names, hyd, log[..k])
  {
    forall n
      ensures AcceptedFor(WritesOf(log[..k], n)) && (n in hyd || n !in names ==> WritesOf(log[..k], n) == [])
    {
      WritesOfPrefix(log, k, n);
      assert AcceptedFor(WritesOf(log, n));
    }
  }

  /** Refinement: the writes of a real job, cut off anywhere, are writes the protocol allows. So a
      crash at any moment of any run of the executor is covered by the histories below. */
  lemma ExecutorIsAccepted(f: Flow, hyd: map<Name, Record>, init: map<Var, Json>, m: Mem, k: nat)
    requires ValidFlow(f) && JobContract(f, hyd, init, m) && k <= |m.writes|
    ensures Accepted(Names(f.dag), hyd, m.writes[..k])
  {
    forall n
      ensures AcceptedFor(WritesOf(m.writes, n)) && (n in hyd || n !in Names(f.dag) ==> WritesOf(m.writes, n) == [])
    {
      assert WritesOf(m.writes, n) == JobWrites(f, hyd, m.results, m.seen, n);
      if n in m.results && n !in hyd {
        OutcomeOfRun(f, hyd, init, m, n);
      }
    }
    AcceptedPrefix(Names(f.dag), hyd, m.writes, k);
  }

  lemma OutcomeOfRun(f: Flow, hyd: map<Name, Record>, init: map<Var, Json>, m: Mem, n: Name)
    requires ValidFlow(f) && JobContract(f, hyd, init, m) && n in m.results && n !in hyd
    ensures Outcomes(RecordWrite(n, m.results[n]).partial)
  {
    if m.results[n] != UNREACHED {
      assert Explained(f, hyd, init, m.results, m.seen, n);
      QuietUnlessLaunched(f, n, m.seen[n]);
    }
  }

  // ---- steps ----------------------------------------------------------------------------

  function PendingOf(l: Live, n: Name): seq<Partial> {
    if n in l.pending then l.pending[n] else []
  }

  /** A job has started: the first queued one is taken off the queue. */
  function Started(s: Durable): Durable
    requires s.jobs != []
  {
    s.(exec := ExRunning, jobs := s.jobs[1..])
  }

  function Issued(l: Live, w: Write): Live {
    Live(l.hyd, l.issued + [w], l.pending[w.name := PendingOf(l, w.name) + [w.partial]])
  }

  function Popped(l: Live, n: Name): Live
    requires PendingOf(l, n) != []
  {
    l.(pending := l.pending[n := PendingOf(l, n)[1..]])
  }

  ghost predicate Next(p: Deployment, s: Sys, e: Event, s': Sys) {
    match e
    case StartJob =>
      && !Busy(s) && s.durable.jobs != [] && !BatchNext(s)
      && s' == Sys(Started(s.durable), Some(Live(Hydrated(p.dag, Load(s.durable.rows)), [], map[])), false)
    case StartBatch =>
      && !Busy(s) && s.durable.jobs != [] && BatchNext(s)
      && s' == Sys(Started(s.durable), None, true)
    case FanOut(n) =>
      s.fanning && n in Names(p.dag) && FansOut(p, s.durable) && s' == s
    case FinishBatch(status, context) =>
      && s.fanning && BatchEnds(p, s.durable, status, context)
      && s' == Sys(s.durable.(exec := status, context := context), None, false)
    case Issue(w) =>
      && s.live.Some?
      && var l := s.live.value;
      && Accepted(Names(p.dag), l.hyd, l.issued + [w])
      && s' == s.(live := Some(Issued(l, w)))
    case Land(n) =>
      && s.live.Some? && PendingOf(s.live.value, n) != []
      && var l := s.live.value;
      && s' == s.(durable := s.durable.(rows := Upsert(s.durable.rows, n, PendingOf(l, n)[0])),
                  live := Some(Popped(l, n)))
    case Lose(n) =>
      && s.live.Some? && PendingOf(s.live.value, n) != []
      && var l := s.live.value;
      && s' == s.(live := Some(Popped(l, n)))
    case Finish(status, context) =>
      && s.live.Some? && (forall n :: PendingOf(s.live.value, n) == [])
      && s' == s.(durable := s.durable.(exec := status, context := context), live := None)
    case Crash(redelivered) =>
      && Busy(s)
      && s' == Sys(if redelivered then s.durable.(jobs := [map[]] + s.durable.jobs) else s.durable, None, false)
    case Abandon =>
      && Busy(s)
      && s' == Sys(s.durable.(exec := ExFailed), None, false)
    case Reap =>
      && !Busy(s) && s' == s.(durable := ReapStep(s.durable))
    case Resume(target, inputs) =>
      && s.durable.exec !in {ExRunning, ExQueued}
      && s' == s.(durable := ResumeStep(s.durable, target, inputs))
    case Skip(n) =>
      && s.durable.exec !in {ExRunning, ExQueued}
      && s' == s.(durable := SkipStep(s.durable, n))
    case Respond(n, output) =>
      && n in s.durable.rows && s.durable.rows[n].status == Waiting && output != Null
      && s' == s.(durable := RespondStep(s.durable, n, output))
  }

  // ---- the invariant of every reachable state ------------------------------------------------

  /** The writes of `n` that have not landed are the last ones issued for it. */
  ghost predicate PendingOK(l: Live, n: Name) {
    PendingOf(l, n) == [] || SuffixOf(PendingOf(l, n), WritesOf(l.issued, n))
  }

  /** A node that the job owns is done only once its outcome has landed. */
  ghost predicate OwnedOK(names: set<Name>, t: Table, l: Live, n: Name) {
    n in names && n !in l.hyd && DoneIn(t, n) ==> PendingOf(l, n) == [] && Concluded(WritesOf(l.issued, n))
  }

  /** While a job is live: what it took over stays done, and of the other declared nodes only those
      whose outcome has landed are done. */
  ghost predicate LiveOK(names: set<Name>, t: Table, l: Live) {
    && Accepted(names, l.hyd, l.issued)
    && (forall n :: n in l.hyd ==> DoneIn(t, n))
    && (forall n {:trigger PendingOK(l, n)} :: PendingOK(l, n))
    && (forall n {:trigger OwnedOK(names, t, l, n)} :: OwnedOK(names, t, l, n))
  }

  predicate Concluded(ps: seq<Partial>) { ps != [] && Outcomes(ps[|ps| - 1]) }

  ghost predicate SuffixOf(a: seq<Partial>, b: seq<Partial>) {
    |a| <= |b| && b[|b| - |a|..] == a
  }

  ghost predicate Safe(names: set<Name>, s: Sys) {
    && Clean(s.durable.rows)
    && (s.live.Some? ==> LiveOK(names, s.durable.rows, s.live.value))
    && (Busy(s) ==> s.durable.exec in {ExRunning, ExQueued}) && !(s.live.Some? && s.fanning)
  }

  /** A job cannot issue another write for a node that is already done. */
  lemma ConcludedIsFinal(ps: seq<Partial>, p: Partial)
    requires AcceptedFor(ps + [p])
    ensures !Concluded(ps)
  {
    if ps != [] {
      assert (ps + [p])[0] == ps[0];
    }
  }

  /** What a job issues concerns a declared node that it did not take over and that is not done. */
  lemma IssueTarget(names: set<Name>, t: Table, l: Live, w: Write)
    requires LiveOK(names, t, l) && Accepted(names, l.hyd, l.issued + [w])
    ensures w.name in names && w.name !in l.hyd && !DoneIn(t, w.name)
  {
    WritesOfAppend(l.issued, w, w.name);
    assert AcceptedFor(WritesOf(l.issued + [w], w.name)) && WritesOf(l.issued + [w], w.name) != [];
    ConcludedIsFinal(WritesOf(l.issued, w.name), w.partial);
    assert OwnedOK(names, t, l, w.name);
  }

  lemma IssuedPending(l: Live, w: Write, n: Name)
    requires PendingOK(l, n)
    ensures PendingOK(Issued(l, w), n)
  {
    WritesOfAppend(l.issued, w, n);
  }

  lemma IssuedOwned(names: set<Name>, t: Table, l: Live, w: Write, n: Name)
    requires OwnedOK(names, t, l, n) && !DoneIn(t, w.name)
    ensures OwnedOK(names, t, Issued(l, w), n)
  {
    WritesOfAppend(l.issued, w, n);
  }

  lemma IssueKeeps(names: set<Name>, t: Table, l: Live, w: Write)
    requires LiveOK(names, t, l) && Accepted(names, l.hyd, l.issued + [w])
    ensures LiveOK(names, t, Issued(l, w))
  {
    IssueTarget(names, t, l, w);
    forall n
      ensures PendingOK(Issued(l, w), n) && OwnedOK(names, t, Issued(l, w), n)
    {
      assert PendingOK(l, n) && OwnedOK(names, t, l, n);
      IssuedPending(l, w, n);
      IssuedOwned(names, t, l, w, n);
    }
  }

  /** Popping the next write of a node; if it is an outcome, nothing is left behind it. */
  lemma PopPending(names: set<Name>, t: Table, l: Live, n: Name)
    requires LiveOK(names, t, l) && PendingOf(l, n) != []
    ensures n in names && n !in l.hyd && !DoneIn(t, n)
    ensures var p, rest := PendingOf(l, n)[0], PendingOf(l, n)[1..];
            && (rest == [] || SuffixOf(rest, WritesOf(l.issued, n)))
            && (RunningMark(p) || (Outcomes(p) && rest == [] && Concluded(WritesOf(l.issued, n))))
  {
    var ps, all := PendingOf(l, n), WritesOf(l.issued, n);
    assert PendingOK(l, n) && OwnedOK(names, t, l, n);
    assert AcceptedFor(all) && all != [];
    assert ps[0] == all[|all| - |ps|];
  }

  lemma LandedRow(t: Table, n: Name, p: Partial)
    requires Clean(t) && !DoneIn(t, n) && (RunningMark(p) || Outcomes(p))
    ensures var t' := Upsert(t, n, p);
            && Clean(t') && (DoneIn(t', n) ==> !RunningMark(p))
            && forall x :: x != n ==> Get(t', x) == Get(t, x) && (DoneIn(t', x) <==> DoneIn(t, x))
  {
  }

  lemma LiveAfterPop(names: set<Name>, t: Table, t': Table, l: Live, n: Name)
    requires LiveOK(names, t, l) && PendingOf(l, n) != []
    requires forall x :: x != n ==> (DoneIn(t', x) <==> DoneIn(t, x))
    requires DoneIn(t', n) ==> !RunningMark(PendingOf(l, n)[0])
    ensures LiveOK(names, t', Popped(l, n))
  {
    PopPending(names, t, l, n);
    var l' := Popped(l, n);
    forall x
      ensures PendingOK(l', x) && OwnedOK(names, t', l', x)
    {
      assert PendingOK(l, x) && OwnedOK(names, t, l, x);
    }
  }

  lemma LandKeeps(names: set<Name>, t: Table, l: Live, n: Name)
    requires Clean(t) && LiveOK(names, t, l) && PendingOf(l, n) != []
    ensures Clean(Upsert(t, n, PendingOf(l, n)[0]))
    ensures LiveOK(names, Upsert(t, n, PendingOf(l, n)[0]), Popped(l, n))
  {
    PopPending(names, t, l, n);
    LandedRow(t, n, PendingOf(l, n)[0]);
    LiveAfterPop(names, t, Upsert(t, n, PendingOf(l, n)[0]), l, n);
  }

  lemma LoseKeeps(names: set<Name>, t: Table, l: Live, n: Name)
    requires LiveOK(names, t, l) && PendingOf(l, n) != []
    ensures LiveOK(names, t, Popped(l, n))
  {
    PopPending(names, t, l, n);
    LiveAfterPop(names, t, t, l, n);
  }

  lemma StartKeeps(p: Deployment, t: Table)
    ensures LiveOK(Names(p.dag), t, Live(Hydrated(p.dag, Load(t)), [], map[]))
  {
  }

  lemma RespondKeeps(names: set<Name>, s: Sys, n: Name, output: Json)
    requires Safe(names, s) && n in s.durable.rows && s.durable.rows[n].status == Waiting && output != Null
    ensures Safe(names, s.(durable := RespondStep(s.durable, n, output)))
  {
    var t' := RespondStep(s.durable, n, output).rows;
    if s.live.Some? {
      forall x
        ensures OwnedOK(names, t', s.live.value, x)
      {
        assert OwnedOK(names, s.durable.rows, s.live.value, x);
      }
    }
  }

  /** Every step keeps the invariant. */
  lemma StepIsSafe(p: Deployment, s: Sys, e: Event, s': Sys)
    requires Safe(Names(p.dag), s) && Next(p, s, e, s')
    ensures Safe(Names(p.dag), s')
  {
    match e
    case StartJob => StartKeeps(p, s.durable.rows);
    case Issue(w) => IssueKeeps(Names(p.dag), s.durable.rows, s.live.value, w);
    case Land(n) => LandKeeps(Names(p.dag), s.durable.rows, s.live.value, n);
    case Lose(n) => LoseKeeps(Names(p.dag), s.durable.rows, s.live.value, n);
    case Respond(n, output) => RespondKeeps(Names(p.dag), s, n, output);
    case StartBatch =>
    case FanOut(_) =>
    case FinishBatch(_, _) =>
    case Finish(_, _) =>
    case Crash(_) =>
    case Abandon =>
    case Reap =>
    case Resume(_, _) =>
    case Skip(_) =>
  }

  // ---- safety over whole histories ----------------------------------------------------------

  /** A history: `states[i + 1]` follows from `states[i]` by `events[i]`. */
  datatype History = History(states: seq<Sys>, events: seq<Event>)

  ghost predicate StepAt(p: Deployment, h: History, i: nat)
    requires |h.states| == |h.events| + 1 && i < |h.events|
  {
    Next(p, h.states[i], h.events[i], h.states[i + 1])
  }

  /** A stretch of an execution's life, from any safe state on. */
  ghost predicate IsTrace(p: Deployment, h: History) {
    && |h.states| == |h.events| + 1 && Safe(Names(p.dag), h.states[0])
    && forall i: nat :: i < |h.events| ==> StepAt(p, h, i)
  }

  /** A history from the insertion of the execution on. */
  ghost predicate IsHistory(p: Deployment, h: History) {
    IsTrace(p, h) && !Busy(h.states[0]) && h.states[0].durable.rows == map[]
  }

  lemma {:induction false} HistoryIsSafe(p: Deployment, h: History, i: nat)
    requires IsTrace(p, h) && i < |h.states|
    ensures Safe(Names(p.dag), h.states[i])
  {
    if i > 0 {
      HistoryIsSafe(p, h, i - 1);
      assert StepAt(p, h, i - 1);
      StepIsSafe(p, h.states[i - 1], h.events[i - 1], h.states[i]);
    }
  }

  /** No step but a `/resume` of the node itself takes its done row away. */
  lemma DoneStays(p: Deployment, s: Sys, e: Event, s': Sys, n: Name)
    requires Safe(Names(p.dag), s) && Next(p, s, e, s') && DoneIn(s.durable.rows, n)
    requires !(e.Resume? && e.target == n)
    ensures DoneIn(s'.durable.rows, n)
  {
    if e.Land? {
      PopPending(Names(p.dag), s.durable.rows, s.live.value, e.node);
      LandedRow(s.durable.rows, e.node, PendingOf(s.live.value, e.node)[0]);
    }
  }

  ghost predicate ResumedBetween(h: History, n: Name, i: nat, j: nat) {
    exists k :: i <= k < j && k < |h.events| && h.events[k].Resume? && h.events[k].target == n
  }

  lemma {:induction false} DoneUntilResumed(p: Deployment, h: History, n: Name, i: nat, j: nat)
    requires IsTrace(p, h) && i <= j < |h.states|
    requires DoneIn(h.states[i].durable.rows, n) && !ResumedBetween(h, n, i, j)
    ensures DoneIn(h.states[j].durable.rows, n)
    decreases j
  {
    if i < j {
      assert forall k :: i <= k < j - 1 ==> !(h.events[k].Resume? && h.events[k].target == n);
      DoneUntilResumed(p, h, n, i, j - 1);
      HistoryIsSafe(p, h, j - 1);
      assert StepAt(p, h, j - 1);
      DoneStays(p, h.states[j - 1], h.events[j - 1], h.states[j], n);
    }
  }

  /** Once the durable row of a node is success, failed, skipped or waiting, no job, single or batch, ever
      writes that row again, across any crashes, reaps, resumes of other nodes, skips and responses, until
      that very node is the target of a `/resume`. */
  lemma NeverWrittenAgain(p: Deployment, h: History, n: Name, i: nat, j: nat)
    requires IsTrace(p, h) && i <= j < |h.events|
    requires DoneIn(h.states[i].durable.rows, n)
    requires h.events[j].Issue? && h.events[j].write.name == n
    ensures ResumedBetween(h, n, i, j)
  {
    HistoryIsSafe(p, h, j);
    assert StepAt(p, h, j);
    IssueTarget(Names(p.dag), h.states[j].durable.rows, h.states[j].live.value, h.events[j].write);
    if !ResumedBetween(h, n, i, j) {
      DoneUntilResumed(p, h, n, i, j);
      assert false;
    }
  }

  /** A job never writes a row that it took over, and only successful and waiting rows hold outputs. */
  lemma TakenOverNeverWritten(p: Deployment, h: History, i: nat)
    requires IsTrace(p, h) && i < |h.states|
    ensures Clean(h.states[i].durable.rows)
    ensures h.states[i].live.Some? ==>
              var l := h.states[i].live.value;
              forall n :: n in l.hyd ==> WritesOf(l.issued, n) == [] && DoneIn(h.states[i].durable.rows, n)
  {
    HistoryIsSafe(p, h, i);
  }

  // ---- invocations ------------------------------------------------------------------------------

  /** The plugin of `n` is invoked: by a single run at the moment its RUNNING mark is issued, by a batch
      without any mark. */
  predicate Invokes(e: Event, n: Name) {
    (e.Issue? && e.write.name == n && e.write.partial.status == Running) || (e.FanOut? && e.node == n)
  }

  /** Whole-history safety: a node whose row is done is invoked again only after a `/resume` of that very
      node, unless at that moment the live job is a batch with items to run. */
  lemma NeverInvokedAgain(p: Deployment, h: History, n: Name, i: nat, j: nat)
    requires IsTrace(p, h) && i <= j < |h.events| && !FansOut(p, h.states[j].durable)
    requires DoneIn(h.states[i].durable.rows, n) && Invokes(h.events[j], n)
    ensures ResumedBetween(h, n, i, j)
  {
    assert StepAt(p, h, j);
    NeverWrittenAgain(p, h, n, i, j);
  }

  /** In particular a success is invoked again only after a `/resume` of that node. */
  lemma SuccessNeverReinvoked(p: Deployment, h: History, n: Name, i: nat, j: nat)
    requires IsHistory(p, h) && i <= j < |h.events| && !FansOut(p, h.states[j].durable)
    requires n in h.states[i].durable.rows && h.states[i].durable.rows[n].status == Success
    requires Invokes(h.events[j], n)
    ensures ResumedBetween(h, n, i, j)
  {
    NeverInvokedAgain(p, h, n, i, j);
  }

  /** When no batch is called for in a whole history: not at first, and either there are inputs or no
      single run persists an array under `items`. */
  lemma {:induction false} SingleThroughout(p: Deployment, h: History, i: nat)
    requires IsHistory(p, h) && i < |h.states| && !BatchNext(h.states[0])
    requires forall k :: 0 <= k < i && h.events[k].Finish? ==>
               UserContext(h.states[0].durable.inputs, map[]) != Obj(map[]) || !HasItems(h.events[k].context)
    ensures !BatchNext(h.states[i]) && !h.states[i].fanning
    ensures h.states[i].durable.inputs == h.states[0].durable.inputs
  {
    hide FansOut, BatchEnds;
    if i > 0 {
      SingleThroughout(p, h, i - 1);
      assert StepAt(p, h, i - 1);
    }
  }

  /** `h` leads from `s` through the next job, not beyond: nothing finishes and `n` is not resumed. */
  ghost predicate DuringNextJob(p: Deployment, h: History, s: Sys, n: Name) {
    && IsTrace(p, h) && h.states[0] == s
    && forall i :: 0 <= i < |h.events| ==>
         !h.events[i].Finish? && !h.events[i].FinishBatch? && !(h.events[i].Resume? && h.events[i].target == n)
  }

  lemma {:induction false} SameContext(p: Deployment, h: History, s: Sys, n: Name, i: nat)
    requires DuringNextJob(p, h, s, n) && i < |h.states|
    ensures h.states[i].durable.inputs == s.durable.inputs && h.states[i].durable.context == s.durable.context
  {
    if i > 0 {
      SameContext(p, h, s, n, i - 1);
      assert StepAt(p, h, i - 1);
    }
  }

  /** The exact condition: with a job queued, a done node can be invoked by that job without being resumed
      if and only if the job is a batch with at least one item and no more than the cap, which its inputs and
      its persisted context decide. */
  lemma ReinvokedIff(p: Deployment, s: Sys, n: Name)
    requires Safe(Names(p.dag), s) && !Busy(s) && s.durable.jobs != []
    requires n in Names(p.dag) && DoneIn(s.durable.rows, n)
    ensures (exists h :: DuringNextJob(p, h, s, n) && h.events != [] && Invokes(h.events[|h.events| - 1], n))
       <==> FansOut(p, s.durable)
  {
    if FansOut(p, s.durable) {
      BatchInvokes(p, s, n);
    } else if h :| DuringNextJob(p, h, s, n) && h.events != [] && Invokes(h.events[|h.events| - 1], n) {
      var j := |h.events| - 1;
      SameContext(p, h, s, n, j);
      NeverInvokedAgain(p, h, n, 0, j);
      assert false;
    }
  }

  lemma BatchInvokes(p: Deployment, s: Sys, n: Name)
    requires Safe(Names(p.dag), s) && !Busy(s) && s.durable.jobs != [] && FansOut(p, s.durable) && n in Names(p.dag)
    ensures exists h :: DuringNextJob(p, h, s, n) && h.events != [] && Invokes(h.events[|h.events| - 1], n)
  {
    var s' := Sys(Started(s.durable), None, true);
    var h := History([s, s', s'], [StartBatch, FanOut(n)]);
    assert StepAt(p, h, 0) && StepAt(p, h, 1);
    assert DuringNextJob(p, h, s, n) && Invokes(h.events[1], n);
  }
}
