/** Pause and resume (engine/executor.js, api/executions.js, worker.js): running a workflow to a
    waiting node, responding, and running the resumed job comes to the same results and the same
    context as one uninterrupted job whose plugin had returned the response at once. */
module PauseResume {
  import opened Common
  import opened Dags
  import opened NodeRun
  import opened Semantics
  import opened JobResults

  /** `f'` is `f`, except that where the plugin of an answered node asks to wait it returns the answer. */
  ghost predicate Answered(f: Flow, f': Flow, answers: map<Name, Json>) {
    && f'.dag == f.dag
    && (forall n, output :: f'.bindings(n, output) == f.bindings(n, output))
    && (forall n :: f'.terminate(n) == f.terminate(n))
    && (forall n, c {:trigger Own(f', n, c)} {:trigger Own(f, n, c)} ::
          Own(f', n, c) == if n in answers && Own(f, n, c).record.status == Waiting
                           then Outcome(Record(Success, answers[n]), false) else Own(f, n, c))
  }

  /** The rows the resumed job takes over: everything that ended, with the responses in place. */
  function Responded(res: map<Name, Record>, answers: map<Name, Json>): map<Name, Record> {
    map n | n in res && res[n].status != Pending :: if n in answers then Record(Success, answers[n]) else res[n]
  }

  /** The answers are non-null and go to nodes that wait. Jobs that follow no response at all, such as a
      redelivered one, have none. */
  ghost predicate Answerable(res: map<Name, Record>, answers: map<Name, Json>) {
    forall w :: w in answers ==> w in res && res[w].status == Waiting && answers[w] != Null
  }

  /** Every success that binds variables has a non-null output. */
  ghost predicate NonNullOutputs(f: Flow, res: map<Name, Record>) {
    forall n :: n in res && res[n].status == Success && Writes(f, n) != {} ==> res[n].output != Null
  }

  /** No finished node writes `v`. */
  ghost predicate Unwritten(f: Flow, res: map<Name, Record>, v: Var) {
    forall n :: n in res && res[n].status == Success ==> v !in Writes(f, n)
  }

  /** The initial data of the two jobs agree where the first job has bound nothing. */
  ghost predicate SameInit(f: Flow, res: map<Name, Record>, init1: map<Var, Json>, init2: map<Var, Json>) {
    forall v :: Unwritten(f, res, v) ==> SameAt(init1, init2, v)
  }

  ghost predicate NoAborts(f: Flow, hyd: map<Name, Record>, res: map<Name, Record>, seen: map<Name, Ctx>) {
    forall n :: !AbortsAt(f, hyd, res, seen, n)
  }

  /** A snapshot of the first job with the answered nodes taken out. */
  function Before(c: Ctx, answered: set<Name>): Ctx { Ctx(c.vars, c.nodes - answered) }

  /** What each node saw, in the joined history. */
  function Joined(
    hyd: map<Name, Record>, answered: set<Name>, seen1: map<Name, Ctx>, seen2: map<Name, Ctx>): map<Name, Ctx>
  {
    map n | n in seen1.Keys + seen2.Keys ::
      if n in seen1 && (n in hyd || n !in seen2) then Before(seen1[n], answered) else seen2[n]
  }

  // ---- nodes of the first job ------------------------------------------------------------

  /** Nothing that ran in the first job depends on the waiting node. */
  lemma NotBehindWaiting(
    f: Flow, order: seq<Name>, init: map<Var, Json>, res: map<Name, Record>, seen: map<Name, Ctx>, w: Name, n: Name)
    requires TopologicalOrder(f.dag, order) && KnownEndpoints(f.dag)
    requires CompleteRun(f, map[], init, res, seen) && w in res && res[w].status == Waiting
    requires n in res && res[n].status != Pending
    ensures !Ancestor(f.dag, w, n)
  {
    PendingIffWaitingAncestor(f, order, init, res, seen, n);
  }

  lemma BeforeConsistent(f: Flow, init: map<Var, Json>, c: Ctx, answers: map<Name, Json>)
    requires Consistent(f, map[], init, c)
    requires forall w :: w in answers && w in c.nodes ==> c.nodes[w].status == Waiting
    ensures Consistent(f, map[], init, Before(c, answers.Keys))
  {
    var c' := Before(c, answers.Keys);
    forall m | m in c'.nodes
      ensures ParentsSettled(f.dag, c'.nodes, m)
    {
      assert ParentsSettled(f.dag, c.nodes, m);
      forall p | IsParent(f.dag, p, m)
        ensures SettledIn(c'.nodes, p)
      {
        assert SettledIn(c.nodes, p);
      }
    }
    if DisjointWrites(f) {
      forall n
        ensures Publishes(map[], c'.nodes, n) <==> Publishes(map[], c.nodes, n)
      {
      }
      forall v | Unpublished(f, map[], c'.nodes, v)
        ensures SameAt(c'.vars, init, v)
      {
        assert Unpublished(f, map[], c.nodes, v);
      }
    }
  }

  lemma BeforeAgrees(f: Flow, n: Name, c: Ctx, answers: map<Name, Json>)
    requires forall w :: w in answers ==> !Ancestor(f.dag, w, n)
    ensures AgreeFor(f, n, c, Before(c, answers.Keys))
    ensures SkippedParent(f.dag, Before(c, answers.Keys).nodes, n) <==> SkippedParent(f.dag, c.nodes, n)
  {
    forall a | Ancestor(f.dag, a, n)
      ensures SameAt(c.nodes, Before(c, answers.Keys).nodes, a)
    {
    }
    forall p | IsParent(f.dag, p, n)
      ensures p !in answers
    {
      ParentIsAncestor(f.dag, p, n);
    }
  }

  /** Both flows know the same consistent states. */
  lemma SameConsistent(
    f: Flow, f': Flow, answers: map<Name, Json>, hyd: map<Name, Record>, init: map<Var, Json>, c: Ctx)
    requires Answered(f, f', answers) && Consistent(f, hyd, init, c)
    ensures Consistent(f', hyd, init, c)
  {
    SameWrites(f, f', answers);
    if DisjointWrites(f') {
      SameDisjoint(f, f', answers);
      SameVarsOK(f, f', answers, hyd, init, c.nodes, c.vars);
    }
  }

  lemma SameWrites(f: Flow, f': Flow, answers: map<Name, Json>)
    requires Answered(f, f', answers)
    ensures forall n :: Writes(f', n) == Writes(f, n)
  {
  }

  lemma SameDisjoint(f: Flow, f': Flow, answers: map<Name, Json>)
    requires Answered(f, f', answers) && DisjointWrites(f')
    ensures DisjointWrites(f)
  {
    SameWrites(f, f', answers);
  }

  lemma SameVarsOK(
    f: Flow, f': Flow, answers: map<Name, Json>, hyd: map<Name, Record>, init: map<Var, Json>,
    res: map<Name, Record>, vars: map<Var, Json>)
    requires Answered(f, f', answers) && VarsOK(f, hyd, init, res, vars)
    ensures VarsOK(f', hyd, init, res, vars)
  {
    SameWrites(f, f', answers);
    forall v | Unpublished(f', hyd, res, v)
      ensures SameAt(vars, init, v)
    {
      assert Unpublished(f, hyd, res, v);
    }
  }

  /** A node of the first job, seen as a node of the uninterrupted one. */
  lemma FirstJobNode(
    f: Flow, f': Flow, answers: map<Name, Json>, order: seq<Name>, init: map<Var, Json>,
    res1: map<Name, Record>, seen1: map<Name, Ctx>, res: map<Name, Record>, n: Name)
    requires ValidFlow(f) && Answered(f, f', answers) && Local(f')
    requires TopologicalOrder(f.dag, order) && KnownEndpoints(f.dag)
    requires CompleteRun(f, map[], init, res1, seen1) && Answerable(res1, answers)
    requires n in res1 && res1[n].status != Pending
    requires SubMap(Responded(res1, answers), res)
    ensures n in seen1 && Snapshot(f', map[], init, res, n, Before(seen1[n], answers.Keys))
    ensures res[n] == Expected(f', n, Before(seen1[n], answers.Keys)).record
    ensures Aborting(f', n, Before(seen1[n], answers.Keys)) ==> Aborting(f, n, seen1[n])
  {
    var c := seen1[n];
    assert Explained(f, map[], init, res1, seen1, n);
    forall w | w in answers
      ensures !Ancestor(f.dag, w, n)
    {
      NotBehindWaiting(f, order, init, res1, seen1, w, n);
    }
    BeforeAgrees(f', n, c, answers);
    FirstJobSnapshot(f, f', answers, init, res1, res, n, c);
    FirstJobOutcome(f, f', answers, n, c, res1[n]);
  }

  lemma FirstJobOutcome(f: Flow, f': Flow, answers: map<Name, Json>, n: Name, c: Ctx, r: Record)
    requires ValidFlow(f) && Answered(f, f', answers) && Local(f')
    requires r == Expected(f, n, c).record && (n in answers ==> r.status == Waiting)
    requires AgreeFor(f', n, c, Before(c, answers.Keys))
    requires SkippedParent(f.dag, Before(c, answers.Keys).nodes, n) <==> SkippedParent(f.dag, c.nodes, n)
    ensures Expected(f', n, Before(c, answers.Keys)).record == if n in answers then Record(Success, answers[n]) else r
    ensures Aborting(f', n, Before(c, answers.Keys)) ==> Aborting(f, n, c)
  {
    assert Own(f', n, c) == Own(f', n, Before(c, answers.Keys));
  }

  lemma FirstJobSnapshot(
    f: Flow, f': Flow, answers: map<Name, Json>, init: map<Var, Json>,
    res1: map<Name, Record>, res: map<Name, Record>, n: Name, c: Ctx)
    requires Answered(f, f', answers) && Snapshot(f, map[], init, res1, n, c)
    requires Answerable(res1, answers) && forall w :: w in answers ==> !Ancestor(f.dag, w, n)
    requires SubMap(Responded(res1, answers), res)
    ensures Snapshot(f', map[], init, res, n, Before(c, answers.Keys))
  {
    var c' := Before(c, answers.Keys);
    BeforeConsistent(f, init, c, answers);
    SameConsistent(f, f', answers, map[], init, c');
    forall m | m in c'.nodes
      ensures m in res && res[m] == c'.nodes[m]
    {
      assert m in c.nodes && m in res1 && Recordable(c.nodes[m]);
      assert m in Responded(res1, answers);
    }
    forall p | IsParent(f.dag, p, n)
      ensures SettledIn(c'.nodes, p)
    {
      ParentIsAncestor(f.dag, p, n);
      assert SettledIn(c.nodes, p);
    }
  }

  // ---- nodes of the resumed job --------------------------------------------------------------

  /** What the resumed job took over has all its parents settled. */
  lemma RespondedClosed(
    f: Flow, answers: map<Name, Json>, init: map<Var, Json>, res1: map<Name, Record>, seen1: map<Name, Ctx>, m: Name)
    requires CompleteRun(f, map[], init, res1, seen1) && Answerable(res1, answers)
    requires m in Responded(res1, answers)
    ensures ParentsSettled(f.dag, Responded(res1, answers), m)
  {
    assert Explained(f, map[], init, res1, seen1, m);
    SameParents(f, map[], init, res1, m, seen1[m]);
    forall p | IsParent(f.dag, p, m)
      ensures SettledIn(Responded(res1, answers), p)
    {
      assert SettledIn(res1, p);
    }
  }

  /** A state of the resumed job is a state of an uninterrupted one. */
  lemma ResumedVars(
    f: Flow, answers: map<Name, Json>, init: map<Var, Json>, init2: map<Var, Json>,
    res1: map<Name, Record>, nodes: map<Name, Record>, vars: map<Var, Json>)
    requires ValidFlow(f) && NonNullOutputs(f, res1) && SameInit(f, res1, init, init2)
    requires Answerable(res1, answers) && res1.Keys <= Names(f.dag)
    requires SubMap(Responded(res1, answers), nodes)
    requires VarsOK(f, Responded(res1, answers), init2, nodes, vars)
    ensures VarsOK(f, map[], init, nodes, vars)
  {
    var hyd := Responded(res1, answers);
    forall n | n in Names(f.dag) && Writes(f, n) != {}
      ensures Publishes(map[], nodes, n) <==> Publishes(hyd, nodes, n)
    {
      assert n in hyd && hyd[n].status == Success ==> hyd[n].output != Null;
    }
    forall v | Unpublished(f, map[], nodes, v)
      ensures SameAt(vars, init, v)
    {
      assert Unpublished(f, hyd, nodes, v);
      forall n | n in res1 && res1[n].status == Success
        ensures n in hyd && nodes[n] == res1[n]
      {
      }
      UnwrittenBefore(f, answers, res1, nodes, v);
    }
  }

  lemma UnwrittenBefore(
    f: Flow, answers: map<Name, Json>, res1: map<Name, Record>, nodes: map<Name, Record>, v: Var)
    requires SubMap(Responded(res1, answers), nodes) && Answerable(res1, answers)
    requires Unpublished(f, map[], nodes, v) && res1.Keys <= Names(f.dag)
    ensures Unwritten(f, res1, v)
  {
    forall n | n in res1 && res1[n].status == Success
      ensures v !in Writes(f, n)
    {
      assert n in Responded(res1, answers);
      assert Publishes(map[], nodes, n);
    }
  }

  /** Everything known of a pause: a fresh, completed and unaborted run, answers to nodes that it left
      waiting, and initial data for the resumed job. */
  ghost predicate Paused(
    f: Flow, f': Flow, answers: map<Name, Json>, order: seq<Name>, init: map<Var, Json>, init2: map<Var, Json>,
    res1: map<Name, Record>, seen1: map<Name, Ctx>)
  {
    && ValidFlow(f) && Answered(f, f', answers)
    && TopologicalOrder(f.dag, order) && KnownEndpoints(f.dag)
    && Local(f') && DisjointWrites(f')
    && CompleteRun(f, map[], init, res1, seen1) && NoAborts(f, map[], res1, seen1)
    && Answerable(res1, answers)
    && NonNullOutputs(f, res1) && SameInit(f, res1, init, init2)
  }

  lemma ResumedConsistent(
    f: Flow, f': Flow, answers: map<Name, Json>, order: seq<Name>, init: map<Var, Json>, init2: map<Var, Json>,
    res1: map<Name, Record>, seen1: map<Name, Ctx>, c: Ctx)
    requires Paused(f, f', answers, order, init, init2, res1, seen1)
    requires Consistent(f, Responded(res1, answers), init2, c)
    ensures Consistent(f', map[], init, c)
  {
    var hyd := Responded(res1, answers);
    forall m | m in c.nodes
      ensures ParentsSettled(f.dag, c.nodes, m)
    {
      if m in hyd {
        RespondedClosed(f, answers, init, res1, seen1, m);
        SettledGrows(f.dag, hyd, c.nodes);
      }
    }
    SameDisjoint(f, f', answers);
    ResumedVars(f, answers, init, init2, res1, c.nodes, c.vars);
    assert Consistent(f, map[], init, c);
    SameConsistent(f, f', answers, map[], init, c);
  }

  /** A node of the resumed job, seen as a node of the uninterrupted one. */
  lemma SecondJobNode(
    f: Flow, f': Flow, answers: map<Name, Json>, order: seq<Name>, init: map<Var, Json>, init2: map<Var, Json>,
    res1: map<Name, Record>, seen1: map<Name, Ctx>, res2: map<Name, Record>, seen2: map<Name, Ctx>, n: Name)
    requires Paused(f, f', answers, order, init, init2, res1, seen1)
    requires n !in Responded(res1, answers)
    requires Explained(f, Responded(res1, answers), init2, res2, seen2, n)
    ensures Snapshot(f', map[], init, res2, n, seen2[n]) && res2[n] == Expected(f', n, seen2[n]).record
    ensures Aborting(f', n, seen2[n]) ==> Aborting(f, n, seen2[n])
  {
    ResumedConsistent(f, f', answers, order, init, init2, res1, seen1, seen2[n]);
    assert n !in answers;
    assert Own(f', n, seen2[n]) == Own(f, n, seen2[n]);
  }

  lemma JoinedNode(
    f: Flow, f': Flow, answers: map<Name, Json>, order: seq<Name>, init: map<Var, Json>, init2: map<Var, Json>,
    res1: map<Name, Record>, seen1: map<Name, Ctx>, res2: map<Name, Record>, seen2: map<Name, Ctx>, n: Name)
    requires Paused(f, f', answers, order, init, init2, res1, seen1)
    requires SubMap(Responded(res1, answers), res2) && n in res2
    requires n !in Responded(res1, answers) ==> Explained(f, Responded(res1, answers), init2, res2, seen2, n)
    ensures Explained(f', map[], init, res2, Joined(Responded(res1, answers), answers.Keys, seen1, seen2), n)
  {
    if n in Responded(res1, answers) {
      FirstJobNode(f, f', answers, order, init, res1, seen1, res2, n);
    } else {
      SecondJobNode(f, f', answers, order, init, init2, res1, seen1, res2, seen2, n);
    }
  }

  /** The two jobs joined are one fresh run of the flow whose plugin answers at once. */
  lemma JoinedRun(
    f: Flow, f': Flow, answers: map<Name, Json>, order: seq<Name>, init: map<Var, Json>, init2: map<Var, Json>,
    res1: map<Name, Record>, seen1: map<Name, Ctx>, res2: map<Name, Record>, seen2: map<Name, Ctx>)
    requires Paused(f, f', answers, order, init, init2, res1, seen1)
    requires CompleteRun(f, Responded(res1, answers), init2, res2, seen2)
    ensures CompleteRun(f', map[], init, res2, Joined(Responded(res1, answers), answers.Keys, seen1, seen2))
  {
    var hyd := Responded(res1, answers);
    forall n | n in res2 && res2[n] != UNREACHED
      ensures Explained(f', map[], init, res2, Joined(hyd, answers.Keys, seen1, seen2), n)
    {
      JoinedNode(f, f', answers, order, init, init2, res1, seen1, res2, seen2, n);
    }
    PendingStaysBlocked(f, answers, init2, res1, res2, seen2);
  }

  lemma PendingStaysBlocked(
    f: Flow, answers: map<Name, Json>, init2: map<Var, Json>, res1: map<Name, Record>,
    res2: map<Name, Record>, seen2: map<Name, Ctx>)
    requires CompleteRun(f, Responded(res1, answers), init2, res2, seen2)
    ensures forall n :: n in res2 && res2[n].status == Pending ==> Blocked(f.dag, res2, n)
  {
    forall n | n in res2 && res2[n].status == Pending
      ensures Blocked(f.dag, res2, n)
    {
      assert n !in Responded(res1, answers);
    }
  }

  lemma JoinedNoAborts(
    f: Flow, f': Flow, answers: map<Name, Json>, order: seq<Name>, init: map<Var, Json>, init2: map<Var, Json>,
    res1: map<Name, Record>, seen1: map<Name, Ctx>, res2: map<Name, Record>, seen2: map<Name, Ctx>)
    requires Paused(f, f', answers, order, init, init2, res1, seen1)
    requires CompleteRun(f, Responded(res1, answers), init2, res2, seen2)
    requires NoAborts(f, Responded(res1, answers), res2, seen2)
    ensures NoAborts(f', map[], res2, Joined(Responded(res1, answers), answers.Keys, seen1, seen2))
  {
    var hyd := Responded(res1, answers);
    var seen := Joined(hyd, answers.Keys, seen1, seen2);
    forall n
      ensures !AbortsAt(f', map[], res2, seen, n)
    {
      if n in hyd {
        FirstJobNode(f, f', answers, order, init, res1, seen1, res2, n);
        assert !AbortsAt(f, map[], res1, seen1, n);
      } else if n in res2 && res2[n] != UNREACHED {
        assert Explained(f, hyd, init2, res2, seen2, n);
        SecondJobNode(f, f', answers, order, init, init2, res1, seen1, res2, seen2, n);
        assert !AbortsAt(f, hyd, res2, seen2, n);
      }
    }
  }

  /** Pause/resume equivalence. Hypotheses: no job aborted; successes that bind variables have non-null
      outputs; no variable has two writers; nodes depend on their ancestors only; and the initial data of
      the resumed job differ at most in what the first job had already bound. Then the uninterrupted job
      is not aborted either, and it ends with the results and the context of the resumed one. */
  lemma PauseResumeEquivalence(
    f: Flow, f': Flow, answers: map<Name, Json>, order: seq<Name>, init: map<Var, Json>, init2: map<Var, Json>,
    res1: map<Name, Record>, seen1: map<Name, Ctx>,
    res2: map<Name, Record>, seen2: map<Name, Ctx>, vars2: map<Var, Json>,
    resD: map<Name, Record>, seenD: map<Name, Ctx>, varsD: map<Var, Json>)
    requires Paused(f, f', answers, order, init, init2, res1, seen1) && ValidFlow(f')
    requires CompleteRun(f, Responded(res1, answers), init2, res2, seen2)
    requires NoAborts(f, Responded(res1, answers), res2, seen2)
    requires VarsOK(f, Responded(res1, answers), init2, res2, vars2)
    requires PartialRun(f', map[], init, resD, seenD) && VarsOK(f', map[], init, resD, varsD)
    requires NoAborts(f', map[], resD, seenD) ==> CompleteRun(f', map[], init, resD, seenD)
    ensures NoAborts(f', map[], resD, seenD)
    ensures resD == res2 && varsD == vars2
  {
    var seen := Joined(Responded(res1, answers), answers.Keys, seen1, seen2);
    JoinedRun(f, f', answers, order, init, init2, res1, seen1, res2, seen2);
    JoinedNoAborts(f, f', answers, order, init, init2, res1, seen1, res2, seen2);
    ResumedVars(f, answers, init, init2, res1, res2, vars2);
    SameVarsOK(f, f', answers, map[], init, res2, vars2);
    SameAsUnaborted(f', order, init, res2, seen, vars2, resD, seenD, varsD);
  }

  /** A fresh, complete and unaborted run, with its context. */
  ghost predicate FreshRun(
    g: Flow, init: map<Var, Json>, res: map<Name, Record>, seen: map<Name, Ctx>, vars: map<Var, Json>)
  {
    CompleteRun(g, map[], init, res, seen) && NoAborts(g, map[], res, seen) && VarsOK(g, map[], init, res, vars)
  }

  /** A workflow with one complete run that does not abort has no other run. */
  lemma SameAsUnaborted(
    f: Flow, order: seq<Name>, init: map<Var, Json>, res: map<Name, Record>, seen: map<Name, Ctx>, vars: map<Var, Json>,
    resD: map<Name, Record>, seenD: map<Name, Ctx>, varsD: map<Var, Json>)
    requires ValidFlow(f) && Local(f) && DisjointWrites(f) && TopologicalOrder(f.dag, order)
    requires FreshRun(f, init, res, seen, vars)
    requires PartialRun(f, map[], init, resD, seenD) && VarsOK(f, map[], init, resD, varsD)
    requires NoAborts(f, map[], resD, seenD) ==> CompleteRun(f, map[], init, resD, seenD)
    ensures NoAborts(f, map[], resD, seenD) && resD == res && varsD == vars
  {
    forall n
      ensures !AbortsAt(f, map[], resD, seenD, n)
    {
      if n in resD {
        Confluence(f, order, map[], init, resD, seenD, res, seen, n);
        assert !AbortsAt(f, map[], res, seen, n);
      }
    }
    Deterministic(f, order, map[], init, resD, seenD, varsD, res, seen, vars);
  }

  // ---- any number of pauses --------------------------------------------------------------

  /** The flows differ at most in what the nodes in `answered` do. */
  ghost predicate SameOutside(f: Flow, g: Flow, answered: set<Name>) {
    && g.dag == f.dag
    && (forall n, output :: g.bindings(n, output) == f.bindings(n, output))
    && (forall n :: g.terminate(n) == f.terminate(n))
    && (forall n, c {:trigger Own(g, n, c)} :: n !in answered ==> Own(g, n, c) == Own(f, n, c))
  }

  /** What the plugins of rehydrated nodes would do makes no difference to a job. */
  lemma RehydratedPluginsIrrelevant(
    f: Flow, g: Flow, answered: set<Name>, hyd: map<Name, Record>, init: map<Var, Json>,
    res: map<Name, Record>, seen: map<Name, Ctx>)
    requires SameOutside(f, g, answered) && answered <= hyd.Keys
    requires CompleteRun(f, hyd, init, res, seen) && NoAborts(f, hyd, res, seen)
    ensures CompleteRun(g, hyd, init, res, seen) && NoAborts(g, hyd, res, seen)
  {
    forall n | n in res && n !in hyd && res[n] != UNREACHED
      ensures Explained(g, hyd, init, res, seen, n)
    {
      assert Explained(f, hyd, init, res, seen, n);
      SameConsistentOutside(f, g, answered, hyd, init, seen[n]);
      assert Own(g, n, seen[n]) == Own(f, n, seen[n]);
    }
    forall n
      ensures !AbortsAt(g, hyd, res, seen, n)
    {
      assert !AbortsAt(f, hyd, res, seen, n);
      if n in seen && n !in hyd {
        assert Own(g, n, seen[n]) == Own(f, n, seen[n]);
      }
    }
  }

  lemma SameConsistentOutside(
    f: Flow, g: Flow, answered: set<Name>, hyd: map<Name, Record>, init: map<Var, Json>, c: Ctx)
    requires SameOutside(f, g, answered) && Consistent(f, hyd, init, c)
    ensures Consistent(g, hyd, init, c)
  {
    assert forall n :: Writes(g, n) == Writes(f, n);
    if DisjointWrites(g) {
      assert DisjointWrites(f);
      forall v | Unpublished(g, hyd, c.nodes, v)
        ensures SameAt(c.vars, init, v)
      {
        assert Unpublished(f, hyd, c.nodes, v);
      }
    }
  }

  lemma SameVarsOutside(
    f: Flow, g: Flow, answered: set<Name>, hyd: map<Name, Record>, init: map<Var, Json>, res: map<Name, Record>,
    vars: map<Var, Json>)
    requires SameOutside(f, g, answered) && VarsOK(f, hyd, init, res, vars)
    ensures VarsOK(g, hyd, init, res, vars)
  {
    assert forall n :: Writes(g, n) == Writes(f, n);
    forall v | Unpublished(g, hyd, res, v)
      ensures SameAt(vars, init, v)
    {
      assert Unpublished(f, hyd, res, v);
    }
  }

  /** One job: the response that started it, its initial data and its outcome. */
  datatype Stage = Stage(
    answers: map<Name, Json>, flow: Flow, init: map<Var, Json>,
    res: map<Name, Record>, seen: map<Name, Ctx>, vars: map<Var, Json>)

  /** `s` answers a node that waits in `res` and resumes the run with the plugins of `f`; `s.flow` is `g`
      with the answer given at once. */
  ghost predicate StageOK(f: Flow, g: Flow, init: map<Var, Json>, res: map<Name, Record>, s: Stage) {
    && Answered(g, s.flow, s.answers) && ValidFlow(s.flow)
    && Local(s.flow) && DisjointWrites(s.flow)
    && Answerable(res, s.answers)
    && NonNullOutputs(g, res) && SameInit(g, res, init, s.init)
    && CompleteRun(f, Responded(res, s.answers), s.init, s.res, s.seen)
    && NoAborts(f, Responded(res, s.answers), s.res, s.seen)
    && VarsOK(f, Responded(res, s.answers), s.init, s.res, s.vars)
  }

  /** A chain of resumed jobs, all run with the plugins of `f`. `stages[i].flow` answers the responses
      given up to stage `i`; `res` is where the chain starts, as a run of `g`. */
  ghost predicate Chain(f: Flow, g: Flow, init: map<Var, Json>, res: map<Name, Record>, stages: seq<Stage>)
    decreases |stages|
  {
    stages == [] ||
    (StageOK(f, g, init, res, stages[0]) && Chain(f, stages[0].flow, init, stages[0].res, stages[1..]))
  }

  ghost function LastFlow(g: Flow, stages: seq<Stage>): Flow {
    if stages == [] then g else stages[|stages| - 1].flow
  }

  ghost function LastResults(res: map<Name, Record>, stages: seq<Stage>): map<Name, Record> {
    if stages == [] then res else stages[|stages| - 1].res
  }

  ghost function LastVars(vars: map<Var, Json>, stages: seq<Stage>): map<Var, Json> {
    if stages == [] then vars else stages[|stages| - 1].vars
  }

  lemma AnsweredOutside(f: Flow, g: Flow, g': Flow, answered: set<Name>, answers: map<Name, Json>)
    requires SameOutside(f, g, answered) && Answered(g, g', answers)
    ensures SameOutside(f, g', answered + answers.Keys)
  {
    forall n, c | n !in answered + answers.Keys
      ensures Own(g', n, c) == Own(f, n, c)
    {
      assert Own(g, n, c) == Own(f, n, c);
    }
  }

  lemma AnswersStay(f: Flow, g: Flow, answered: set<Name>, res: map<Name, Record>, s: Stage)
    requires forall n :: n in answered ==> n in res && res[n].status == Success
    requires Answerable(res, s.answers)
    requires CompleteRun(f, Responded(res, s.answers), s.init, s.res, s.seen)
    ensures forall n :: n in answered + s.answers.Keys ==> n in s.res && s.res[n].status == Success
  {
    forall n | n in answered + s.answers.Keys
      ensures n in s.res && s.res[n].status == Success
    {
      assert n in Responded(res, s.answers);
    }
  }

  /** One more pause: what was a fresh run of `g` becomes a fresh run of the flow with one more answer. */
  lemma NextStage(
    f: Flow, g: Flow, answered: set<Name>, order: seq<Name>, init: map<Var, Json>,
    res: map<Name, Record>, seen: map<Name, Ctx>, vars: map<Var, Json>, s: Stage)
    requires ValidFlow(g) && TopologicalOrder(g.dag, order) && KnownEndpoints(g.dag)
    requires FreshRun(g, init, res, seen, vars) && StageOK(f, g, init, res, s)
    requires SameOutside(f, g, answered) && answered <= Responded(res, s.answers).Keys
    ensures FreshRun(s.flow, init, s.res, Joined(Responded(res, s.answers), s.answers.Keys, seen, s.seen), s.vars)
  {
    var hyd := Responded(res, s.answers);
    RehydratedPluginsIrrelevant(f, g, answered, hyd, s.init, s.res, s.seen);
    assert Paused(g, s.flow, s.answers, order, init, s.init, res, seen);
    JoinedRun(g, s.flow, s.answers, order, init, s.init, res, seen, s.res, s.seen);
    JoinedNoAborts(g, s.flow, s.answers, order, init, s.init, res, seen, s.res, s.seen);
    SameVarsOutside(f, g, answered, hyd, s.init, s.res, s.vars);
    ResumedVars(g, s.answers, init, s.init, res, s.res, s.vars);
    SameVarsOK(g, s.flow, s.answers, map[], init, s.res, s.vars);
  }

  lemma LastOfTail(g: Flow, res: map<Name, Record>, vars: map<Var, Json>, stages: seq<Stage>)
    requires stages != []
    ensures var s := stages[0];
            && LastFlow(s.flow, stages[1..]) == LastFlow(g, stages)
            && LastResults(s.res, stages[1..]) == LastResults(res, stages)
            && LastVars(s.vars, stages[1..]) == LastVars(vars, stages)
  {
  }

  /** However often a workflow pauses and is answered, its jobs together are one fresh, unaborted run of
      the workflow whose plugins answer at once, and the last job's context is that run's. */
  lemma {:induction false} ManyPausesJoin(
    f: Flow, g: Flow, answered: set<Name>, order: seq<Name>, init: map<Var, Json>,
    res: map<Name, Record>, seen: map<Name, Ctx>, vars: map<Var, Json>, stages: seq<Stage>)
    returns (joined: map<Name, Ctx>)
    requires ValidFlow(g) && TopologicalOrder(g.dag, order) && KnownEndpoints(g.dag)
    requires FreshRun(g, init, res, seen, vars) && SameOutside(f, g, answered)
    requires forall n :: n in answered ==> n in res && res[n].status == Success
    requires Chain(f, g, init, res, stages)
    ensures FreshRun(LastFlow(g, stages), init, LastResults(res, stages), joined, LastVars(vars, stages))
    ensures ValidFlow(LastFlow(g, stages)) && LastFlow(g, stages).dag == g.dag
    decreases |stages|
  {
    if stages == [] {
      joined := seen;
    } else {
      var s := stages[0];
      NextStage(f, g, answered, order, init, res, seen, vars, s);
      AnsweredOutside(f, g, s.flow, answered, s.answers);
      AnswersStay(f, g, answered, res, s);
      joined := ManyPausesJoin(f, s.flow, answered + s.answers.Keys, order, init, s.res,
                               Joined(Responded(res, s.answers), s.answers.Keys, seen, s.seen), s.vars, stages[1..]);
      LastOfTail(g, res, vars, stages);
    }
  }

  /** Any number of pauses: the uninterrupted job whose plugins give all the answers at once is not aborted,
      and ends with the results and the context of the last resumed job. */
  lemma ManyPauses(
    f: Flow, order: seq<Name>, init: map<Var, Json>,
    res: map<Name, Record>, seen: map<Name, Ctx>, vars: map<Var, Json>, stages: seq<Stage>,
    resD: map<Name, Record>, seenD: map<Name, Ctx>, varsD: map<Var, Json>)
    requires ValidFlow(f) && TopologicalOrder(f.dag, order) && KnownEndpoints(f.dag)
    requires FreshRun(f, init, res, seen, vars) && Chain(f, f, init, res, stages)
    requires Local(LastFlow(f, stages)) && DisjointWrites(LastFlow(f, stages))
    requires PartialRun(LastFlow(f, stages), map[], init, resD, seenD)
    requires VarsOK(LastFlow(f, stages), map[], init, resD, varsD)
    requires NoAborts(LastFlow(f, stages), map[], resD, seenD) ==>
               CompleteRun(LastFlow(f, stages), map[], init, resD, seenD)
    ensures NoAborts(LastFlow(f, stages), map[], resD, seenD)
    ensures resD == LastResults(res, stages) && varsD == LastVars(vars, stages)
  {
    assert SameOutside(f, f, {});
    var joined := ManyPausesJoin(f, f, {}, order, init, res, seen, vars, stages);
    SameAsUnaborted(LastFlow(f, stages), order, init, LastResults(res, stages), joined, LastVars(vars, stages),
                    resD, seenD, varsD);
  }
}
