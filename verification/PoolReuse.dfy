/**
 Runs in which an id may be submitted again after a rejection that left edges behind: when the counters still cover
 the missing dependencies, when dependency safety survives, and when a resubmission is taken for a cycle.
 */
module PoolReuse {
  import opened Tasks
  import opened Graphs
  import opened Evaluation
  import opened PoolModel
  import opened PoolEffects
  import opened PoolInvariants
  import opened PoolRuns
  import opened PoolSubmission

  ghost predicate IsFreeTrace(c: Config, ss: seq<System>, es: seq<Event>) {
    |ss| == |es| + 1 && forall i :: 0 <= i < |es| ==> FreeNext(c, ss[i], es[i], ss[i + 1])
  }

  ghost predicate IsFreeRun(c: Config, ss: seq<System>, es: seq<Event>) {
    IsFreeTrace(c, ss, es) && ss[0] == START
  }

  ghost predicate NodesIn(c: Config, p: Pool) {
    NodesOk(c, p) && IndexOk(p)
  }

  /** The part of the invariant that does not speak of edges. */
  ghost predicate FreeInv(c: Config, y: System) {
    NodesIn(c, y.pool) && y.flight.Keys == y.pool.running
  }

  // ---- Steps other than a success ----

  /** Task x is unfinished, or unknown. */
  predicate Unsettled(p: Pool, x: Id) {
    x in p.nodes ==> !Terminal(p.nodes[x].task.state)
  }

  /** Counters, dependencies and successes stay; tasks may become Canceled. */
  ghost predicate Steady(p: Pool, q: Pool) {
    && p.nodes.Keys <= q.nodes.Keys && DoneSet(q.nodes) == DoneSet(p.nodes)
    && (forall x :: Unsettled(q, x) ==> Unsettled(p, x))
    && forall x :: x in p.nodes && q.nodes[x].task.state != Canceled ==>
      && p.nodes[x].task.state != Canceled
      && Slack(q.nodes[x]) == Slack(p.nodes[x]) && q.nodes[x].task.deps == p.nodes[x].task.deps
  }

  lemma SteadySelf(p: Pool)
    ensures Steady(p, p)
  {
  }

  lemma ReplaceSteady(c: Config, p: Pool, q: Pool, id: Id)
    requires NodesIn(c, p) && Replaces(p, q, id) && NodeOk(c, id, q.nodes[id])
    requires p.nodes[id].task.state == Succeeded <==> q.nodes[id].task.state == Succeeded
    requires q.nodes[id].task.state == Canceled || Slack(q.nodes[id]) == Slack(p.nodes[id])
    ensures NodesIn(c, q) && Steady(p, q) && q.nodes.Keys == p.nodes.Keys
  {
    ReplacesBasics(c, p, q, id);
    hide NodesOk, IndexOk, NodeOk, Slack;
    assert DoneSet(q.nodes) == DoneSet(p.nodes);
  }

  lemma CutSteady(c: Config, p: Pool, q: Pool, id: Id, now: nat)
    requires NodesIn(c, q) && Steady(p, q) && q.nodes.Keys == p.nodes.Keys
    ensures
      var r := Propagate(q, id, now);
      NodesIn(c, r) && Steady(p, r) && r.nodes.Keys == p.nodes.Keys && r.running == q.running
  {
    CutAllShape(c, q, CutSet(q, id), now);
    hide NodesOk, IndexOk, Slack, NodeEvolves, Evolves;
  }

  lemma AddSteady(c: Config, p: Pool, q: Pool, id: Id, n: Node)
    requires NodesIn(c, p) && id !in p.nodes && q.nodes == p.nodes[id := n]
    requires NodeOk(c, id, n) && !n.running && n.task.state != Succeeded
    requires q.running == p.running && q.ready == if n.task.state == Ready then p.ready + {id} else p.ready
    ensures NodesIn(c, q) && Steady(p, q)
  {
    hide NodeOk, Slack;
    assert DoneSet(q.nodes) == DoneSet(p.nodes);
  }

  /** The node of a newly accepted task: its counter is the number of its missing dependencies. */
  lemma NewNodeOk(c: Config, p: Pool, t: Task, stage: Option<Stage>, now: nat)
    requires Initial(t) && Submit(c, p, t, stage, now).1.Ok?
    ensures
      var q := Submit(c, p, t, stage, now).0;
      && t.id !in p.nodes && t.id in q.nodes && q.nodes == p.nodes[t.id := q.nodes[t.id]] && q.running == p.running
      && var n := q.nodes[t.id];
         && NodeOk(c, t.id, n) && !n.running && n.task.state != Succeeded
         && q.ready == (if n.task.state == Ready then p.ready + {t.id} else p.ready)
         && (n.task.state != Canceled ==> Slack(n) == Missing(DoneSet(p.nodes), n.task.deps))
  {
    hide Submit, Missing, PushEdges, NodeOk, Slack, BlockedNode, NewNode;
    var q := Submit(c, p, t, stage, now).0;
    SubmitCases(c, p, t, stage, now);
    var k := StopAt(p.nodes, t.id, t.deps);
    AdmittedOk(c, t, stage.value, Missing(DoneSet(p.nodes), t.deps[..k]), now);
    if k == |t.deps| { assert t.deps[..k] == t.deps; }
  }

  lemma FreeSubmit(c: Config, y: System, t: Task, stage: Option<Stage>, now: nat)
    requires FreeInv(c, y) && Initial(t)
    ensures
      var z := AfterSubmit(c, y, t, stage, now);
      && FreeInv(c, z) && Steady(y.pool, z.pool)
      && forall x :: x in z.pool.nodes && x !in y.pool.nodes ==> Counted(z.pool, x)
  {
    hide Submit, Missing, NodeOk, Slack;
    var p, q, r := y.pool, Submit(c, y.pool, t, stage, now).0, Submit(c, y.pool, t, stage, now).1;
    if r.Ok? {
      NewNodeOk(c, p, t, stage, now);
      AddSteady(c, p, q, t.id, q.nodes[t.id]);
    } else {
      SubmitCases(c, p, t, stage, now);
      OnlyEdgesChange(c, p, q, y.log);
      assert q == p.(succs := q.succs);
      SteadySelf(p);
    }
  }

  lemma FreeCancel(c: Config, p: Pool, id: Id, now: nat)
    requires NodesIn(c, p)
    ensures
      var q := Cancel(p, id, now).0;
      NodesIn(c, q) && Steady(p, q) && q.running == p.running && q.nodes.Keys == p.nodes.Keys
  {
    hide Propagate, NodeOk, Slack, NodeEvolves;
    if id in p.nodes {
      var n := p.nodes[id];
      var q := RequestCancel(p, id).(
        nodes := p.nodes[id := CanceledNode(n, now)],
        ready := if n.task.state == Ready then p.ready - {id} else p.ready);
      CanceledNodeOk(c, id, n, now);
      hide CanceledNode;
      assert Terminal(n.task.state) ==> Slack(q.nodes[id]) == Slack(n);
      assert Terminal(n.task.state) ==> q.nodes[id].task.state == n.task.state by { CalmState(n, now); }
      assert Replaces(p, q, id);
      ReplaceSteady(c, p, q, id);
      CutSteady(c, p, q, id, now);
    } else {
      SteadySelf(p);
    }
  }

  lemma CalmState(n: Node, now: nat)
    ensures Terminal(n.task.state) ==> CanceledNode(n, now).task.state == n.task.state
  {
  }

  lemma QuietSteady(c: Config, p: Pool, q: Pool, id: Id)
    requires NodesIn(c, p) && id in p.nodes && id in q.nodes && QuietChange(c, id, p.nodes[id], q.nodes[id])
    requires q.nodes == p.nodes[id := q.nodes[id]] && q.succs == p.succs && q.running == p.running
    requires q.ready == if q.nodes[id].task.state == Ready then p.ready + {id} else p.ready - {id}
    ensures NodesIn(c, q) && Steady(p, q)
  {
    hide NodeOk, Slack;
    ReplaceSteady(c, p, q, id);
  }

  lemma FreePause(c: Config, p: Pool, id: Id, now: nat)
    requires NodesIn(c, p)
    ensures
      var q := Pause(c, p, id, now).0;
      NodesIn(c, q) && Steady(p, q) && q.running == p.running && q.nodes.Keys == p.nodes.Keys
  {
    var q := Pause(c, p, id, now).0;
    SteadySelf(p);
    if id in p.nodes && q != p {
      if p.nodes[id].task.state != Running { PausedNodeOk(c, id, p.nodes[id], now); }
      assert QuietChange(c, id, p.nodes[id], q.nodes[id]);
      hide QuietChange, Steady;
      QuietSteady(c, p, q, id);
    }
  }

  lemma FreeResume(c: Config, p: Pool, id: Id, now: nat)
    requires NodesIn(c, p)
    ensures
      var q := Resume(p, id, now).0;
      NodesIn(c, q) && Steady(p, q) && q.running == p.running && q.nodes.Keys == p.nodes.Keys
  {
    var q := Resume(p, id, now).0;
    SteadySelf(p);
    if Has(p, id, Paused) {
      var n := p.nodes[id];
      ResumedNodeOk(c, id, n, now, if ResumeTarget(n.task) == Ready then now else n.since);
      assert QuietChange(c, id, n, q.nodes[id]);
      hide QuietChange, Steady;
      QuietSteady(c, p, q, id);
    }
  }

  lemma FreeCheckpoint(c: Config, p: Pool, id: Id, now: nat)
    requires NodesIn(c, p)
    ensures
      var q := Checkpoint(p, id, now);
      NodesIn(c, q) && Steady(p, q) && q.running == p.running && q.nodes.Keys == p.nodes.Keys
  {
    var q := Checkpoint(p, id, now);
    SteadySelf(p);
    if q != p {
      PausedNodeOk(c, id, p.nodes[id], now);
      hide QuietChange, Steady;
      QuietSteady(c, p, q, id);
    }
  }

  lemma FreeDispatch(c: Config, p: Pool, id: Id, now: nat)
    requires NodesIn(c, p) && IsPick(c, p, now, Some(id)) && id in p.nodes
    ensures
      var q := Dispatch(p, id, now);
      NodesIn(c, q) && Steady(p, q) && q.running == p.running + {id} && q.nodes.Keys == p.nodes.Keys
  {
    PickFits(c, p, now, id);
    hide IsPick, NodeOk, Slack, NodeEvolves;
    StartedNodeOk(c, id, p.nodes[id], now);
    ReplaceSteady(c, p, Dispatch(p, id, now), id);
  }

  // ---- Returning stages ----

  lemma ReturningState(c: Config, y: System, id: Id)
    requires FreeInv(c, y) && id in y.flight && !Has(y.pool, id, Paused)
    ensures id in y.pool.nodes && y.pool.nodes[id].running && NodeOk(c, id, y.pool.nodes[id])
    ensures Has(y.pool, id, Running) || Has(y.pool, id, Canceled)
  {
    IndexHas(y.pool, id);
  }

  lemma BadSettledOk(c: Config, id: Id, n: Node, to: TaskState, error: Option<TaskError>, now: nat)
    requires NodeOk(c, id, n) && n.running && (n.task.state == Canceled || n.task.state == Running)
    requires Terminal(to) && (n.task.state == Canceled ==> to == Canceled)
    ensures
      var m := SettledNode(n, to, error, now);
      && NodeOk(c, id, m) && NodeEvolves(n, m) && m.task.state == to && !m.running && Slack(m) == Slack(n)
  {
  }

  lemma FreeFailure(c: Config, p: Pool, id: Id, outcome: Outcome, now: nat)
    requires NodesIn(c, p) && EndsBadly(p, id, outcome) && p.nodes[id].running
    ensures
      var q := Finalize(p, id, outcome, now);
      NodesIn(c, q) && Steady(p, q) && q.running == p.running - {id} && q.nodes.Keys == p.nodes.Keys
  {
    hide Finalize, Propagate, NodeOk, Slack, NodeEvolves, SettledNode;
    var q := FailureForm(p, id, outcome, now);
    BadSettledOk(c, id, p.nodes[id], q.nodes[id].task.state, q.nodes[id].task.error, now);
    assert Replaces(p, q, id);
    ReplaceSteady(c, p, q, id);
    CutSteady(c, p, q, id, now);
  }

  // ---- A success ----

  ghost predicate Succeeds(y: System, e: Event) {
    e.step.DoFinalize? && e.step.outcome.Success? && Has(y.pool, e.step.id, Running)
  }

  lemma SuccessSettledOk(c: Config, id: Id, n: Node, outputs: Outputs, now: nat)
    requires NodeOk(c, id, n) && n.task.state == Running
    ensures
      var m := SettledNode(n, Succeeded, n.task.error, now).(outputs := outputs);
      && NodeOk(c, id, m) && NodeEvolves(n, m) && m.task.state == Succeeded && !m.running && m.task.deps == n.task.deps
      && Slack(m) == Slack(n) == 0
  {
  }

  lemma SuccessKeepsNodes(c: Config, p: Pool, id: Id, outputs: Outputs, now: nat)
    requires NodesIn(c, p) && Has(p, id, Running) && p.nodes[id].running
    ensures
      var q := Finalize(p, id, Success(outputs), now);
      && NodesIn(c, q) && q.running == p.running - {id} && q.nodes.Keys == p.nodes.Keys
      && id !in DoneSet(p.nodes) && DoneSet(q.nodes) == DoneSet(p.nodes) + {id}
      && (forall x :: Unsettled(q, x) ==> Unsettled(p, x))
  {
    hide Finalize, Wake, NodeOk, NodeEvolves, SettledNode, WakeNode, Slack;
    var q := SuccessForm(p, id, outputs, now);
    SuccessSettledOk(c, id, p.nodes[id], outputs, now);
    assert Replaces(p, q, id);
    ReplacesBasics(c, p, q, id);
    WakeShape(c, q, Succ(q.succs, id), now);
    SuccessEffect(p, id, outputs, now, id);
    DoneGrows(p, id, outputs, now);
    EvolvesTransitive(p, q, Wake(q, Succ(q.succs, id), now));
    EvolvesUnsettled(p, Wake(q, Succ(q.succs, id), now));
    hide DoneSet;
  }

  lemma EvolvesUnsettled(p: Pool, q: Pool)
    requires Evolves(p, q) && q.nodes.Keys == p.nodes.Keys
    ensures forall x :: Unsettled(q, x) ==> Unsettled(p, x)
  {
    forall x | x in p.nodes && Terminal(p.nodes[x].task.state) ensures Terminal(q.nodes[x].task.state) {
      assert NodeEvolves(p.nodes[x], q.nodes[x]);
    }
  }

  lemma WakeSlackAt(n: Node, m: nat, now: nat)
    requires n.task.state == Queued ==> n.unmet > 0
    ensures WakeNode(n, m, now).task.deps == n.task.deps
    ensures (WakeNode(n, m, now).task.state == Canceled) == (n.task.state == Canceled)
    ensures Slack(WakeNode(n, m, now)) ==
      if n.task.state != Queued then Slack(n) else if n.unmet > m then n.unmet - m else 0
  {
  }

  lemma FreeSuccess(c: Config, p: Pool, id: Id, outputs: Outputs, now: nat, x: Id)
    requires NodesIn(c, p) && Has(p, id, Running) && p.nodes[id].running && x in p.nodes
    ensures
      var q := Finalize(p, id, Success(outputs), now);
      && x in q.nodes && id !in DoneSet(p.nodes) && DoneSet(q.nodes) == DoneSet(p.nodes) + {id}
      && q.nodes[x].task.deps == p.nodes[x].task.deps
      && (q.nodes[x].task.state == Canceled) == (p.nodes[x].task.state == Canceled)
      && Slack(q.nodes[x]) ==
         if Has(p, x, Queued) then
           if p.nodes[x].unmet > Edge(p.succs, id, x) then p.nodes[x].unmet - Edge(p.succs, id, x) else 0
         else Slack(p.nodes[x])
  {
    assert NodeOk(c, x, p.nodes[x]);
    SuccessKeepsNodes(c, p, id, outputs, now);
    SuccessEffect(p, id, outputs, now, x);
    hide Finalize, SettledNode, WakeNode, DoneSet, Edge, NodesIn;
    if x == id {
      SuccessSettledOk(c, id, p.nodes[id], outputs, now);
    } else {
      hide NodeOk;
      WakeSlackAt(p.nodes[x], Edge(p.succs, id, x), now);
    }
  }

  /** A dependency of x other than id has not succeeded. */
  ghost predicate MissesAnother(p: Pool, id: Id, x: Id)
    requires x in p.nodes
  {
    exists d :: d in p.nodes[x].task.deps && d != id && !Has(p, d, Succeeded)
  }

  /**
   The edges from id to x that were left over by rejected submissions of x outnumber the wakeups that x has lost,
   and x still misses another dependency.
   */
  ghost predicate Overwakes(p: Pool, id: Id, x: Id) {
    && Has(p, x, Queued) && MissesAnother(p, id, x)
    && var n := p.nodes[x];
       Edge(p.succs, id, x) - multiset(n.task.deps)[id] > n.unmet - Missing(DoneSet(p.nodes), n.task.deps)
  }

  /** The edges from id exhaust the counter of x, which still misses another dependency. */
  ghost predicate ReleasesEarly(p: Pool, id: Id, x: Id) {
    Has(p, x, Queued) && MissesAnother(p, id, x) && Edge(p.succs, id, x) >= p.nodes[x].unmet
  }

  lemma MissingOthers(p: Pool, id: Id, x: Id)
    requires x in p.nodes && id !in DoneSet(p.nodes)
    ensures Missing(DoneSet(p.nodes) + {id}, p.nodes[x].task.deps) ==
      Missing(DoneSet(p.nodes), p.nodes[x].task.deps) - multiset(p.nodes[x].task.deps)[id]
    ensures Missing(DoneSet(p.nodes) + {id}, p.nodes[x].task.deps) > 0 <==> MissesAnother(p, id, x)
  {
    MissingDone(DoneSet(p.nodes), p.nodes[x].task.deps, id);
    MissingZero(DoneSet(p.nodes) + {id}, p.nodes[x].task.deps);
  }

  /**
   A success leaves the counter of a task no smaller than its missing dependencies exactly if it does not overwake the
   task. For an exact counter this means: over no left-over edge, or no other dependency was missing.
   */
  lemma SuccessCoversIff(c: Config, p: Pool, id: Id, outputs: Outputs, now: nat, x: Id)
    requires NodesIn(c, p) && Has(p, id, Running) && p.nodes[id].running && x in p.nodes && Surplus(p, x, 0)
    ensures
      var q := Finalize(p, id, Success(outputs), now);
      && x in q.nodes && (Surplus(q, x, 0) <==> !Overwakes(p, id, x))
      && (Counted(p, x) && Has(p, x, Queued) ==>
            (Surplus(q, x, 0) <==>
             Edge(p.succs, id, x) <= multiset(p.nodes[x].task.deps)[id] || !MissesAnother(p, id, x)))
  {
    assert NodeOk(c, x, p.nodes[x]);
    FreeSuccess(c, p, id, outputs, now, x);
    hide Finalize, Edge, MissesAnother, Missing, NodesIn, DoneSet;
    MissingOthers(p, id, x);
  }

  /** A task that does not wait and is not Canceled has all its dependencies Succeeded. */
  ghost predicate SafeTask(p: Pool, x: Id)
    requires x in p.nodes
  {
    p.nodes[x].task.state != Canceled && !Waiting(p.nodes[x].task) ==> forall d :: d in p.nodes[x].task.deps ==>
      Has(p, d, Succeeded)
  }

  ghost predicate Safe(p: Pool) {
    forall x :: x in p.nodes ==> SafeTask(p, x)
  }

  lemma SafeBySlack(c: Config, p: Pool, x: Id)
    requires NodesIn(c, p) && x in p.nodes
    ensures
      var n := p.nodes[x];
      SafeTask(p, x) <==> (n.task.state != Canceled && Slack(n) == 0 ==> Missing(DoneSet(p.nodes), n.task.deps) == 0)
  {
    assert NodeOk(c, x, p.nodes[x]);
    hide NodeOk, NodesIn;
    MissingZero(DoneSet(p.nodes), p.nodes[x].task.deps);
  }

  /** A success keeps a task safe exactly if it does not release it early. */
  lemma SuccessSafeIff(c: Config, p: Pool, id: Id, outputs: Outputs, now: nat, x: Id)
    requires NodesIn(c, p) && Has(p, id, Running) && p.nodes[id].running && x in p.nodes && SafeTask(p, x)
    ensures
      var q := Finalize(p, id, Success(outputs), now);
      x in q.nodes && (SafeTask(q, x) <==> !ReleasesEarly(p, id, x))
  {
    assert NodeOk(c, x, p.nodes[x]);
    var q := Finalize(p, id, Success(outputs), now);
    FreeSuccess(c, p, id, outputs, now, x);
    SuccessKeepsNodes(c, p, id, outputs, now);
    hide Finalize, Edge, MissesAnother, Missing, NodesIn, DoneSet, SafeTask;
    MissingOthers(p, id, x);
    SafeBySlack(c, p, x);
    SafeBySlack(c, q, x);
  }

  // ---- Whole runs ----

  /** The step is a success that overwakes some task. */
  ghost predicate StepOverwakes(y: System, e: Event) {
    Succeeds(y, e) && exists x :: x in y.pool.nodes && Overwakes(y.pool, e.step.id, x)
  }

  /** The step is a success that releases some task early. */
  ghost predicate StepReleasesEarly(y: System, e: Event) {
    Succeeds(y, e) && exists x :: x in y.pool.nodes && ReleasesEarly(y.pool, e.step.id, x)
  }

  lemma SteadyKeeps(c: Config, y: System, z: System)
    requires FreeInv(c, y) && FreeInv(c, z) && Steady(y.pool, z.pool)
    requires forall x :: x in z.pool.nodes && x !in y.pool.nodes ==> Counted(z.pool, x)
    ensures CountOk(y.pool) ==> CountOk(z.pool)
    ensures Safe(y.pool) ==> Safe(z.pool)
  {
    hide FreeInv, Missing, Slack, DoneSet, SafeTask;
    if CountOk(y.pool) {
      forall x | x in z.pool.nodes ensures Surplus(z.pool, x, 0) {
        if x in y.pool.nodes { assert Surplus(y.pool, x, 0); }
      }
    }
    if Safe(y.pool) {
      forall x | x in z.pool.nodes ensures SafeTask(z.pool, x) {
        InNodes(c, y);
        InNodes(c, z);
        SafeBySlack(c, z.pool, x);
        if x in y.pool.nodes { SafeBySlack(c, y.pool, x); }
      }
    }
  }

  lemma InNodes(c: Config, y: System)
    requires FreeInv(c, y)
    ensures NodesIn(c, y.pool)
  {
  }

  /** Every step keeps what is said of nodes and index sets; all but successes leave counters and successes alone. */
  lemma FreeStep(c: Config, y: System, e: Event, z: System)
    requires FreeInv(c, y) && FreeNext(c, y, e, z)
    ensures FreeInv(c, z)
    ensures !Succeeds(y, e) ==>
      Steady(y.pool, z.pool) && forall x :: x in z.pool.nodes && x !in y.pool.nodes ==> Counted(z.pool, x)
  {
    hide NodesIn, Steady, Counted, IsPick, Submit, Cancel, Pause, Resume, Checkpoint, Finalize;
    var p := y.pool;
    match e.step
    case DoSubmit(t, stage) => FreeSubmit(c, y, t, stage, e.now);
    case DoCancel(id) => FreeCancel(c, p, id, e.now);
    case DoPause(id) => FreePause(c, p, id, e.now);
    case DoResume(id) => FreeResume(c, p, id, e.now);
    case DoCheckpoint(id) => FreeCheckpoint(c, p, id, e.now);
    case DoDispatch(id) => FreeDispatch(c, p, id, e.now);
    case DoFinalize(id, outcome) =>
      ReturningState(c, y, id);
      if Succeeds(y, e) {
        SuccessKeepsNodes(c, p, id, outcome.outputs, e.now);
      } else {
        FreeFailure(c, p, id, outcome, e.now);
      }
  }

  /** One step and the two properties: only a success can break them, and exactly as said above. */
  lemma StepCoversIff(c: Config, y: System, e: Event, z: System)
    requires FreeInv(c, y) && FreeNext(c, y, e, z)
    ensures CountOk(y.pool) ==> (CountOk(z.pool) <==> !StepOverwakes(y, e))
    ensures Safe(y.pool) ==> (Safe(z.pool) <==> !StepReleasesEarly(y, e))
  {
    FreeStep(c, y, e, z);
    if Succeeds(y, e) {
      var p, id, outputs := y.pool, e.step.id, e.step.outcome.outputs;
      ReturningState(c, y, id);
      SuccessKeepsNodes(c, p, id, outputs, e.now);
      FinalizedPool(c, y, e, z);
      hide Finalize, Overwakes, ReleasesEarly, SafeTask, Surplus, FreeNext, NodesOk, IndexOk;
      forall x | x in p.nodes
        ensures Surplus(p, x, 0) ==> (Surplus(z.pool, x, 0) <==> !Overwakes(p, id, x))
        ensures SafeTask(p, x) ==> (SafeTask(z.pool, x) <==> !ReleasesEarly(p, id, x))
      {
        if Surplus(p, x, 0) { SuccessCoversIff(c, p, id, outputs, e.now, x); }
        if SafeTask(p, x) { SuccessSafeIff(c, p, id, outputs, e.now, x); }
      }
    } else {
      SteadyKeeps(c, y, z);
    }
  }

  lemma FinalizedPool(c: Config, y: System, e: Event, z: System)
    requires FreeNext(c, y, e, z) && e.step.DoFinalize?
    ensures z.pool == Finalize(y.pool, e.step.id, e.step.outcome, e.now)
  {
    hide Finalize;
  }

  lemma FreeStart(c: Config)
    ensures FreeInv(c, START) && CountOk(START.pool) && Safe(START.pool)
  {
  }

  lemma {:induction false} FreeRunInv(c: Config, ss: seq<System>, es: seq<Event>, i: nat)
    requires IsFreeRun(c, ss, es) && i < |ss|
    ensures FreeInv(c, ss[i])
  {
    hide FreeInv, FreeNext;
    if i == 0 {
      FreeStart(c);
    } else {
      FreeRunInv(c, ss, es, i - 1);
      assert FreeNext(c, ss[i - 1], es[i - 1], ss[i - 1 + 1]);
      FreeStep(c, ss[i - 1], es[i - 1], ss[i]);
    }
  }

  lemma {:induction false} HoldsUpTo(c: Config, ss: seq<System>, es: seq<Event>, i: nat)
    requires IsFreeRun(c, ss, es) && i < |ss|
    ensures (forall j :: 0 <= j < i ==> !StepOverwakes(ss[j], es[j])) ==> CountOk(ss[i].pool)
    ensures (forall j :: 0 <= j < i ==> !StepReleasesEarly(ss[j], es[j])) ==> Safe(ss[i].pool)
  {
    hide FreeInv, FreeNext, CountOk, Safe, StepOverwakes, StepReleasesEarly;
    if i == 0 {
      FreeStart(c);
    } else {
      HoldsUpTo(c, ss, es, i - 1);
      FreeRunInv(c, ss, es, i - 1);
      assert FreeNext(c, ss[i - 1], es[i - 1], ss[i - 1 + 1]);
      StepCoversIff(c, ss[i - 1], es[i - 1], ss[i]);
    }
  }

  /**
   Over a whole run in which ids may be reused at will, the counters cover the missing dependencies exactly if no
   success overwakes a task.
   */
  lemma CountersCoverIff(c: Config, ss: seq<System>, es: seq<Event>)
    requires IsFreeRun(c, ss, es)
    ensures (forall i :: 0 <= i < |ss| ==> CountOk(ss[i].pool)) <==>
      (forall i :: 0 <= i < |es| ==> !StepOverwakes(ss[i], es[i]))
  {
    hide FreeInv, FreeNext, CountOk, Safe, StepOverwakes, StepReleasesEarly;
    if forall i :: 0 <= i < |ss| ==> CountOk(ss[i].pool) {
      forall i | 0 <= i < |es| ensures !StepOverwakes(ss[i], es[i]) {
        FreeRunInv(c, ss, es, i);
        assert FreeNext(c, ss[i], es[i], ss[i + 1]);
        StepCoversIff(c, ss[i], es[i], ss[i + 1]);
      }
    }
    if forall i :: 0 <= i < |es| ==> !StepOverwakes(ss[i], es[i]) {
      forall i | 0 <= i < |ss| ensures CountOk(ss[i].pool) { HoldsUpTo(c, ss, es, i); }
    }
  }

  /**
   Dependency safety over a whole run in which ids may be reused at will: every task that does not wait and is not
   Canceled has all its dependencies Succeeded throughout, exactly if no success releases a task early.
   */
  lemma DependencySafetyIff(c: Config, ss: seq<System>, es: seq<Event>)
    requires IsFreeRun(c, ss, es)
    ensures (forall i :: 0 <= i < |ss| ==> Safe(ss[i].pool)) <==>
      (forall i :: 0 <= i < |es| ==> !StepReleasesEarly(ss[i], es[i]))
  {
    hide FreeInv, FreeNext, CountOk, Safe, StepOverwakes, StepReleasesEarly;
    if forall i :: 0 <= i < |ss| ==> Safe(ss[i].pool) {
      forall i | 0 <= i < |es| ensures !StepReleasesEarly(ss[i], es[i]) {
        FreeRunInv(c, ss, es, i);
        assert FreeNext(c, ss[i], es[i], ss[i + 1]);
        StepCoversIff(c, ss[i], es[i], ss[i + 1]);
      }
    }
    if forall i :: 0 <= i < |es| ==> !StepReleasesEarly(ss[i], es[i]) {
      forall i | 0 <= i < |ss| ensures Safe(ss[i].pool) { HoldsUpTo(c, ss, es, i); }
    }
  }

  /** As long as the counters cover what is missing, a task is released early only over a left-over edge. */
  lemma EarlyOverLeftOver(c: Config, y: System, id: Id, x: Id)
    requires FreeInv(c, y) && CountOk(y.pool) && Has(y.pool, id, Running) && ReleasesEarly(y.pool, id, x)
    ensures Overwakes(y.pool, id, x) && Edge(y.pool.succs, id, x) > multiset(y.pool.nodes[x].task.deps)[id]
  {
    hide NodesOk, IndexOk, MissesAnother, Missing, Edge;
    MissingOthers(y.pool, id, x);
    assert Surplus(y.pool, x, 0);
  }

  // ---- Reuse that does no harm ----

  /** The edges from unfinished tasks into every task that is not Canceled are its dependencies. */
  ghost predicate LiveEdgesOk(p: Pool) {
    forall d, x :: x in p.nodes && p.nodes[x].task.state != Canceled && Unsettled(p, d) ==>
      Edge(p.succs, d, x) == multiset(p.nodes[x].task.deps)[d]
  }

  /** The step submits an id although an edge left over by a rejected submission leads to it from an unfinished task. */
  ghost predicate ReusesEarly(y: System, e: Event) {
    e.step.DoSubmit? && exists d :: Unsettled(y.pool, d) && e.step.task.id in Succ(y.pool.succs, d)
  }

  /** Which edges a submission pushes. */
  lemma SubmitEdges(c: Config, p: Pool, t: Task, stage: Option<Stage>, now: nat) returns (ds: seq<Id>)
    requires Initial(t)
    ensures
      var q, r := Submit(c, p, t, stage, now).0, Submit(c, p, t, stage, now).1;
      && q.succs == PushEdges(p.succs, ds, t.id) && (t.id in p.nodes ==> ds == [])
      && (r.Err? ==> q.nodes == p.nodes)
      && (r.Ok? ==>
            && t.id !in p.nodes && t.id in q.nodes && q.nodes == p.nodes[t.id := q.nodes[t.id]]
            && q.nodes[t.id].task.deps == t.deps
            && (q.nodes[t.id].task.state != Canceled ==> ds == t.deps))
  {
    hide Missing, CreatesCycle, PushEdges;
    var k := StopAt(p.nodes, t.id, t.deps);
    if Submit(c, p, t, stage, now).1.Err? {
      RejectionPushes(c, p, t, stage, now);
      ds := Pushed(c, p, t, stage);
    } else {
      ds := t.deps[..if k < |t.deps| then k + 1 else k];
      if k == |t.deps| { assert t.deps[..k] == t.deps; }
    }
  }

  lemma SubmitLiveEdges(c: Config, p: Pool, t: Task, stage: Option<Stage>, now: nat)
    requires Initial(t) && LiveEdgesOk(p)
    requires forall d :: Unsettled(p, d) ==> t.id !in Succ(p.succs, d)
    ensures LiveEdgesOk(Submit(c, p, t, stage, now).0)
  {
    var q := Submit(c, p, t, stage, now).0;
    var ds := SubmitEdges(c, p, t, stage, now);
    hide Submit, PushEdges, Edge, Succ;
    if ds == [] && t.id in p.nodes { PushNone(p.succs, t.id); }
    forall d, x | x in q.nodes && q.nodes[x].task.state != Canceled && Unsettled(q, d)
      ensures Edge(q.succs, d, x) == multiset(q.nodes[x].task.deps)[d]
    {
      assert Unsettled(p, d);
      PushEdgesCounts(p.succs, ds, t.id, d, x);
      if x == t.id { NoEdge(p.succs, d, x); }
    }
  }

  lemma NoEdge(g: Graph, d: Id, x: Id)
    requires x !in Succ(g, d)
    ensures Edge(g, d, x) == 0
  {
  }

  lemma StepKeepsSuccs(c: Config, y: System, e: Event, z: System)
    requires FreeNext(c, y, e, z) && !e.step.DoSubmit?
    ensures z.pool.succs == y.pool.succs
  {
    hide IsPick;
  }

  lemma StepLiveEdges(c: Config, y: System, e: Event, z: System)
    requires FreeInv(c, y) && FreeNext(c, y, e, z) && LiveEdgesOk(y.pool) && !ReusesEarly(y, e)
    ensures LiveEdgesOk(z.pool)
  {
    if e.step.DoSubmit? {
      SubmittedPool(c, y, e, z);
      SubmitLiveEdges(c, y.pool, e.step.task, e.step.stage, e.now);
    } else {
      FreeStep(c, y, e, z);
      StepKeepsSuccs(c, y, e, z);
      if Succeeds(y, e) {
        var p, id, outputs := y.pool, e.step.id, e.step.outcome.outputs;
        ReturningState(c, y, id);
        FinalizedPool(c, y, e, z);
        SuccessKeepsNodes(c, p, id, outputs, e.now);
        hide FreeNext, Finalize, Edge, Unsettled, Slack, DoneSet;
        forall x | x in p.nodes
          ensures z.pool.nodes[x].task.deps == p.nodes[x].task.deps
          ensures z.pool.nodes[x].task.state == Canceled <==> p.nodes[x].task.state == Canceled
        {
          FreeSuccess(c, p, id, outputs, e.now, x);
        }
      } else {
        NothingNew(c, y, e, z);
      }
      hide FreeNext, FreeInv, Edge, Unsettled, Slack, DoneSet;
    }
  }

  lemma SubmittedPool(c: Config, y: System, e: Event, z: System)
    requires FreeNext(c, y, e, z) && e.step.DoSubmit?
    ensures Initial(e.step.task) && z.pool == Submit(c, y.pool, e.step.task, e.step.stage, e.now).0
  {
    hide Submit;
  }

  lemma NothingNew(c: Config, y: System, e: Event, z: System)
    requires FreeInv(c, y) && FreeNext(c, y, e, z) && !e.step.DoSubmit?
    ensures z.pool.nodes.Keys == y.pool.nodes.Keys
  {
    hide NodesIn, Steady, IsPick, Submit, Cancel, Pause, Resume, Checkpoint, Finalize;
    var p := y.pool;
    match e.step
    case DoCancel(id) => FreeCancel(c, p, id, e.now);
    case DoPause(id) => FreePause(c, p, id, e.now);
    case DoResume(id) => FreeResume(c, p, id, e.now);
    case DoCheckpoint(id) => FreeCheckpoint(c, p, id, e.now);
    case DoDispatch(id) => FreeDispatch(c, p, id, e.now);
    case DoFinalize(id, outcome) =>
      ReturningState(c, y, id);
      if Succeeds(y, e) {
        SuccessKeepsNodes(c, p, id, outcome.outputs, e.now);
      } else {
        FreeFailure(c, p, id, outcome, e.now);
      }
  }

  lemma {:induction false} LiveEdgesUpTo(c: Config, ss: seq<System>, es: seq<Event>, i: nat)
    requires IsFreeRun(c, ss, es) && i < |ss| && forall j :: 0 <= j < i ==> !ReusesEarly(ss[j], es[j])
    ensures LiveEdgesOk(ss[i].pool) && CountOk(ss[i].pool)
  {
    hide FreeInv, FreeNext, CountOk, LiveEdgesOk, ReusesEarly, StepOverwakes;
    if i == 0 {
      FreeStart(c);
      assert LiveEdgesOk(START.pool) by { EmptyLiveEdges(); }
    } else {
      LiveEdgesUpTo(c, ss, es, i - 1);
      FreeRunInv(c, ss, es, i - 1);
      assert FreeNext(c, ss[i - 1], es[i - 1], ss[i - 1 + 1]);
      assert !ReusesEarly(ss[i - 1], es[i - 1]);
      StepLiveEdges(c, ss[i - 1], es[i - 1], ss[i]);
      LiveEdgesNoOverwake(c, ss[i - 1], es[i - 1]);
      StepCoversIff(c, ss[i - 1], es[i - 1], ss[i]);
    }
  }

  lemma EmptyLiveEdges()
    ensures LiveEdgesOk(EMPTY_POOL)
  {
  }

  lemma LiveEdgesNoOverwake(c: Config, y: System, e: Event)
    requires LiveEdgesOk(y.pool) && CountOk(y.pool)
    ensures !StepOverwakes(y, e)
  {
    hide Edge, Missing, MissesAnother;
    if Succeeds(y, e) {
      forall x | x in y.pool.nodes ensures !Overwakes(y.pool, e.step.id, x) {
        assert Unsettled(y.pool, e.step.id) && Surplus(y.pool, x, 0);
      }
    }
  }

  /**
   What a client can check before it uses an id again: if it waits until every task with a left-over edge to the id has
   finished, then counters cover what is missing and dependency safety holds throughout, whatever else is reused.
   */
  lemma SettledReuseIsSafe(c: Config, ss: seq<System>, es: seq<Event>, i: nat)
    requires IsFreeRun(c, ss, es) && i < |ss| && forall j :: 0 <= j < i ==> !ReusesEarly(ss[j], es[j])
    ensures CountOk(ss[i].pool) && Safe(ss[i].pool)
  {
    hide FreeNext;
    LiveEdgesUpTo(c, ss, es, i);
    FreeRunInv(c, ss, es, i);
    forall x | x in ss[i].pool.nodes ensures SafeTask(ss[i].pool, x) {
      SafeBySlack(c, ss[i].pool, x);
      assert Surplus(ss[i].pool, x, 0);
    }
  }

  // ---- Rejected submissions and cycles ----

  /** The guard finds a dependency that is the new id, or from which a last edge leads to it. */
  lemma CycleIff(g: Graph, id: Id, deps: seq<Id>)
    ensures CreatesCycle(g, id, deps) <==> id in deps || exists d, e :: d in deps && Reach(g, d, e) && id in Succ(g, e)
  {
    hide Reach;
    forall d | d in deps && Reach(g, d, id) ensures d == id || exists e :: Reach(g, d, e) && id in Succ(g, e) {
      if d != id { var e := ReachCases(g, d, id); }
    }
    forall d, e | d in deps && Reach(g, d, e) && id in Succ(g, e) ensures Reach(g, d, id) {
      ReachStep(g, d, e, id);
    }
    if id in deps { ReachSelf(g, id); }
  }

  lemma RejectionPushes(c: Config, p: Pool, t: Task, stage: Option<Stage>, now: nat)
    requires Initial(t) && Submit(c, p, t, stage, now).1.Err?
    ensures Submit(c, p, t, stage, now).0 == p.(succs := PushEdges(p.succs, Pushed(c, p, t, stage), t.id))
  {
    hide CreatesCycle, Missing;
  }

  /**
   After a rejected submission nothing leads on from its id, so no cycle can exist but a self-dependency. A resubmission
   is nevertheless taken for a cycle exactly if one of its dependencies is, or leads to, one over which the rejected
   submission has pushed an edge.
   */
  lemma ResubmissionCycleIff(c: Config, y: System, t: Task, stage: Option<Stage>, now: nat, deps: seq<Id>)
    requires Inv(c, y) && Initial(t) && t.id !in y.pool.nodes && t.id !in y.stale
    requires Submit(c, y.pool, t, stage, now).1.Err?
    ensures
      var g := AfterSubmit(c, y, t, stage, now).pool.succs;
      && Succ(g, t.id) == []
      && (CreatesCycle(g, t.id, deps) <==>
          t.id in deps || exists d, e :: d in deps && e in Pushed(c, y.pool, t, stage) && Reach(y.pool.succs, d, e))
  {
    var g, h, ds := y.pool.succs, AfterSubmit(c, y, t, stage, now).pool.succs, Pushed(c, y.pool, t, stage);
    RejectionPushes(c, y.pool, t, stage, now);
    PushedOk(c, y, t, stage);
    hide Inv, Submit, Pushed, Reach, CreatesCycle, PushEdges;
    CycleIff(h, t.id, deps);
    forall e ensures t.id in Succ(h, e) <==> e in ds { PushEdgesMembers(g, ds, t.id, e, t.id); }
    forall d, e | e in ds ensures Reach(h, d, e) <==> Reach(g, d, e) { PushEdgesReach(g, ds, t.id, d, e); }
    PushEdgesKeys(g, ds, t.id);
  }

  lemma PushedOk(c: Config, y: System, t: Task, stage: Option<Stage>)
    requires Inv(c, y) && t.id !in y.pool.nodes && t.id !in y.stale
    ensures Succ(y.pool.succs, t.id) == [] && t.id !in Pushed(c, y.pool, t, stage)
    ensures forall e :: t.id !in Succ(y.pool.succs, e)
  {
    hide CreatesCycle, NodesOk, UseOk, CountOk, Closed, LogOk;
    forall d | d in t.deps[..StopAt(y.pool.nodes, t.id, t.deps)] ensures d != t.id {
      PassedDeps(y.pool.nodes, t.id, t.deps, d);
    }
    forall e ensures t.id !in Succ(y.pool.succs, e) { NoEdgeInto(y.pool, y.stale, t.id, e); }
  }

  lemma StepGrows(c: Config, y: System, e: Event, z: System)
    requires FreeNext(c, y, e, z)
    ensures Grows(y.pool.succs, z.pool.succs)
  {
    hide Submit, IsPick;
    if e.step.DoSubmit? {
      SubmitGrows(c, y.pool, e.step.task, e.step.stage, e.now);
    } else {
      StepKeepsSuccs(c, y, e, z);
    }
  }

  lemma SubmitGrows(c: Config, p: Pool, t: Task, stage: Option<Stage>, now: nat)
    requires Initial(t)
    ensures Grows(p.succs, Submit(c, p, t, stage, now).0.succs)
  {
    hide Submit, PushEdges;
    var ds := SubmitEdges(c, p, t, stage, now);
    forall v, w | w in Succ(p.succs, v) ensures w in Succ(PushEdges(p.succs, ds, t.id), v) {
      PushEdgesMembers(p.succs, ds, t.id, v, w);
    }
  }

  lemma {:induction false} TraceGrows(c: Config, ss: seq<System>, es: seq<Event>, i: nat, j: nat)
    requires IsFreeTrace(c, ss, es) && i <= j < |ss|
    ensures Grows(ss[i].pool.succs, ss[j].pool.succs)
    decreases j
  {
    hide FreeNext;
    if i < j {
      TraceGrows(c, ss, es, i, j - 1);
      assert FreeNext(c, ss[j - 1], es[j - 1], ss[j - 1 + 1]);
      StepGrows(c, ss[j - 1], es[j - 1], ss[j]);
    }
  }

  /**
   Edges are never removed: once a left-over edge leads from d, or from a task that d leads to, to an id, every later
   submission of that id with the dependency d is rejected, whatever happens in between.
   */
  lemma RejectionIsPermanent(
      c: Config, ss: seq<System>, es: seq<Event>, i: nat, j: nat, d: Id, e: Id, t: Task, stage: Option<Stage>, now: nat)
    requires IsFreeTrace(c, ss, es) && i <= j < |ss|
    requires Reach(ss[i].pool.succs, d, e) && t.id in Succ(ss[i].pool.succs, e) && d in t.deps
    ensures Submit(c, ss[j].pool, t, stage, now).1.Err?
  {
    hide FreeNext, Reach, Missing, PushEdges;
    var g, h := ss[i].pool.succs, ss[j].pool.succs;
    TraceGrows(c, ss, es, i, j);
    ReachGrows(g, h, d, e);
    CycleIff(h, t.id, t.deps);
    hide CreatesCycle;
  }

  /** Under the hypothesis that no such id is reused, no success overwakes or releases early. */
  lemma NoReuseNoOverwake(c: Config, ss: seq<System>, es: seq<Event>, i: nat)
    requires Normal(c) && IsRun(c, ss, es) && i < |es|
    ensures !StepOverwakes(ss[i], es[i]) && !StepReleasesEarly(ss[i], es[i])
  {
    hide Core, FreeInv, FreeNext, CountOk, Safe, StepOverwakes, StepReleasesEarly;
    RunKeepsInv(c, ss, es, i);
    RunKeepsInv(c, ss, es, i + 1);
    assert Next(c, ss[i], es[i], ss[i + 1]);
    InvIsFree(c, ss[i]);
    InvIsFree(c, ss[i + 1]);
    StepCoversIff(c, ss[i], es[i], ss[i + 1]);
  }

  lemma InvIsFree(c: Config, y: System)
    requires Inv(c, y)
    ensures FreeInv(c, y) && CountOk(y.pool) && Safe(y.pool)
  {
    forall x | x in y.pool.nodes ensures SafeTask(y.pool, x) {
      SafeBySlack(c, y.pool, x);
      assert Surplus(y.pool, x, 0);
    }
  }
}
