/** Runs of the pool: any interleaving of its critical sections, with any number of clients and workers. */
module PoolRuns {
  import opened Tasks
  import opened Graphs
  import opened Evaluation
  import opened PoolModel
  import opened PoolInvariants

  /**
   The pool together with history: the accepted jobs in submission order, the ids whose rejected submission
   left edges behind, the latest clock reading, and the inputs held by workers that are executing a stage.
   */
  datatype System = System(
    pool: Pool,
    log: seq<Job>,
    stale: set<Id>,
    clock: nat,
    flight: map<Id, Outputs>)

  const START := System(EMPTY_POOL, [], {}, 0, map[])

  datatype Step =
    | DoSubmit(task: Task, stage: Option<Stage>)
    | DoCancel(id: Id)
    | DoPause(id: Id)
    | DoResume(id: Id)
    | DoDispatch(id: Id)
    | DoCheckpoint(id: Id)
    | DoFinalize(id: Id, outcome: Outcome)

  datatype Event = Event(step: Step, now: nat)

  ghost function AfterSubmit(c: Config, y: System, t: Task, stage: Option<Stage>, now: nat): System {
    var (q, r) := Submit(c, y.pool, t, stage, now);
    if r.Ok? then
      y.(pool := q, log := y.log + [Job(t.id, t.deps, if stage.Some? then stage.value else 0, Admitted(t).demand)],
        clock := now)
    else
      y.(pool := q, stale := if q.succs != y.pool.succs then y.stale + {t.id} else y.stale, clock := now)
  }

  /**
   Descriptors are submitted in their initial state. Only the worker executing a task reports progress on it or
   returns its result, and it does neither while it is held at a pause.
   */
  ghost predicate FreeNext(c: Config, y: System, e: Event, z: System) {
    && e.now >= y.clock
    && var p, now := y.pool, e.now;
    match e.step
    case DoSubmit(t, stage) => Initial(t) && z == AfterSubmit(c, y, t, stage, now)
    case DoCancel(id) => z == y.(pool := Cancel(p, id, now).0, clock := now)
    case DoPause(id) => z == y.(pool := Pause(c, p, id, now).0, clock := now)
    case DoResume(id) => z == y.(pool := Resume(p, id, now).0, clock := now)
    case DoDispatch(id) =>
      && |p.running| < c.workers
      && IsPick(c, p, now, Some(id)) && id in p.nodes
      && z == y.(pool := Dispatch(p, id, now), flight := y.flight[id := InputsFor(p, id)], clock := now)
    case DoCheckpoint(id) =>
      && id in y.flight && !Has(p, id, Paused)
      && z == y.(pool := Checkpoint(p, id, now), clock := now)
    case DoFinalize(id, outcome) =>
      && id in y.flight && !Has(p, id, Paused)
      && z == y.(pool := Finalize(p, id, outcome, now), flight := y.flight - {id}, clock := now)
  }

  /** In addition, an id whose rejected submission left edges behind is not submitted again. */
  ghost predicate Next(c: Config, y: System, e: Event, z: System) {
    FreeNext(c, y, e, z) && (e.step.DoSubmit? ==> e.step.task.id !in y.stale)
  }

  ghost predicate Inv(c: Config, y: System) {
    && Core(c, y.pool, y.log, y.stale)
    && y.flight.Keys == y.pool.running
  }

  // ---- Submission ----

  lemma NoEdgeInto(p: Pool, stale: set<Id>, id: Id, d: Id)
    requires EdgesOk(p, stale) && id !in p.nodes && id !in stale
    ensures id !in Succ(p.succs, d) && Edge(p.succs, d, id) == 0
  {
  }

  lemma OnlyReachesItself(p: Pool, stale: set<Id>, id: Id, d: Id)
    requires EdgesOk(p, stale) && id !in p.nodes && id !in stale && Reach(p.succs, d, id)
    ensures d == id
  {
    if d != id {
      var last := ReachCases(p.succs, d, id);
      assert false by { NoEdgeInto(p, stale, id, last); }
    }
  }

  /** For an id that no edge leads to, the walk that looks for cycles finds exactly a self-dependency. */
  lemma FreshCycle(p: Pool, stale: set<Id>, id: Id, deps: seq<Id>)
    requires EdgesOk(p, stale) && id !in p.nodes && id !in stale
    ensures CreatesCycle(p.succs, id, deps) <==> id in deps
  {
    if id in deps { ReachSelf(p.succs, id); }
    forall d | d in deps && Reach(p.succs, d, id) ensures d == id {
      OnlyReachesItself(p, stale, id, d);
    }
  }

  lemma OnlyEdgesChange(c: Config, p: Pool, q: Pool, log: seq<Job>)
    requires q == p.(succs := q.succs)
    ensures NodesOk(c, p) ==> NodesOk(c, q)
    ensures IndexOk(p) ==> IndexOk(q)
    ensures UseOk(c, p, log) ==> UseOk(c, q, log)
    ensures LogOk(p, log) ==> LogOk(q, log)
    ensures CountOk(p) ==> CountOk(q)
    ensures Exact(p) ==> Exact(q)
    ensures Closed(p) ==> Closed(q)
    ensures Advances(p, q)
  {
    hide NodeOk, Missing, Slack;
    assert forall d :: BadNode(q, d) == BadNode(p, d);
    forall x, k: nat | x in p.nodes
      ensures Surplus(q, x, k) == Surplus(p, x, k) && Counted(q, x) == Counted(p, x)
    {
    }
  }

  lemma PushedElsewhere(g: Graph, ds: seq<Id>, id: Id, d: Id, x: Id)
    requires x != id
    ensures Edge(PushEdges(g, ds, id), d, x) == Edge(g, d, x)
    ensures x in Succ(PushEdges(g, ds, id), d) <==> x in Succ(g, d)
  {
    PushEdgesCounts(g, ds, id, d, x);
  }

  lemma RejectKeepsEdges(p: Pool, q: Pool, stale: set<Id>, id: Id, ds: seq<Id>)
    requires EdgesOk(p, stale) && id !in p.nodes
    requires forall d :: d in ds ==> d in p.nodes
    requires q == p.(succs := PushEdges(p.succs, ds, id))
    ensures EdgesOk(q, stale + {id})
  {
    PushEdgesKeys(p.succs, ds, id);
    hide PushEdges, Edge, Succ;
    forall d, x | x != id
      ensures Edge(q.succs, d, x) == Edge(p.succs, d, x) && (x in Succ(q.succs, d) <==> x in Succ(p.succs, d))
    {
      PushedElsewhere(p.succs, ds, id, d, x);
    }
  }

  lemma RejectKeepsForward(p: Pool, q: Pool, log: seq<Job>, id: Id, ds: seq<Id>)
    requires LogOk(p, log) && ForwardOk(p, log) && id !in p.nodes
    requires q == p.(succs := PushEdges(p.succs, ds, id))
    ensures ForwardOk(q, log)
  {
    hide PushEdges, Succ, JobOf;
    forall i, j | 0 <= i < |log| && 0 <= j < |log| && log[j].id in Succ(q.succs, log[i].id) ensures i < j {
      PushedElsewhere(p.succs, ds, id, log[i].id, log[j].id);
    }
  }

  lemma RejectKeepsCore(c: Config, p: Pool, log: seq<Job>, stale: set<Id>, id: Id, ds: seq<Id>)
    requires Core(c, p, log, stale) && id !in p.nodes
    requires forall d :: d in ds ==> d in p.nodes
    ensures
      var q := p.(succs := PushEdges(p.succs, ds, id));
      && Core(c, q, log, if q.succs != p.succs then stale + {id} else stale)
      && Advances(p, q) && (Exact(p) ==> Exact(q))
  {
    hide NodesOk, IndexOk, UseOk, LogOk, EdgesOk, ForwardOk, CountOk, Exact, Closed, Evolves, KeepsSurplus;
    var q := p.(succs := PushEdges(p.succs, ds, id));
    OnlyEdgesChange(c, p, q, log);
    if q.succs == p.succs {
      assert q == p;
    } else {
      RejectKeepsEdges(p, q, stale, id, ds);
      RejectKeepsForward(p, q, log, id, ds);
    }
  }

  ghost predicate Adds(p: Pool, q: Pool, id: Id, n: Node, ds: seq<Id>, stale: set<Id>) {
    && id !in p.nodes && id !in stale
    && q.nodes == p.nodes[id := n] && q.succs == PushEdges(p.succs, ds, id)
    && (forall d :: d in ds ==> d in p.nodes && d in n.task.deps)
    && (n.task.state != Canceled ==> ds == n.task.deps)
    && n.task.id == id
  }

  lemma AddKeepsEdges(p: Pool, q: Pool, id: Id, n: Node, ds: seq<Id>, stale: set<Id>)
    requires EdgesOk(p, stale) && Adds(p, q, id, n, ds, stale)
    ensures EdgesOk(q, stale)
    ensures forall d, x :: x != id ==> (x in Succ(q.succs, d) <==> x in Succ(p.succs, d))
    ensures Succ(q.succs, id) == []
  {
    PushEdgesEffect(p.succs, ds, id);
    forall d, x ensures x != id ==> (x in Succ(q.succs, d) <==> x in Succ(p.succs, d))
      ensures x == id ==> (x in Succ(q.succs, d) <==> d in ds)
    {
      assert Edge(q.succs, d, x) == Edge(p.succs, d, x) + if x == id then multiset(ds)[d] else 0;
      NoEdgeInto(p, stale, id, d);
    }
    forall d, x | x in q.nodes && q.nodes[x].task.state != Canceled
      ensures Edge(q.succs, d, x) == multiset(q.nodes[x].task.deps)[d]
    {
      NoEdgeInto(p, stale, id, d);
      if x != id { assert q.nodes[x] == p.nodes[x]; }
    }
  }

  lemma IdsAppend(log: seq<Job>, job: Job)
    ensures Ids(log + [job]) == Ids(log) + {job.id}
  {
    var log' := log + [job];
    forall x | x in Ids(log) + {job.id} ensures x in Ids(log') {
      if x in Ids(log) {
        var i :| 0 <= i < |log| && log[i].id == x;
        assert log'[i].id == x;
      } else {
        assert log'[|log|].id == x;
      }
    }
  }

  lemma AddKeepsLog(p: Pool, q: Pool, id: Id, n: Node, log: seq<Job>)
    requires LogOk(p, log) && id !in p.nodes && q.nodes == p.nodes[id := n] && n.task.id == id
    ensures LogOk(q, log + [JobOf(n)])
  {
    IdsAppend(log, JobOf(n));
    forall i | 0 <= i < |log| ensures log[i].id != id {
      assert log[i].id in p.nodes;
    }
  }

  lemma AddKeepsForward(p: Pool, q: Pool, id: Id, log: seq<Job>, job: Job)
    requires LogOk(p, log) && ForwardOk(p, log) && job.id == id && id !in p.nodes
    requires forall d, x :: x != id ==> (x in Succ(q.succs, d) <==> x in Succ(p.succs, d))
    requires Succ(q.succs, id) == []
    ensures ForwardOk(q, log + [job])
  {
    var log' := log + [job];
    forall i, j | 0 <= i < |log'| && 0 <= j < |log'| && log'[j].id in Succ(q.succs, log'[i].id) ensures i < j {
      if i < |log| && j < |log| {
        assert log[j].id in p.nodes;
        assert log[j].id in Succ(p.succs, log[i].id);
      }
    }
  }

  lemma AddKeepsCounts(c: Config, p: Pool, q: Pool, id: Id, n: Node, ds: seq<Id>, stale: set<Id>)
    requires EdgesOk(p, stale) && Adds(p, q, id, n, ds, stale) && n.task.state in {Queued, Ready, Canceled}
    requires n.task.state != Canceled ==> Slack(n) == Missing(DoneSet(p.nodes), n.task.deps)
    requires n.task.state != Canceled ==> forall d :: d in ds ==> !BadNode(p, d)
    ensures KeepsSurplus(p, q)
    ensures CountOk(p) ==> CountOk(q)
    ensures Exact(p) ==> Exact(q)
    ensures Closed(p) ==> Closed(q)
  {
    assert DoneSet(q.nodes) == DoneSet(p.nodes);
    forall x, k: nat | x in p.nodes
      ensures Surplus(p, x, k) ==> Surplus(q, x, k)
      ensures Counted(p, x) ==> Counted(q, x)
    {
    }
    if Closed(p) {
      forall x, d | x in q.nodes && d in q.nodes[x].task.deps && BadNode(q, d) && q.nodes[x].task.state != Canceled
        ensures false
      {
        if x != id {
          DependencyEdge(p, stale, x, d);
          assert BadNode(p, d);
        }
      }
    }
  }

  lemma AddKeepsNodes(c: Config, p: Pool, q: Pool, id: Id, n: Node, log: seq<Job>)
    requires NodesOk(c, p) && IndexOk(p) && UseOk(c, p, log)
    requires id !in p.nodes && q.nodes == p.nodes[id := n] && NodeOk(c, id, n) && !n.running
    requires q.running == p.running && q.inUse == p.inUse
    requires q.ready == if n.task.state == Ready then p.ready + {id} else p.ready
    ensures NodesOk(c, q) && IndexOk(q) && UseOk(c, q, log + [JobOf(n)]) && Evolves(p, q)
  {
    hide NodeOk, NodeEvolves, WithinSoft;
    assert (log + [JobOf(n)])[..|log|] == log;
    assert JobOf(n).id !in p.running by { NodeOkId(c, id, n); }
    forall x | x in p.nodes ensures NodeEvolves(p.nodes[x], q.nodes[x]) { NodeEvolvesSelf(p.nodes[x]); }
  }

  lemma NodeOkId(c: Config, id: Id, n: Node)
    requires NodeOk(c, id, n)
    ensures n.task.id == id
  {
  }

  lemma AddKeepsCore(c: Config, p: Pool, q: Pool, id: Id, n: Node, ds: seq<Id>, log: seq<Job>, stale: set<Id>)
    requires Core(c, p, log, stale) && Adds(p, q, id, n, ds, stale)
    requires NodeOk(c, id, n) && !n.running && n.task.state in {Queued, Ready, Canceled}
    requires n.task.state != Canceled ==> Slack(n) == Missing(DoneSet(p.nodes), n.task.deps)
    requires n.task.state != Canceled ==> forall d :: d in ds ==> !BadNode(p, d)
    requires q.running == p.running && q.inUse == p.inUse
    requires q.ready == if n.task.state == Ready then p.ready + {id} else p.ready
    ensures Core(c, q, log + [JobOf(n)], stale) && Advances(p, q)
    ensures Exact(p) ==> Exact(q)
  {
    hide NodesOk, IndexOk, UseOk, LogOk, EdgesOk, ForwardOk, CountOk, Exact, Closed, Evolves, KeepsSurplus, NodeOk;
    hide Missing, Slack;
    AddKeepsEdges(p, q, id, n, ds, stale);
    AddKeepsLog(p, q, id, n, log);
    AddKeepsForward(p, q, id, log, JobOf(n));
    AddKeepsCounts(c, p, q, id, n, ds, stale);
    AddKeepsNodes(c, p, q, id, n, log);
  }

  lemma AdmittedOk(c: Config, t0: Task, stage: Stage, unmet: nat, now: nat)
    requires Initial(t0) && Admitted(t0).id != "" && Admitted(t0).demand.cpu <= c.cpuHard
    ensures
      var t := Admitted(t0);
      var blocked, ready, queued := BlockedNode(t, stage, unmet, now),
        NewNode(Transition(t, Ready, now), stage, 0, now), NewNode(t, stage, unmet, now);
      && Initial(t) && Legal(t.state, Ready) && t.id == t0.id && t.deps == t0.deps
      && NodeOk(c, t.id, blocked) && !blocked.running && blocked.task.state == Canceled
      && JobOf(blocked) == Job(t.id, t.deps, stage, t.demand)
      && NodeOk(c, t.id, ready) && !ready.running && ready.task.state == Ready
      && JobOf(ready) == Job(t.id, t.deps, stage, t.demand) && Slack(ready) == 0
      && (unmet > 0 ==> NodeOk(c, t.id, queued)) && !queued.running && queued.task.state == Queued
      && JobOf(queued) == Job(t.id, t.deps, stage, t.demand) && Slack(queued) == unmet
  {
  }

  /** The dependencies the submission loop went through before it stopped. */
  lemma PassedDeps(nodes: map<Id, Node>, id: Id, deps: seq<Id>, d: Id)
    requires d in deps[..StopAt(nodes, id, deps)]
    ensures d in nodes && !Bad(nodes[d].task.state) && d != id
  {
    var k := StopAt(nodes, id, deps);
    var i :| 0 <= i < k && deps[..k][i] == d;
    assert !Stops(nodes, id, deps[i]);
  }

  lemma SubmitCases(c: Config, p: Pool, t0: Task, stage: Option<Stage>, now: nat)
    requires Initial(t0)
    ensures
      var t, q, r := Admitted(t0), Submit(c, p, t0, stage, now).0, Submit(c, p, t0, stage, now).1;
      var k := StopAt(p.nodes, t.id, t.deps);
      var unmet := Missing(DoneSet(p.nodes), t.deps[..k]);
      (q == p && r.Err?) ||
      (&& stage.Some? && t.id != "" && t.id !in p.nodes && t.demand.cpu <= c.cpuHard
       && if r.Err? then q == p.(succs := PushEdges(p.succs, t.deps[..k], t.id))
          else
            && t.id in q.nodes && q.nodes == p.nodes[t.id := q.nodes[t.id]] && q.running == p.running
            && q.inUse == p.inUse
            && if k < |t.deps| then
                 && t.deps[k] in p.nodes && q.succs == PushEdges(p.succs, t.deps[..k + 1], t.id)
                 && q.nodes[t.id] == BlockedNode(t, stage.value, unmet, now) && q.ready == p.ready
               else
                 && q.succs == PushEdges(p.succs, t.deps, t.id)
                 && (unmet == 0 ==>
                       && q.nodes[t.id] == NewNode(Transition(t, Ready, now), stage.value, 0, now)
                       && q.ready == p.ready + {t.id})
                 && (unmet > 0 ==> q.nodes[t.id] == NewNode(t, stage.value, unmet, now) && q.ready == p.ready))
  {
    hide Missing, CreatesCycle, BlockedNode, NewNode, PushEdges;
    var t := Admitted(t0);
    var k := StopAt(p.nodes, t.id, t.deps);
    if k == |t.deps| { assert t.deps[..k] == t.deps; }
  }

  lemma SubmitKeepsCore(c: Config, p: Pool, t0: Task, stage: Option<Stage>, now: nat, log: seq<Job>, stale: set<Id>)
    requires Core(c, p, log, stale) && Initial(t0) && t0.id !in stale
    ensures
      var q, r := Submit(c, p, t0, stage, now).0, Submit(c, p, t0, stage, now).1;
      && Advances(p, q) && q.running == p.running && (Exact(p) ==> Exact(q))
      && if r.Ok? then
           && stage.Some? && Core(c, q, log + [Job(t0.id, t0.deps, stage.value, Admitted(t0).demand)], stale)
         else Core(c, q, log, if q.succs != p.succs then stale + {t0.id} else stale)
  {
    hide NodesOk, IndexOk, UseOk, LogOk, EdgesOk, ForwardOk, CountOk, Exact, Closed, Evolves, KeepsSurplus, NodeOk;
    hide Missing, Slack, CreatesCycle, Legal, BlockedNode, NewNode, PushEdges, Submit;
    var t, q, r := Admitted(t0), Submit(c, p, t0, stage, now).0, Submit(c, p, t0, stage, now).1;
    AdvancesSelf(p);
    SubmitCases(c, p, t0, stage, now);
    if q != p || r.Ok? {
      var k := StopAt(p.nodes, t.id, t.deps);
      var ds := t.deps[..k];
      AdmittedOk(c, t0, stage.value, Missing(DoneSet(p.nodes), ds), now);
      forall d | d in ds ensures d in p.nodes && !BadNode(p, d) {
        PassedDeps(p.nodes, t.id, t.deps, d);
      }
      if r.Err? {
        RejectKeepsCore(c, p, log, stale, t.id, ds);
      } else if k < |t.deps| {
        assert t.deps[..k + 1] == ds + [t.deps[k]];
        AddKeepsCore(c, p, q, t.id, q.nodes[t.id], t.deps[..k + 1], log, stale);
      } else {
        assert ds == t.deps;
        AddKeepsCore(c, p, q, t.id, q.nodes[t.id], t.deps, log, stale);
      }
    }
  }

  lemma SubmitKeepsInv(c: Config, y: System, t0: Task, stage: Option<Stage>, now: nat)
    requires Inv(c, y) && Initial(t0) && t0.id !in y.stale
    ensures Inv(c, AfterSubmit(c, y, t0, stage, now))
    ensures Advances(y.pool, AfterSubmit(c, y, t0, stage, now).pool)
    ensures Exact(y.pool) ==> Exact(AfterSubmit(c, y, t0, stage, now).pool)
  {
    hide Submit, Core, Advances, Exact;
    SubmitKeepsCore(c, y.pool, t0, stage, now, y.log, y.stale);
  }

  // ---- Cancel, pause, resume ----

  /** A change of one task that leaves its flag, counter and terminality alone. */
  predicate QuietChange(c: Config, id: Id, n: Node, m: Node) {
    && NodeOk(c, id, m) && NodeEvolves(n, m) && m.running == n.running
    && (Terminal(n.task.state) || !Terminal(m.task.state)) && Slack(m) == Slack(n)
  }

  lemma QuietKeepsCore(c: Config, p: Pool, q: Pool, id: Id, log: seq<Job>, stale: set<Id>)
    requires Core(c, p, log, stale) && id in p.nodes && id in q.nodes && QuietChange(c, id, p.nodes[id], q.nodes[id])
    requires q.nodes == p.nodes[id := q.nodes[id]] && q.succs == p.succs
    requires q.ready == if q.nodes[id].task.state == Ready then p.ready + {id} else p.ready - {id}
    requires q.running == p.running && q.inUse == p.inUse
    ensures Core(c, q, log, stale) && Advances(p, q)
    ensures Exact(p) ==> Exact(q)
  {
    hide NodesOk, UseOk, LogOk, EdgesOk, ForwardOk, CountOk, Exact, Closed, Evolves, KeepsSurplus, NodeOk;
    hide NodeEvolves, Slack;
    assert q.running == if q.nodes[id].running then p.running + {id} else p.running - {id};
    UseKept(c, p, q, log);
    LocalKeepsCore(c, p, q, id, log, stale);
  }

  lemma CoreAt(c: Config, p: Pool, log: seq<Job>, stale: set<Id>, id: Id)
    requires Core(c, p, log, stale) && id in p.nodes
    ensures NodeOk(c, id, p.nodes[id])
    ensures id in p.ready <==> p.nodes[id].task.state == Ready
    ensures id in p.running <==> p.nodes[id].running
  {
  }

  lemma CanceledNodeOk(c: Config, id: Id, n: Node, now: nat)
    requires NodeOk(c, id, n)
    ensures
      var m := CanceledNode(n, now);
      && NodeOk(c, id, m) && NodeEvolves(n, m) && m.running == n.running && m.task.state != Ready
      && (if Terminal(n.task.state) then QuietChange(c, id, n, m) else m.task.state == Canceled)
  {
  }

  lemma CancelKeepsInv(c: Config, y: System, id: Id, now: nat)
    requires Inv(c, y)
    ensures Inv(c, y.(pool := Cancel(y.pool, id, now).0, clock := now))
    ensures Advances(y.pool, Cancel(y.pool, id, now).0)
    ensures Exact(y.pool) ==> Exact(Cancel(y.pool, id, now).0)
  {
    hide NodesOk, IndexOk, UseOk, LogOk, EdgesOk, ForwardOk, CountOk, Exact, Closed, Evolves, KeepsSurplus;
    var p := y.pool;
    if id in p.nodes {
      var n := p.nodes[id];
      var q := RequestCancel(p, id).(
        nodes := p.nodes[id := CanceledNode(n, now)],
        ready := if n.task.state == Ready then p.ready - {id} else p.ready);
      CoreAt(c, p, y.log, y.stale, id);
      CanceledNodeOk(c, id, n, now);
      if Terminal(n.task.state) {
        QuietKeepsCore(c, p, q, id, y.log, y.stale);
      } else {
        assert Replaces(p, q, id);
        UseKept(c, p, q, y.log);
        GoBadKeepsCore(c, p, q, id, y.log, y.stale, now);
        assert Cancel(p, id, now).0 == Propagate(q, id, now);
      }
    } else {
      AdvancesSelf(p);
    }
  }

  lemma PausedNodeOk(c: Config, id: Id, n: Node, now: nat)
    requires NodeOk(c, id, n) && n.task.state in {Queued, Ready, Running}
    ensures
      var m := n.(task := Transition(n.task, Paused, now));
      && QuietChange(c, id, n, m) && QuietChange(c, id, n, m.(pauseRequested := false, pauseDeadline := None))
      && m.task.state == Paused
  {
  }

  lemma PauseKeepsInv(c: Config, y: System, id: Id, now: nat)
    requires Inv(c, y)
    ensures Inv(c, y.(pool := Pause(c, y.pool, id, now).0, clock := now))
    ensures Advances(y.pool, Pause(c, y.pool, id, now).0)
    ensures Exact(y.pool) ==> Exact(Pause(c, y.pool, id, now).0)
  {
    hide NodesOk, IndexOk, UseOk, LogOk, EdgesOk, ForwardOk, CountOk, Exact, Closed, Evolves, KeepsSurplus;
    var p, q := y.pool, Pause(c, y.pool, id, now).0;
    AdvancesSelf(p);
    if id in p.nodes && q != p {
      CoreAt(c, p, y.log, y.stale, id);
      if p.nodes[id].task.state != Running { PausedNodeOk(c, id, p.nodes[id], now); }
      assert QuietChange(c, id, p.nodes[id], q.nodes[id]);
      QuietKeepsCore(c, p, q, id, y.log, y.stale);
    }
  }

  lemma ResumedNodeOk(c: Config, id: Id, n: Node, now: nat, since: nat)
    requires NodeOk(c, id, n) && n.task.state == Paused
    ensures Legal(Paused, ResumeTarget(n.task)) && n.task.pausedFrom == Some(ResumeTarget(n.task))
    ensures
      var awake := Transition(n.task, ResumeTarget(n.task), now);
      QuietChange(c, id, n, n.(task := awake, pauseRequested := false, pauseDeadline := None, since := since))
  {
  }

  lemma ResumeKeepsInv(c: Config, y: System, id: Id, now: nat)
    requires Inv(c, y)
    ensures Inv(c, y.(pool := Resume(y.pool, id, now).0, clock := now))
    ensures Advances(y.pool, Resume(y.pool, id, now).0)
    ensures Exact(y.pool) ==> Exact(Resume(y.pool, id, now).0)
    ensures Resume(y.pool, id, now).1 == Ok <==> Has(y.pool, id, Paused)
  {
    hide NodesOk, IndexOk, UseOk, LogOk, EdgesOk, ForwardOk, CountOk, Exact, Closed, Evolves, KeepsSurplus;
    var p, q := y.pool, Resume(y.pool, id, now).0;
    AdvancesSelf(p);
    if Has(p, id, Paused) {
      var n := p.nodes[id];
      CoreAt(c, p, y.log, y.stale, id);
      ResumedNodeOk(c, id, n, now, if ResumeTarget(n.task) == Ready then now else n.since);
      assert QuietChange(c, id, n, q.nodes[id]);
      QuietKeepsCore(c, p, q, id, y.log, y.stale);
    }
  }

  lemma CheckpointKeepsInv(c: Config, y: System, id: Id, now: nat)
    requires Inv(c, y)
    ensures Inv(c, y.(pool := Checkpoint(y.pool, id, now), clock := now))
    ensures Advances(y.pool, Checkpoint(y.pool, id, now))
    ensures Exact(y.pool) ==> Exact(Checkpoint(y.pool, id, now))
  {
    hide NodesOk, IndexOk, UseOk, LogOk, EdgesOk, ForwardOk, CountOk, Exact, Closed, Evolves, KeepsSurplus;
    var p, q := y.pool, Checkpoint(y.pool, id, now);
    AdvancesSelf(p);
    if q != p {
      CoreAt(c, p, y.log, y.stale, id);
      PausedNodeOk(c, id, p.nodes[id], now);
      QuietKeepsCore(c, p, q, id, y.log, y.stale);
    }
  }

  // ---- Dispatch and return ----

  lemma StartedNodeOk(c: Config, id: Id, n: Node, now: nat)
    requires NodeOk(c, id, n) && n.task.state == Ready
    ensures
      var m := StartedNode(n, now);
      && NodeOk(c, id, m) && NodeEvolves(n, m) && m.running && m.task.state == Running && Slack(m) == Slack(n)
      && n.task.startedAt.None? && m.task.startedAt.Some? && !n.running
  {
  }

  /** A pick fits the budgets, or runs alone. */
  lemma PickFits(c: Config, p: Pool, now: nat, id: Id)
    requires IsPick(c, p, now, Some(id))
    ensures Runnable(c, p, id)
    ensures FitsSoft(c, p, p.nodes[id].task.demand) || p.running == {}
  {
    assert id in Candidates(c, p, true) || id in Candidates(c, p, false);
  }

  lemma InCandidates(c: Config, p: Pool, x: Id)
    requires Runnable(c, p, x)
    ensures x in Candidates(c, p, FitsSoft(c, p, p.nodes[x].task.demand))
    ensures x !in Candidates(c, p, !FitsSoft(c, p, p.nodes[x].task.demand))
  {
  }

  lemma DispatchUse(c: Config, p: Pool, id: Id, now: nat, log: seq<Job>)
    requires UseOk(c, p, log) && LogOk(p, log) && IsPick(c, p, now, Some(id)) && id in p.nodes && id !in p.running
    ensures UseOk(c, Dispatch(p, id, now), log)
  {
    hide IsPick;
    var k := IndexInLog(p, log, id);
    HeldAdd(p.running, log, k);
    PickFits(c, p, now, id);
  }

  lemma DispatchKeepsInv(c: Config, y: System, id: Id, now: nat)
    requires Inv(c, y) && IsPick(c, y.pool, now, Some(id)) && id in y.pool.nodes
    ensures Inv(c, y.(pool := Dispatch(y.pool, id, now), flight := y.flight[id := InputsFor(y.pool, id)], clock := now))
    ensures Advances(y.pool, Dispatch(y.pool, id, now))
    ensures Exact(y.pool) ==> Exact(Dispatch(y.pool, id, now))
    ensures Has(y.pool, id, Ready) && y.pool.nodes[id].task.startedAt.None?
    ensures Dispatch(y.pool, id, now).nodes[id].task.startedAt.Some?
  {
    hide NodesOk, IndexOk, UseOk, LogOk, EdgesOk, ForwardOk, CountOk, Exact, Closed, Evolves, KeepsSurplus, IsPick;
    hide NodeOk, Slack;
    var p, q := y.pool, Dispatch(y.pool, id, now);
    PickFits(c, p, now, id);
    CoreAt(c, p, y.log, y.stale, id);
    StartedNodeOk(c, id, p.nodes[id], now);
    DispatchUse(c, p, id, now, y.log);
    LocalKeepsCore(c, p, q, id, y.log, y.stale);
  }

  lemma ReturnedNodeOk(c: Config, id: Id, n: Node)
    requires NodeOk(c, id, n) && n.running && n.task.state == Canceled
    ensures QuietChange(c, id, n.(running := true), n) && NodeOk(c, id, n.(running := false))
    ensures NodeEvolves(n, n.(running := false)) && Slack(n.(running := false)) == Slack(n)
  {
  }

  lemma SettledNodeOk(c: Config, id: Id, n: Node, to: TaskState, error: Option<TaskError>, outputs: Outputs, now: nat)
    requires NodeOk(c, id, n) && n.task.state == Running && Terminal(to)
    ensures
      var m := n.(running := false, task := Transition(n.task.(error := error), to, now), outputs := outputs);
      && NodeOk(c, id, m) && NodeEvolves(n, m) && m.task.state == to && Slack(m) == Slack(n)
  {
  }

  lemma RunningState(c: Config, id: Id, n: Node)
    requires NodeOk(c, id, n) && n.running && n.task.state != Canceled && n.task.state != Paused
    ensures n.task.state == Running
  {
  }

  lemma IndexHas(p: Pool, id: Id)
    requires IndexOk(p) && id in p.running
    ensures id in p.nodes && p.nodes[id].running
  {
  }

  lemma FinishKeepsCore(c: Config, p: Pool, id: Id, n: Node, to: TaskState, error: Option<TaskError>,
      outputs: Outputs, log: seq<Job>, stale: set<Id>, now: nat)
    requires Core(c, p, log, stale) && id in p.nodes && p.nodes[id] == n && n.running && n.task.state == Running
    requires Bad(to)
    ensures
      var q := Propagate(Settle(Returned(p, id), id, to, error, now), id, now);
      && Core(c, q, log, stale) && SameTasks(p, q) && Advances(p, q) && q.running == p.running - {id}
      && (Exact(p) ==> Exact(q))
  {
    hide NodesOk, IndexOk, UseOk, LogOk, EdgesOk, ForwardOk, CountOk, Exact, Closed, Evolves, KeepsSurplus, NodeOk;
    hide Slack, WithinSoft, Release;
    var r := Returned(p, id);
    var q := Settle(r, id, to, error, now);
    CoreAt(c, p, log, stale, id);
    ReleaseExact(c, p, log, id);
    SettledNodeOk(c, id, n, to, error, n.outputs, now);
    UseKept(c, r, q, log);
    assert q.nodes == p.nodes[id := q.nodes[id]];
    GoBadKeepsCore(c, p, q, id, log, stale, now);
  }

  lemma SucceedKeepsCore(c: Config, p: Pool, id: Id, n: Node, outputs: Outputs, log: seq<Job>, stale: set<Id>, now: nat)
    requires Core(c, p, log, stale) && id in p.nodes && p.nodes[id] == n && n.running && n.task.state == Running
    ensures
      var q := Finalize(p, id, Success(outputs), now);
      && Core(c, q, log, stale) && SameTasks(p, q) && Advances(p, q) && q.running == p.running - {id}
      && (Exact(p) ==> (Exact(q) <==> NoneSkipped(p, id)))
  {
    hide NodesOk, IndexOk, UseOk, LogOk, EdgesOk, ForwardOk, CountOk, Exact, Closed, Evolves, KeepsSurplus, NodeOk;
    hide Slack, WithinSoft, Release, NoneSkipped;
    var r := Returned(p, id);
    var s := Settle(r, id, Succeeded, n.task.error, now);
    var q := s.(nodes := s.nodes[id := s.nodes[id].(outputs := outputs)]);
    CoreAt(c, p, log, stale, id);
    ReleaseExact(c, p, log, id);
    SettledNodeOk(c, id, n, Succeeded, n.task.error, outputs, now);
    UseKept(c, r, q, log);
    assert q.nodes == p.nodes[id := q.nodes[id]];
    GoDoneKeepsCore(c, p, q, id, log, stale, now);
  }

  lemma LateReturnKeepsCore(c: Config, p: Pool, id: Id, outcome: Outcome, log: seq<Job>, stale: set<Id>, now: nat)
    requires Core(c, p, log, stale) && Has(p, id, Canceled) && p.nodes[id].running
    ensures
      var q := Finalize(p, id, outcome, now);
      && Core(c, q, log, stale) && SameTasks(p, q) && Advances(p, q) && q.running == p.running - {id}
      && (Exact(p) ==> Exact(q))
  {
    hide NodesOk, IndexOk, UseOk, LogOk, EdgesOk, ForwardOk, CountOk, Exact, Closed, Evolves, KeepsSurplus, NodeOk;
    hide Slack, WithinSoft, Release;
    var q := Returned(p, id);
    CoreAt(c, p, log, stale, id);
    ReturnedNodeOk(c, id, p.nodes[id]);
    ReleaseExact(c, p, log, id);
    GoBadKeepsCore(c, p, q, id, log, stale, now);
  }

  lemma FinalizeKeepsInv(c: Config, y: System, id: Id, outcome: Outcome, now: nat)
    requires Inv(c, y) && id in y.flight && !Has(y.pool, id, Paused)
    ensures Inv(c, y.(pool := Finalize(y.pool, id, outcome, now), flight := y.flight - {id}, clock := now))
    ensures Advances(y.pool, Finalize(y.pool, id, outcome, now))
    ensures Exact(y.pool) ==>
      (Exact(Finalize(y.pool, id, outcome, now)) <==>
       !(outcome.Success? && Has(y.pool, id, Running)) || NoneSkipped(y.pool, id))
  {
    hide IndexOk, UseOk, LogOk, EdgesOk, ForwardOk, CountOk, Exact, Closed, Evolves, KeepsSurplus, NodeOk;
    hide NoneSkipped, Propagate, Wake, Settle;
    var p := y.pool;
    IndexHas(p, id);
    CoreAt(c, p, y.log, y.stale, id);
    var n := p.nodes[id];
    if n.task.state == Canceled {
      LateReturnKeepsCore(c, p, id, outcome, y.log, y.stale, now);
    } else {
      RunningState(c, id, n);
      match outcome {
        case Success(outputs) =>
          SucceedKeepsCore(c, p, id, n, outputs, y.log, y.stale, now);
        case Failure(error) =>
          var to := if CountsAsCanceled(Returned(p, id), id, error) then Canceled else Failed;
          FinishKeepsCore(c, p, id, n, to, Some(error), n.outputs, y.log, y.stale, now);
      }
    }
  }

  // ---- Runs ----

  lemma StepKeepsInv(c: Config, y: System, e: Event, z: System)
    requires Inv(c, y) && Next(c, y, e, z)
    ensures Inv(c, z) && Advances(y.pool, z.pool) && z.clock >= y.clock
    ensures Exact(y.pool) ==>
      (Exact(z.pool) <==>
       (e.step.DoFinalize? && e.step.outcome.Success? && Has(y.pool, e.step.id, Running) ==>
          NoneSkipped(y.pool, e.step.id)))
  {
    hide Inv, Advances, Exact, IsPick, NoneSkipped, Initial;
    match e.step
    case DoSubmit(t, stage) => SubmitKeepsInv(c, y, t, stage, e.now);
    case DoCancel(id) => CancelKeepsInv(c, y, id, e.now);
    case DoPause(id) => PauseKeepsInv(c, y, id, e.now);
    case DoResume(id) => ResumeKeepsInv(c, y, id, e.now);
    case DoDispatch(id) => DispatchKeepsInv(c, y, id, e.now);
    case DoCheckpoint(id) => CheckpointKeepsInv(c, y, id, e.now);
    case DoFinalize(id, outcome) => FinalizeKeepsInv(c, y, id, outcome, e.now);
  }

  /** A sequence of steps, from any state. */
  ghost predicate IsTrace(c: Config, ss: seq<System>, es: seq<Event>) {
    |ss| == |es| + 1 && forall i :: 0 <= i < |es| ==> Next(c, ss[i], es[i], ss[i + 1])
  }

  /** A sequence of steps from the empty pool. */
  ghost predicate IsRun(c: Config, ss: seq<System>, es: seq<Event>) {
    IsTrace(c, ss, es) && ss[0] == START
  }

  lemma StartInv(c: Config)
    requires Normal(c)
    ensures Inv(c, START) && Exact(START.pool)
  {
  }

  lemma {:induction false} TraceKeepsInv(c: Config, ss: seq<System>, es: seq<Event>, i: nat, j: nat)
    requires IsTrace(c, ss, es) && i <= j < |ss| && Inv(c, ss[i])
    ensures Inv(c, ss[j]) && Advances(ss[i].pool, ss[j].pool) && ss[i].clock <= ss[j].clock
    decreases j
  {
    hide Inv, Next, Advances;
    if i == j {
      AdvancesSelf(ss[i].pool);
    } else {
      TraceKeepsInv(c, ss, es, i, j - 1);
      assert Next(c, ss[j - 1], es[j - 1], ss[j - 1 + 1]);
      StepKeepsInv(c, ss[j - 1], es[j - 1], ss[j]);
      AdvancesTransitive(ss[i].pool, ss[j - 1].pool, ss[j].pool);
    }
  }

  lemma RunKeepsInv(c: Config, ss: seq<System>, es: seq<Event>, j: nat)
    requires Normal(c) && IsRun(c, ss, es) && j < |ss|
    ensures Inv(c, ss[j])
  {
    hide Inv, Next;
    StartInv(c);
    TraceKeepsInv(c, ss, es, 0, j);
  }

  lemma FlightState(c: Config, y: System, id: Id)
    requires Inv(c, y) && id in y.flight && !Has(y.pool, id, Paused)
    ensures Has(y.pool, id, Running) || Has(y.pool, id, Canceled)
  {
    IndexHas(y.pool, id);
    CoreAt(c, y.pool, y.log, y.stale, id);
  }

  lemma LogIndex(c: Config, y: System, x: Id) returns (k: nat)
    requires Inv(c, y) && x in y.pool.nodes
    ensures k < |y.log| && y.log[k].id == x && y.log[k] == JobOf(y.pool.nodes[x])
  {
    k := IndexInLog(y.pool, y.log, x);
  }

  /** The dependencies of a task that is not Canceled were accepted before it. */
  lemma DependencyIndex(c: Config, y: System, k: nat, d: Id) returns (i: nat)
    requires Inv(c, y) && k < |y.log| && d in y.log[k].deps
    requires !Has(y.pool, y.log[k].id, Canceled)
    ensures i < k && y.log[i].id == d && d in y.pool.nodes
  {
    hide NodesOk, UseOk, CountOk, Closed;
    assert JobOf(y.pool.nodes[y.log[k].id]) == y.log[k];
    DependencyEdge(y.pool, y.stale, y.log[k].id, d);
    assert d in y.pool.nodes;
    i := IndexInLog(y.pool, y.log, d);
    assert y.log[k].id in Succ(y.pool.succs, y.log[i].id);
  }
}
