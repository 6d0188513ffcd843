/** What always holds between two critical sections of the pool, and how each elementary change keeps it. */
module PoolInvariants {
  import opened Tasks
  import opened Graphs
  import opened Evaluation
  import opened PoolModel

  function JobOf(n: Node): Job {
    Job(n.task.id, n.task.deps, n.stage, n.task.demand)
  }

  predicate NodeOk(c: Config, id: Id, n: Node) {
    && n.task.id == id && id != ""
    && Lifecycle(n.task) && n.task.token.Some?
    && 1 <= n.task.demand.cpu <= c.cpuHard && 0 <= n.task.demand.ram && 0 <= n.task.demand.vram
    && (Executing(n.task) ==> n.running)
    && (n.running ==> Executing(n.task) || n.task.state == Canceled)
    && (Waiting(n.task) ==> n.unmet > 0)
    && (n.task.state == Canceled || n.task.startedAt.None? || Executing(n.task) || Terminal(n.task.state))
  }

  ghost predicate NodesOk(c: Config, p: Pool) {
    forall id :: id in p.nodes ==> NodeOk(c, id, p.nodes[id])
  }

  /** The ready set holds exactly the Ready tasks, the running set exactly the tasks whose running flag is set. */
  ghost predicate IndexOk(p: Pool) {
    && (forall id :: id in p.ready <==> Has(p, id, Ready))
    && (forall id :: id in p.running <==> id in p.nodes && p.nodes[id].running)
  }

  function Held(running: set<Id>, log: seq<Job>): Demand {
    if log == [] then Demand(0, 0, 0)
    else
      var job := log[|log| - 1];
      var rest := Held(running, log[..|log| - 1]);
      if job.id in running then Plus(rest, job.demand) else rest
  }

  /** The resources in use are those of the running tasks; over a soft limit there is one running task only. */
  ghost predicate UseOk(c: Config, p: Pool, log: seq<Job>) {
    && p.inUse == Held(p.running, log)
    && p.inUse.cpu <= c.cpuHard
    && (WithinSoft(c, p.inUse) || |p.running| <= 1)
  }

  /**
   The log lists the accepted tasks in submission order; stale holds ids of rejected submissions that
   left edges behind. Edges lead from earlier to later submissions and, for every task that is not Canceled,
   are its dependencies with their multiplicity.
   */
  ghost predicate LogOk(p: Pool, log: seq<Job>) {
    && Distinct(log)
    && p.nodes.Keys == Ids(log)
    && (forall i :: 0 <= i < |log| ==> log[i].id in p.nodes && JobOf(p.nodes[log[i].id]) == log[i])
  }

  ghost predicate EdgesOk(p: Pool, stale: set<Id>) {
    && p.succs.Keys <= p.nodes.Keys
    && stale !! p.nodes.Keys
    && (forall d, x :: x in Succ(p.succs, d) ==> x in p.nodes || x in stale)
    && (forall d, x :: x in Succ(p.succs, d) && x in p.nodes ==> d in p.nodes[x].task.deps)
    && (forall d, x :: x in p.nodes && p.nodes[x].task.state != Canceled ==>
          Edge(p.succs, d, x) == multiset(p.nodes[x].task.deps)[d])
  }

  ghost predicate ForwardOk(p: Pool, log: seq<Job>) {
    forall i, j :: 0 <= i < |log| && 0 <= j < |log| && log[j].id in Succ(p.succs, log[i].id) ==> i < j
  }

  function Slack(n: Node): nat {
    if Waiting(n.task) then n.unmet else 0
  }

  /** Unless x is Canceled, its counter exceeds its missing dependencies by k at least. */
  ghost predicate Surplus(p: Pool, x: Id, k: nat)
    requires x in p.nodes
  {
    p.nodes[x].task.state != Canceled ==> Slack(p.nodes[x]) >= Missing(DoneSet(p.nodes), p.nodes[x].task.deps) + k
  }

  ghost predicate Counted(p: Pool, x: Id)
    requires x in p.nodes
  {
    p.nodes[x].task.state != Canceled ==> Slack(p.nodes[x]) == Missing(DoneSet(p.nodes), p.nodes[x].task.deps)
  }

  /** The counter of a waiting task covers its missing dependencies, and nobody else misses any. */
  ghost predicate CountOk(p: Pool) {
    forall x :: x in p.nodes ==> Surplus(p, x, 0)
  }

  /** No wakeup was lost: the counters are exact. */
  ghost predicate Exact(p: Pool) {
    forall x :: x in p.nodes ==> Counted(p, x)
  }

  ghost predicate BadNode(p: Pool, d: Id) {
    d in p.nodes && Bad(p.nodes[d].task.state)
  }

  /** Whoever depends on a Failed or Canceled task is Canceled. */
  ghost predicate Closed(p: Pool) {
    forall x, d :: x in p.nodes && d in p.nodes[x].task.deps && BadNode(p, d) ==> p.nodes[x].task.state == Canceled
  }

  ghost predicate Core(c: Config, p: Pool, log: seq<Job>, stale: set<Id>) {
    && NodesOk(c, p) && IndexOk(p) && UseOk(c, p, log)
    && LogOk(p, log) && EdgesOk(p, stale) && ForwardOk(p, log)
    && CountOk(p) && Closed(p)
  }

  // ---- Counting ----

  lemma {:induction false} MissingZero(done: set<Id>, deps: seq<Id>)
    ensures Missing(done, deps) == 0 <==> forall d :: d in deps ==> d in done
  {
    if deps != [] {
      var front, last := deps[..|deps| - 1], deps[|deps| - 1];
      assert deps == front + [last];
      MissingZero(done, front);
    }
  }

  lemma {:induction false} MissingDone(done: set<Id>, deps: seq<Id>, id: Id)
    requires id !in done
    ensures Missing(done + {id}, deps) == Missing(done, deps) - multiset(deps)[id]
  {
    if deps != [] {
      var front, last := deps[..|deps| - 1], deps[|deps| - 1];
      assert deps == front + [last];
      MissingDone(done, front, id);
    }
  }

  // ---- Resources ----

  lemma {:induction false} HeldNone(log: seq<Job>)
    ensures Held({}, log) == Demand(0, 0, 0)
  {
    if log != [] { HeldNone(log[..|log| - 1]); }
  }

  lemma {:induction false} HeldElsewhere(running: set<Id>, log: seq<Job>, id: Id)
    requires forall i :: 0 <= i < |log| ==> log[i].id != id
    ensures Held(running + {id}, log) == Held(running, log) == Held(running - {id}, log)
  {
    if log != [] { HeldElsewhere(running, log[..|log| - 1], id); }
  }

  lemma {:induction false} HeldAdd(running: set<Id>, log: seq<Job>, k: nat)
    requires Distinct(log) && k < |log| && log[k].id !in running
    ensures Held(running + {log[k].id}, log) == Plus(Held(running, log), log[k].demand)
  {
    var front := log[..|log| - 1];
    if k == |log| - 1 {
      HeldElsewhere(running, front, log[k].id);
    } else {
      HeldAdd(running, front, k);
    }
  }

  lemma HeldRemove(running: set<Id>, log: seq<Job>, k: nat)
    requires Distinct(log) && k < |log| && log[k].id in running
    ensures Held(running, log) == Plus(Held(running - {log[k].id}, log), log[k].demand)
  {
    HeldAdd(running - {log[k].id}, log, k);
    assert running - {log[k].id} + {log[k].id} == running;
  }

  /** Every running task holds at least one CPU slot and nobody holds a negative amount. */
  lemma {:induction false} HeldBounds(running: set<Id>, log: seq<Job>)
    requires running <= Ids(log) && Distinct(log)
    requires forall i :: 0 <= i < |log| ==> log[i].demand.cpu >= 1 && log[i].demand.ram >= 0 && log[i].demand.vram >= 0
    ensures Held(running, log).cpu >= |running| && Held(running, log).ram >= 0 && Held(running, log).vram >= 0
  {
    if log == [] {
      assert running == {};
    } else {
      var front, last := log[..|log| - 1], log[|log| - 1];
      assert Ids(log) == Ids(front) + {last.id};
      HeldElsewhere(running, front, last.id);
      HeldBounds(running - {last.id}, front);
      if last.id !in running { assert running - {last.id} == running; }
    }
  }

  lemma IndexInLog(p: Pool, log: seq<Job>, id: Id) returns (k: nat)
    requires LogOk(p, log) && id in p.nodes
    ensures k < |log| && log[k].id == id && log[k] == JobOf(p.nodes[id])
  {
    assert id in Ids(log);
    k :| 0 <= k < |log| && log[k].id == id;
  }

  lemma UseBounds(c: Config, p: Pool, log: seq<Job>, running: set<Id>)
    requires NodesOk(c, p) && LogOk(p, log) && running <= p.nodes.Keys
    ensures Held(running, log).cpu >= |running| && Held(running, log).ram >= 0 && Held(running, log).vram >= 0
  {
    forall i | 0 <= i < |log| ensures log[i].demand.cpu >= 1 && log[i].demand.ram >= 0 && log[i].demand.vram >= 0 {
      assert JobOf(p.nodes[log[i].id]) == log[i];
    }
    HeldBounds(running, log);
  }

  /** When a stage returns, the clamp in the release never changes a value. */
  lemma ReleaseExact(c: Config, p: Pool, log: seq<Job>, id: Id)
    requires NodesOk(c, p) && IndexOk(p) && UseOk(c, p, log) && LogOk(p, log)
    requires id in p.nodes && p.nodes[id].running
    ensures Returned(p, id).inUse == Held(p.running - {id}, log)
    ensures Plus(Returned(p, id).inUse, p.nodes[id].task.demand) == p.inUse
    ensures UseOk(c, Returned(p, id), log)
  {
    var k := IndexInLog(p, log, id);
    HeldRemove(p.running, log, k);
    UseBounds(c, p, log, p.running - {id});
  }

  // ---- Elementary changes ----

  /** What no step ever changes about a task. */
  predicate NodeEvolves(m: Node, n: Node) {
    && JobOf(n) == JobOf(m)
    && n.task.token == m.task.token
    && n.task.priority == m.task.priority
    && (m.task.startedAt.Some? ==> n.task.startedAt == m.task.startedAt)
    && (Terminal(m.task.state) ==> n.task.state == m.task.state && n.outputs == m.outputs)
  }

  ghost predicate Evolves(p: Pool, q: Pool) {
    && p.nodes.Keys <= q.nodes.Keys
    && forall x :: x in p.nodes ==> NodeEvolves(p.nodes[x], q.nodes[x])
  }

  lemma EvolvesTransitive(p: Pool, q: Pool, r: Pool)
    requires Evolves(p, q) && Evolves(q, r)
    ensures Evolves(p, r)
  {
  }

  /** No step shrinks the distance between a counter and the dependencies that are really missing. */
  ghost predicate KeepsSurplus(p: Pool, q: Pool)
    requires p.nodes.Keys <= q.nodes.Keys
  {
    forall x, k: nat :: x in p.nodes && Surplus(p, x, k) ==> Surplus(q, x, k)
  }

  ghost predicate Advances(p: Pool, q: Pool) {
    Evolves(p, q) && KeepsSurplus(p, q)
  }

  lemma AdvancesSelf(p: Pool)
    ensures Advances(p, p)
  {
  }

  lemma AdvancesTransitive(p: Pool, q: Pool, r: Pool)
    requires Advances(p, q) && Advances(q, r)
    ensures Advances(p, r)
  {
    hide Surplus;
    EvolvesTransitive(p, q, r);
    forall x, k: nat | x in p.nodes && Surplus(p, x, k) ensures Surplus(r, x, k) {
      assert Surplus(q, x, k);
    }
  }

  lemma SurplusCounts(p: Pool, q: Pool)
    requires q.nodes.Keys == p.nodes.Keys && KeepsSurplus(p, q) && CountOk(p)
    ensures CountOk(q)
  {
  }

  ghost predicate SameTasks(p: Pool, q: Pool) {
    Evolves(p, q) && q.nodes.Keys == p.nodes.Keys && q.succs == p.succs
  }

  /** Only the task id changes, and the index sets follow it. */
  ghost predicate Replaces(p: Pool, q: Pool, id: Id) {
    && id in p.nodes && id in q.nodes
    && q.nodes == p.nodes[id := q.nodes[id]] && q.succs == p.succs
    && q.ready == (if q.nodes[id].task.state == Ready then p.ready + {id} else p.ready - {id})
    && q.running == (if q.nodes[id].running then p.running + {id} else p.running - {id})
    && NodeEvolves(p.nodes[id], q.nodes[id])
  }

  lemma NodeEvolvesSelf(n: Node)
    ensures NodeEvolves(n, n)
  {
  }

  lemma ReplacesBasics(c: Config, p: Pool, q: Pool, id: Id)
    requires NodesOk(c, p) && IndexOk(p) && Replaces(p, q, id) && NodeOk(c, id, q.nodes[id])
    ensures NodesOk(c, q) && IndexOk(q) && SameTasks(p, q)
    ensures forall x :: x in p.nodes && x != id ==> q.nodes[x] == p.nodes[x]
    ensures q.nodes[id].running == p.nodes[id].running ==> q.running == p.running
  {
    hide NodeOk, NodeEvolves;
    forall x | x in p.nodes ensures NodeEvolves(p.nodes[x], q.nodes[x]) {
      if x != id { NodeEvolvesSelf(p.nodes[x]); }
    }
  }

  lemma GraphKept(p: Pool, q: Pool, log: seq<Job>, stale: set<Id>)
    requires LogOk(p, log) && EdgesOk(p, stale) && ForwardOk(p, log)
    requires SameTasks(p, q)
    ensures LogOk(q, log) && EdgesOk(q, stale) && ForwardOk(q, log)
  {
  }

  /** One task changes without becoming terminal and without touching its counter. */
  ghost predicate Local(p: Pool, q: Pool, id: Id) {
    && Replaces(p, q, id)
    && (Terminal(p.nodes[id].task.state) || !Terminal(q.nodes[id].task.state))
    && Slack(q.nodes[id]) == Slack(p.nodes[id])
  }

  lemma LocalKeepsCounts(p: Pool, q: Pool, id: Id)
    requires Local(p, q, id)
    ensures KeepsSurplus(p, q)
    ensures Exact(p) ==> Exact(q)
    ensures Closed(p) ==> Closed(q)
  {
    hide Missing, Slack;
    assert DoneSet(q.nodes) == DoneSet(p.nodes);
    assert forall d :: BadNode(q, d) ==> BadNode(p, d);
    forall x, k: nat | x in p.nodes
      ensures Surplus(p, x, k) ==> Surplus(q, x, k)
      ensures Counted(p, x) ==> Counted(q, x)
    {
    }
  }

  lemma UseKept(c: Config, p: Pool, q: Pool, log: seq<Job>)
    requires UseOk(c, p, log) && q.inUse == p.inUse && q.running == p.running
    ensures UseOk(c, q, log)
  {
  }

  lemma LocalKeepsCore(c: Config, p: Pool, q: Pool, id: Id, log: seq<Job>, stale: set<Id>)
    requires Core(c, p, log, stale) && Local(p, q, id) && NodeOk(c, id, q.nodes[id]) && UseOk(c, q, log)
    ensures Core(c, q, log, stale) && Advances(p, q)
    ensures Exact(p) ==> Exact(q)
  {
    hide NodesOk, IndexOk, UseOk, LogOk, EdgesOk, ForwardOk, CountOk, Exact, Closed, Evolves, KeepsSurplus;
    ReplacesBasics(c, p, q, id);
    LocalKeepsCounts(p, q, id);
    SurplusCounts(p, q);
    GraphKept(p, q, log, stale);
  }

  // ---- A task goes bad and its descendants are cut off ----

  /** q is p with the unfinished task id turned Failed or Canceled. */
  ghost predicate GoesBad(p: Pool, q: Pool, id: Id) {
    && Replaces(p, q, id)
    && p.nodes[id].task.state != Succeeded && BadNode(q, id)
    && (q.nodes[id].task.state == Canceled || !Waiting(p.nodes[id].task))
  }

  lemma CutNodeShape(c: Config, id: Id, n: Node, cut: bool, now: nat)
    requires NodeOk(c, id, n) && (cut ==> !Terminal(n.task.state))
    ensures
      var m := if cut then CutNode(n, now) else n;
      && NodeOk(c, id, m) && NodeEvolves(n, m) && m.running == n.running
      && (cut ==> m.task.state == Canceled)
  {
  }

  lemma CutAllShape(c: Config, p: Pool, S: set<Id>, now: nat)
    requires NodesOk(c, p) && IndexOk(p)
    requires forall x :: x in S ==> x in p.nodes && !Terminal(p.nodes[x].task.state)
    ensures
      var q := CutAll(p, S, now);
      && NodesOk(c, q) && IndexOk(q) && SameTasks(p, q)
      && DoneSet(q.nodes) == DoneSet(p.nodes)
      && (forall x :: x in p.nodes ==> if x in S then q.nodes[x].task.state == Canceled else q.nodes[x] == p.nodes[x])
  {
    hide NodeOk, NodeEvolves, CutNode;
    var q := CutAll(p, S, now);
    forall x | x in p.nodes
      ensures NodeOk(c, x, q.nodes[x]) && NodeEvolves(p.nodes[x], q.nodes[x])
      ensures q.nodes[x].running == p.nodes[x].running && (x in S ==> q.nodes[x].task.state == Canceled)
    {
      CutNodeShape(c, x, p.nodes[x], x in S, now);
    }
    assert DoneSet(q.nodes) == DoneSet(p.nodes);
  }

  lemma CutKeepsSlack(p: Pool, q: Pool, id: Id, r: Pool, x: Id)
    requires GoesBad(p, q, id) && SameTasks(q, r) && x in p.nodes && r.nodes[x].task.state != Canceled
    requires r.nodes[x] == q.nodes[x]
    requires Slack(q.nodes[id]) == Slack(p.nodes[id]) || q.nodes[id].task.state == Canceled
    ensures p.nodes[x].task.state != Canceled && Slack(r.nodes[x]) == Slack(p.nodes[x])
    ensures r.nodes[x].task.deps == p.nodes[x].task.deps
  {
    hide Slack, Below;
  }

  /** Cutting tasks off leaves every surviving counter right. */
  lemma CutCounts(c: Config, p: Pool, q: Pool, id: Id, r: Pool)
    requires GoesBad(p, q, id) && SameTasks(q, r) && DoneSet(r.nodes) == DoneSet(q.nodes)
    requires forall x :: x in q.nodes && r.nodes[x].task.state != Canceled ==> r.nodes[x] == q.nodes[x]
    requires Slack(q.nodes[id]) == Slack(p.nodes[id]) || q.nodes[id].task.state == Canceled
    ensures KeepsSurplus(p, r)
    ensures Exact(p) ==> Exact(r)
  {
    hide Missing, Slack, Below, NodeEvolves;
    assert DoneSet(r.nodes) == DoneSet(p.nodes);
    assert r.nodes.Keys == p.nodes.Keys;
    hide DoneSet;
    forall x | x in p.nodes && r.nodes[x].task.state != Canceled
      ensures p.nodes[x].task.state != Canceled && Slack(r.nodes[x]) == Slack(p.nodes[x])
      ensures r.nodes[x].task.deps == p.nodes[x].task.deps
    {
      CutKeepsSlack(p, q, id, r, x);
    }
    hide GoesBad, SameTasks;
  }

  /** Only a waiting task can have a dependency that is not done. */
  lemma DependentWaits(p: Pool, x: Id, d: Id)
    requires CountOk(p) && x in p.nodes && p.nodes[x].task.state != Canceled
    requires d in p.nodes[x].task.deps && !Has(p, d, Succeeded)
    ensures Waiting(p.nodes[x].task)
  {
    assert Surplus(p, x, 0);
    MissingZero(DoneSet(p.nodes), p.nodes[x].task.deps);
  }

  lemma DependencyEdge(p: Pool, stale: set<Id>, x: Id, d: Id)
    requires EdgesOk(p, stale) && x in p.nodes && p.nodes[x].task.state != Canceled
    requires d in p.nodes[x].task.deps
    ensures x in Succ(p.succs, d)
  {
    assert Edge(p.succs, d, x) > 0;
  }

  lemma CutReaches(p: Pool, q: Pool, id: Id, stale: set<Id>, x: Id, d: Id)
    requires GoesBad(p, q, id) && CountOk(p) && EdgesOk(p, stale)
    requires x in p.nodes && p.nodes[x].task.state != Canceled && d in p.nodes[x].task.deps && !Has(p, d, Succeeded)
    requires d == id || Cut(q, id, d)
    ensures q.nodes[x].task.state == Canceled || Cut(q, id, x)
  {
    DependentWaits(p, x, d);
    DependencyEdge(p, stale, x, d);
    if d == id {
      BelowDirect(q.succs, id, x);
    } else {
      BelowStep(q.succs, id, d, x);
    }
  }

  lemma CutCloses(p: Pool, q: Pool, id: Id, stale: set<Id>, r: Pool)
    requires GoesBad(p, q, id) && CountOk(p) && Closed(p) && EdgesOk(p, stale) && SameTasks(q, r)
    requires forall x :: x in q.nodes ==>
      if Cut(q, id, x) then r.nodes[x].task.state == Canceled else r.nodes[x] == q.nodes[x]
    ensures Closed(r)
  {
    forall x, d | x in r.nodes && d in r.nodes[x].task.deps && BadNode(r, d) && p.nodes[x].task.state != Canceled
      ensures r.nodes[x].task.state == Canceled
    {
      hide EdgesOk, CountOk;
      assert d == id || Cut(q, id, d) by { assert !BadNode(p, d); }
      CutReaches(p, q, id, stale, x, d);
    }
  }

  lemma GoBadKeepsCore(c: Config, p: Pool, q: Pool, id: Id, log: seq<Job>, stale: set<Id>, now: nat)
    requires Core(c, p, log, stale) && GoesBad(p, q, id)
    requires NodeOk(c, id, q.nodes[id]) && UseOk(c, q, log)
    requires Slack(q.nodes[id]) == Slack(p.nodes[id]) || q.nodes[id].task.state == Canceled
    ensures Core(c, Propagate(q, id, now), log, stale)
    ensures SameTasks(p, Propagate(q, id, now)) && Advances(p, Propagate(q, id, now))
    ensures Exact(p) ==> Exact(Propagate(q, id, now))
  {
    hide NodesOk, IndexOk, UseOk, LogOk, EdgesOk, ForwardOk, CountOk, Exact, Closed, Evolves, KeepsSurplus;
    var r := Propagate(q, id, now);
    ReplacesBasics(c, p, q, id);
    CutAllShape(c, q, CutSet(q, id), now);
    EvolvesTransitive(p, q, r);
    GraphKept(p, r, log, stale);
    CutCounts(c, p, q, id, r);
    SurplusCounts(p, r);
    CutCloses(p, q, id, stale, r);
    UseKept(c, q, r, log);
  }

  // ---- A task succeeds and its successors are woken ----

  ghost predicate GoesDone(p: Pool, q: Pool, id: Id) {
    && Replaces(p, q, id)
    && Executing(p.nodes[id].task) && q.nodes[id].task.state == Succeeded
  }

  lemma WakeNodeShape(c: Config, id: Id, n: Node, m: nat, now: nat)
    requires NodeOk(c, id, n)
    ensures NodeOk(c, id, WakeNode(n, m, now)) && NodeEvolves(n, WakeNode(n, m, now))
    ensures Terminal(WakeNode(n, m, now).task.state) <==> Terminal(n.task.state)
    ensures WakeNode(n, m, now).running == n.running
    ensures WakeNode(n, m, now).task.state == Ready <==>
      n.task.state == Ready || WakeNode(n, m, now).task.state != n.task.state
  {
  }

  lemma WakeShape(c: Config, p: Pool, list: seq<Id>, now: nat)
    requires NodesOk(c, p) && IndexOk(p)
    ensures NodesOk(c, Wake(p, list, now)) && IndexOk(Wake(p, list, now)) && SameTasks(p, Wake(p, list, now))
    ensures DoneSet(Wake(p, list, now).nodes) == DoneSet(p.nodes)
    ensures forall x :: x in p.nodes ==> Bad(Wake(p, list, now).nodes[x].task.state) == Bad(p.nodes[x].task.state)
  {
    hide NodeOk, NodeEvolves, WakeNode;
    var q := Wake(p, list, now);
    forall x | x in p.nodes
      ensures NodeOk(c, x, q.nodes[x]) && NodeEvolves(p.nodes[x], q.nodes[x])
      ensures Terminal(q.nodes[x].task.state) <==> Terminal(p.nodes[x].task.state)
      ensures q.nodes[x].running == p.nodes[x].running
      ensures q.nodes[x].task.state == Ready <==>
        p.nodes[x].task.state == Ready || q.nodes[x].task.state != p.nodes[x].task.state
    {
      WakeNodeShape(c, x, p.nodes[x], multiset(list)[x], now);
    }
    assert DoneSet(q.nodes) == DoneSet(p.nodes);
  }

  lemma WakeSlack(n: Node, m: nat, missing: nat, now: nat)
    requires m <= missing <= Slack(n) && (Waiting(n.task) ==> n.unmet > 0)
    ensures Slack(WakeNode(n, m, now)) >= Slack(n) - m
    ensures Slack(n) == missing ==>
      (Slack(WakeNode(n, m, now)) == missing - m <==> !(m > 0 && n.task.state == Paused && Waiting(n.task)))
  {
  }

  lemma GoesDoneSet(p: Pool, q: Pool, id: Id)
    requires GoesDone(p, q, id)
    ensures id !in DoneSet(p.nodes) && DoneSet(q.nodes) == DoneSet(p.nodes) + {id}
  {
  }

  lemma EdgeCount(p: Pool, stale: set<Id>, d: Id, x: Id)
    requires EdgesOk(p, stale) && x in p.nodes && p.nodes[x].task.state != Canceled
    ensures Edge(p.succs, d, x) == multiset(p.nodes[x].task.deps)[d]
    ensures Edge(p.succs, d, x) > 0 <==> x in Succ(p.succs, d)
  {
  }

  /** One success and the counter of one task that is not Canceled. */
  lemma WakeOne(p: Pool, r: Pool, id: Id, n: Node, x: Id, now: nat)
    requires x in p.nodes && x in r.nodes && p.nodes[x].task.state != Canceled
    requires Surplus(p, x, 0) && (Waiting(p.nodes[x].task) ==> p.nodes[x].unmet > 0)
    requires id !in DoneSet(p.nodes) && DoneSet(r.nodes) == DoneSet(p.nodes) + {id}
    requires Edge(p.succs, id, x) == multiset(p.nodes[x].task.deps)[id]
    requires Edge(p.succs, id, x) > 0 <==> x in Succ(p.succs, id)
    requires n.task.deps == p.nodes[x].task.deps && Slack(n) == Slack(p.nodes[x])
    requires Waiting(n.task) ==> n == p.nodes[x]
    requires Waiting(p.nodes[x].task) ==> n == p.nodes[x]
    requires r.nodes[x] == WakeNode(n, Edge(p.succs, id, x), now)
    ensures forall k: nat :: Surplus(p, x, k) ==> Surplus(r, x, k)
    ensures Counted(p, x) ==> (Counted(r, x) <==> !Skipped(p, id, x))
  {
    MissingDone(DoneSet(p.nodes), p.nodes[x].task.deps, id);
    WakeSlack(n, Edge(p.succs, id, x), Missing(DoneSet(p.nodes), p.nodes[x].task.deps), now);
  }

  /** The wakeup for id passes over a task that is paused while queued. */
  ghost predicate Skipped(p: Pool, id: Id, x: Id) {
    x in Succ(p.succs, id) && Has(p, x, Paused) && Waiting(p.nodes[x].task)
  }

  ghost predicate NoneSkipped(p: Pool, id: Id) {
    forall x :: x in p.nodes ==> !Skipped(p, id, x)
  }

  lemma WakeAt(c: Config, p: Pool, q: Pool, id: Id, stale: set<Id>, r: Pool, x: Id, now: nat)
    requires GoesDone(p, q, id) && EdgesOk(p, stale) && x in p.nodes && x in r.nodes
    requires NodeOk(c, x, p.nodes[x]) && Surplus(p, x, 0) && DoneSet(r.nodes) == DoneSet(q.nodes)
    requires r.nodes[x] == WakeNode(q.nodes[x], Edge(q.succs, id, x), now)
    ensures forall k: nat :: Surplus(p, x, k) ==> Surplus(r, x, k)
    ensures Counted(p, x) ==> (Counted(r, x) <==> !Skipped(p, id, x))
  {
    hide EdgesOk, Missing;
    if p.nodes[x].task.state != Canceled {
      GoesDoneSet(p, q, id);
      EdgeCount(p, stale, id, x);
      WakeOne(p, r, id, q.nodes[x], x, now);
    }
  }

  lemma WakeCounts(c: Config, p: Pool, q: Pool, id: Id, stale: set<Id>, r: Pool, now: nat)
    requires NodesOk(c, p) && GoesDone(p, q, id) && EdgesOk(p, stale) && CountOk(p)
    requires r.nodes.Keys == q.nodes.Keys && DoneSet(r.nodes) == DoneSet(q.nodes)
    requires forall x :: x in q.nodes ==> r.nodes[x] == WakeNode(q.nodes[x], Edge(q.succs, id, x), now)
    ensures KeepsSurplus(p, r)
    ensures Exact(p) ==> (Exact(r) <==> NoneSkipped(p, id))
  {
    forall x | x in p.nodes
      ensures forall k: nat :: Surplus(p, x, k) ==> Surplus(r, x, k)
      ensures Counted(p, x) ==> (Counted(r, x) <==> !Skipped(p, id, x))
    {
      WakeAt(c, p, q, id, stale, r, x, now);
    }
  }

  lemma WakeCloses(p: Pool, q: Pool, id: Id, r: Pool)
    requires GoesDone(p, q, id) && Closed(p) && SameTasks(q, r)
    requires forall x :: x in q.nodes ==> Bad(r.nodes[x].task.state) == Bad(q.nodes[x].task.state)
    ensures Closed(r)
  {
    forall x, d | x in r.nodes && d in r.nodes[x].task.deps && BadNode(r, d)
      ensures r.nodes[x].task.state == Canceled
    {
      assert BadNode(p, d);
      assert p.nodes[x].task.state == Canceled;
    }
  }

  lemma GoDoneKeepsCore(c: Config, p: Pool, q: Pool, id: Id, log: seq<Job>, stale: set<Id>, now: nat)
    requires Core(c, p, log, stale) && GoesDone(p, q, id)
    requires NodeOk(c, id, q.nodes[id]) && UseOk(c, q, log)
    ensures Core(c, Wake(q, Succ(q.succs, id), now), log, stale)
    ensures SameTasks(p, Wake(q, Succ(q.succs, id), now)) && Advances(p, Wake(q, Succ(q.succs, id), now))
    ensures Exact(p) ==> (Exact(Wake(q, Succ(q.succs, id), now)) <==> NoneSkipped(p, id))
  {
    hide NodesOk, IndexOk, UseOk, LogOk, EdgesOk, ForwardOk, CountOk, Exact, Closed, Evolves, KeepsSurplus;
    var r := Wake(q, Succ(q.succs, id), now);
    ReplacesBasics(c, p, q, id);
    WakeShape(c, q, Succ(q.succs, id), now);
    EvolvesTransitive(p, q, r);
    GraphKept(p, r, log, stale);
    WakeCounts(c, p, q, id, stale, r, now);
    SurplusCounts(p, r);
    WakeCloses(p, q, id, r);
    UseKept(c, q, r, log);
  }
}
