/** What clients submitted, and the resources the running tasks hold in terms of it. */
module PoolBudget {
  import opened Tasks
  import opened Graphs
  import opened Evaluation
  import opened PoolModel
  import opened PoolInvariants
  import opened PoolRuns
  import opened PoolSafety

  // ---- The accepted submissions of a run ----

  /** The descriptors the clients handed in with the first i steps, as far as they were accepted, in order. */
  ghost function Taken(c: Config, ss: seq<System>, es: seq<Event>, i: nat): seq<Task>
    requires |ss| == |es| + 1 && i <= |es|
  {
    if i == 0 then []
    else
      var ts, step := Taken(c, ss, es, i - 1), es[i - 1].step;
      if step.DoSubmit? && Submit(c, ss[i - 1].pool, step.task, step.stage, es[i - 1].now).1.Ok?
      then ts + [step.task] else ts
  }

  function CpuOf(t: Task): int {
    if t.demand.cpu > 0 then t.demand.cpu else 1
  }

  function RamOf(t: Task): int {
    if t.demand.ram > 0 then t.demand.ram else 0
  }

  function VramOf(t: Task): int {
    if t.demand.vram > 0 then t.demand.vram else 0
  }

  /** The stored task is the submitted one; its state and the bookkeeping that goes with it aside. */
  ghost predicate StoredAs(n: Node, t: Task) {
    && n.task.id == t.id && n.task.deps == t.deps && n.task.priority == t.priority
    && n.task.demand.cpu == CpuOf(t) && n.task.demand.ram == RamOf(t) && n.task.demand.vram == VramOf(t)
    && n.task.token == if t.token.Some? then t.token else Some(Private(t.id))
  }

  /** Submission stores what was submitted: missing CPU demand counts as one slot, negative memory demand as none. */
  lemma SubmitStores(c: Config, p: Pool, t: Task, stage: Option<Stage>, now: nat)
    requires Initial(t) && Submit(c, p, t, stage, now).1.Ok?
    ensures
      var q := Submit(c, p, t, stage, now).0;
      && t.id in q.nodes && StoredAs(q.nodes[t.id], t) && stage == Some(q.nodes[t.id].stage)
      && q.nodes[t.id].since == now && q.nodes[t.id].outputs == map[]
  {
    hide CreatesCycle, Missing, PushEdges;
  }

  /** Whom the k-th accepted job is about. */
  ghost predicate Logged(job: Job, t: Task) {
    && job.id == t.id && job.deps == t.deps
    && job.demand.cpu == CpuOf(t) && job.demand.ram == RamOf(t) && job.demand.vram == VramOf(t)
  }

  ghost predicate TakenOk(y: System, ts: seq<Task>) {
    && |y.log| == |ts|
    && forall k :: 0 <= k < |ts| ==>
      Logged(y.log[k], ts[k]) && ts[k].id in y.pool.nodes && StoredAs(y.pool.nodes[ts[k].id], ts[k])
  }

  lemma StoredEvolves(m: Node, n: Node, t: Task)
    requires StoredAs(m, t) && NodeEvolves(m, n)
    ensures StoredAs(n, t)
  {
  }

  lemma TakenKept(y: System, z: System, ts: seq<Task>)
    requires TakenOk(y, ts) && Evolves(y.pool, z.pool) && |z.log| >= |y.log| && z.log[..|y.log|] == y.log
    ensures |y.log| == |ts|
    ensures forall k :: 0 <= k < |ts| ==>
      Logged(z.log[k], ts[k]) && ts[k].id in z.pool.nodes && StoredAs(z.pool.nodes[ts[k].id], ts[k])
  {
    hide StoredAs, Logged, NodeEvolves;
    forall k | 0 <= k < |ts|
      ensures Logged(z.log[k], ts[k]) && ts[k].id in z.pool.nodes && StoredAs(z.pool.nodes[ts[k].id], ts[k])
    {
      assert z.log[k] == z.log[..|y.log|][k];
      StoredEvolves(y.pool.nodes[ts[k].id], z.pool.nodes[ts[k].id], ts[k]);
    }
  }

  lemma LogOfStep(c: Config, y: System, e: Event, z: System)
    requires Next(c, y, e, z)
    ensures e.step.DoSubmit? ==> Initial(e.step.task)
    ensures
      if e.step.DoSubmit? && Submit(c, y.pool, e.step.task, e.step.stage, e.now).1.Ok? then
        && z.pool == Submit(c, y.pool, e.step.task, e.step.stage, e.now).0
        && |z.log| == |y.log| + 1 && z.log[..|y.log|] == y.log && z.log[|y.log|].id == e.step.task.id
      else z.log == y.log
  {
    hide Submit, IsPick, Cancel, Pause, Resume, Checkpoint, Finalize, Dispatch;
  }

  lemma LoggedNewest(c: Config, z: System, t: Task)
    requires Inv(c, z) && z.log != [] && z.log[|z.log| - 1].id == t.id
    requires t.id in z.pool.nodes && StoredAs(z.pool.nodes[t.id], t)
    ensures Logged(z.log[|z.log| - 1], t)
  {
    assert JobOf(z.pool.nodes[t.id]) == z.log[|z.log| - 1];
  }

  lemma {:induction false} TakenUpTo(c: Config, ss: seq<System>, es: seq<Event>, i: nat)
    requires Normal(c) && IsRun(c, ss, es) && i < |ss|
    ensures TakenOk(ss[i], Taken(c, ss, es, i))
  {
    hide Inv, Next, StoredAs, Logged, Submit, Advances;
    if i > 0 {
      var y, e, z, ts := ss[i - 1], es[i - 1], ss[i], Taken(c, ss, es, i - 1);
      TakenUpTo(c, ss, es, i - 1);
      RunKeepsInv(c, ss, es, i - 1);
      RunKeepsInv(c, ss, es, i);
      assert Next(c, y, e, ss[i - 1 + 1]);
      StepKeepsInv(c, y, e, z);
      AdvancesEvolves(y.pool, z.pool);
      LogOfStep(c, y, e, z);
      TakenKept(y, z, ts);
      if z.log != y.log {
        SubmitStores(c, y.pool, e.step.task, e.step.stage, e.now);
        LoggedNewest(c, z, e.step.task);
      }
    }
  }

  lemma AdvancesEvolves(p: Pool, q: Pool)
    requires Advances(p, q)
    ensures Evolves(p, q)
  {
  }

  /** In every state of every run each accepted task still is what its client submitted. */
  lemma StoredAsSubmitted(c: Config, ss: seq<System>, es: seq<Event>, i: nat, k: nat)
    requires Normal(c) && IsRun(c, ss, es) && i < |ss| && k < |Taken(c, ss, es, i)|
    ensures
      var t := Taken(c, ss, es, i)[k];
      t.id in ss[i].pool.nodes && StoredAs(ss[i].pool.nodes[t.id], t)
  {
    hide StoredAs, Taken;
    TakenUpTo(c, ss, es, i);
  }

  // ---- What the running tasks hold ----

  /** The sum of a demand over the running tasks. */
  function Total(ts: seq<Task>, running: set<Id>, demand: Task -> int): int {
    if ts == [] then 0
    else
      var last := ts[|ts| - 1];
      Total(ts[..|ts| - 1], running, demand) + if last.id in running then demand(last) else 0
  }

  lemma {:induction false} HeldIsTotal(log: seq<Job>, ts: seq<Task>, running: set<Id>)
    requires |log| == |ts| && forall k :: 0 <= k < |ts| ==> Logged(log[k], ts[k])
    ensures Held(running, log).cpu == Total(ts, running, CpuOf)
    ensures Held(running, log).ram == Total(ts, running, RamOf)
    ensures Held(running, log).vram == Total(ts, running, VramOf)
  {
    hide CpuOf, RamOf, VramOf;
    if log != [] { HeldIsTotal(log[..|log| - 1], ts[..|ts| - 1], running); }
  }

  /**
   In every state of every run the resources in use are, one by one, the sums of what was submitted for the tasks whose
   stages execute; CPU slots stay within the hard limit.
   */
  lemma UseIsTotal(c: Config, ss: seq<System>, es: seq<Event>, i: nat)
    requires Normal(c) && IsRun(c, ss, es) && i < |ss|
    ensures
      var p, ts := ss[i].pool, Taken(c, ss, es, i);
      && p.inUse.cpu == Total(ts, p.running, CpuOf) <= c.cpuHard
      && p.inUse.ram == Total(ts, p.running, RamOf)
      && p.inUse.vram == Total(ts, p.running, VramOf)
  {
    hide Next, Held, Total, StoredAs, Logged, Taken;
    TakenUpTo(c, ss, es, i);
    ResourceConservation(c, ss, es, i);
    HeldIsTotal(ss[i].log, Taken(c, ss, es, i), ss[i].pool.running);
  }

  /**
   The memory budgets over submitted demands: within the enabled limits, or a single task holds resources, and then
   nothing is dispatched beside it.
   */
  lemma MemoryWithinOrAlone(c: Config, ss: seq<System>, es: seq<Event>, i: nat)
    requires Normal(c) && IsRun(c, ss, es) && i < |ss|
    requires
      var running, ts := ss[i].pool.running, Taken(c, ss, es, i);
      || (c.ramSoft > 0 && Total(ts, running, RamOf) > c.ramSoft)
      || (c.vramSoft > 0 && Total(ts, running, VramOf) > c.vramSoft)
    ensures |ss[i].pool.running| == 1
    ensures i < |es| ==> !es[i].step.DoDispatch?
  {
    hide Inv, Total, Taken, IsPick;
    UseIsTotal(c, ss, es, i);
    SoftEscapeIsExclusive(c, ss, es, i, if i < |es| then es[i].now else 0);
    if i < |es| { assert Next(c, ss[i], es[i], ss[i + 1]); }
  }
}
