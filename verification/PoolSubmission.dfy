/** Which submissions are accepted. */
module PoolSubmission {
  import opened Tasks
  import opened Graphs
  import opened Evaluation
  import opened PoolModel
  import opened PoolInvariants
  import opened PoolRuns
  import opened Workload

  ghost predicate PassesChecks(c: Config, p: Pool, t0: Task, stage: Option<Stage>) {
    var t := Admitted(t0);
    && stage.Some? && t.id != "" && t.id !in p.nodes && t.demand.cpu <= c.cpuHard
    && !CreatesCycle(p.succs, t.id, t.deps)
  }

  /** Some unknown dependency comes before every Failed or Canceled one. */
  ghost predicate UnknownFirst(p: Pool, deps: seq<Id>) {
    exists i :: 0 <= i < |deps| && deps[i] !in p.nodes && forall j :: 0 <= j < i ==> !BadNode(p, deps[j])
  }

  /**
   The design asks that every dependency exist at submission. A submission that passes the other checks is rejected
   exactly if an unknown dependency comes before all Failed and Canceled ones: behind one, it goes unnoticed.
   */
  lemma MissingDependencyRejectedIff(c: Config, p: Pool, t0: Task, stage: Option<Stage>, now: nat)
    requires Initial(t0) && PassesChecks(c, p, t0, stage)
    ensures Submit(c, p, t0, stage, now).1.Err? <==> UnknownFirst(p, t0.deps)
    ensures Submit(c, p, t0, stage, now).1.Ok? ==> t0.id in Submit(c, p, t0, stage, now).0.nodes
  {
    hide CreatesCycle, Missing, PushEdges;
    var k := StopAt(p.nodes, t0.id, t0.deps);
    if t0.id in t0.deps {
      CycleOfSelf(p.succs, t0.id, t0.deps);
      assert false;
    }
    if k < |t0.deps| && t0.deps[k] !in p.nodes {
      assert UnknownFirst(p, t0.deps);
    }
    if UnknownFirst(p, t0.deps) {
      UnknownFirstStops(p, t0.id, t0.deps);
    }
  }

  lemma UnknownFirstStops(p: Pool, id: Id, deps: seq<Id>)
    requires UnknownFirst(p, deps)
    ensures
      var k := StopAt(p.nodes, id, deps);
      k < |deps| && (deps[k] !in p.nodes || deps[k] == id)
  {
    var i :| 0 <= i < |deps| && deps[i] !in p.nodes && forall j :: 0 <= j < i ==> !BadNode(p, deps[j]);
    assert Stops(p.nodes, id, deps[i]);
    assert StopAt(p.nodes, id, deps) <= i;
  }

  /** A self-dependency is reported as a cycle; the check for it inside the dependency loop is never reached. */
  lemma CycleOfSelf(g: Graph, id: Id, deps: seq<Id>)
    requires id in deps
    ensures CreatesCycle(g, id, deps)
  {
    ReachSelf(g, id);
  }

  /** The dependencies over which a submission has pushed edges when it stops. */
  ghost function Pushed(c: Config, p: Pool, t: Task, stage: Option<Stage>): seq<Id> {
    if PassesChecks(c, p, t, stage) then t.deps[..StopAt(p.nodes, t.id, t.deps)] else []
  }

  /**
   A submission of an id without left-over edges is accepted exactly if it has a stage and a new, non-empty id, its CPU
   demand fits, it does not depend on itself, and no unknown dependency comes before all Failed and Canceled ones.
   */
  lemma SubmitAcceptedIff(c: Config, y: System, t: Task, stage: Option<Stage>, now: nat)
    requires Inv(c, y) && Initial(t) && t.id !in y.stale
    ensures Submit(c, y.pool, t, stage, now).1.Ok? <==>
      && stage.Some? && t.id != "" && t.id !in y.pool.nodes && Admitted(t).demand.cpu <= c.cpuHard
      && t.id !in t.deps && !UnknownFirst(y.pool, t.deps)
  {
    hide NodesOk, IndexOk, UseOk, LogOk, ForwardOk, CountOk, Closed, EdgesOk, UnknownFirst;
    if t.id !in y.pool.nodes { FreshCycle(y.pool, y.stale, t.id, t.deps); }
    if PassesChecks(c, y.pool, t, stage) {
      MissingDependencyRejectedIff(c, y.pool, t, stage, now);
    }
    hide CreatesCycle, Missing, PushEdges;
  }

  // ---- The accepted jobs of a whole run ----

  /** The submit calls of a run, in order. */
  function CallsOf(es: seq<Event>): seq<Call> {
    if es == [] then []
    else
      var calls, step := CallsOf(es[..|es| - 1]), es[|es| - 1].step;
      if step.DoSubmit? then calls + [Call(step.task, step.stage)] else calls
  }

  lemma KnownCannotStop(p: Pool, deps: seq<Id>)
    requires forall d :: d in deps ==> d in p.nodes
    ensures !UnknownFirst(p, deps)
  {
  }

  lemma StepAdmits(c: Config, y: System, e: Event, z: System)
    requires Inv(c, y) && Next(c, y, e, z)
    requires e.step.DoSubmit? ==> forall d :: d in e.step.task.deps ==> d in Ids(y.log)
    ensures z.log ==
      if e.step.DoSubmit? && Admissible(c.cpuHard, y.log, Call(e.step.task, e.step.stage))
      then y.log + [CallJob(Call(e.step.task, e.step.stage))] else y.log
  {
    hide Submit, Core, Pause, Resume, Cancel, Finalize, Checkpoint, Dispatch, IsPick;
    match e.step
    case DoSubmit(t, stage) =>
      LogKeys(c, y);
      KnownCannotStop(y.pool, t.deps);
      SubmitAcceptedIff(c, y, t, stage, e.now);
      SelfUnknown(y, t);
    case _ =>
  }

  lemma SelfUnknown(y: System, t: Task)
    requires forall d :: d in t.deps ==> d in Ids(y.log)
    ensures t.id !in Ids(y.log) ==> t.id !in t.deps
  {
  }

  lemma LogKeys(c: Config, y: System)
    requires Inv(c, y)
    ensures Ids(y.log) == y.pool.nodes.Keys
  {
  }

  /**
   If every submit call of a run names accepted dependencies only, the jobs that were accepted follow from the calls and
   the CPU budget alone.
   */
  lemma {:induction false} AcceptedByCalls(c: Config, ss: seq<System>, es: seq<Event>, i: nat)
    requires Normal(c) && IsRun(c, ss, es) && i < |ss| && KnownDeps(c.cpuHard, CallsOf(es[..i]))
    ensures ss[i].log == AdmitAll(c.cpuHard, CallsOf(es[..i]))
  {
    hide Inv, Next, Admissible, CallJob;
    if i > 0 {
      var e, calls := es[i - 1], CallsOf(es[..i]);
      assert es[..i][..i - 1] == es[..i - 1];
      if e.step.DoSubmit? {
        KnownDepsFront(c.cpuHard, calls);
        assert calls[..|calls| - 1] == CallsOf(es[..i - 1]);
        assert calls[|calls| - 1] == Call(e.step.task, e.step.stage);
      }
      AcceptedByCalls(c, ss, es, i - 1);
      RunKeepsInv(c, ss, es, i - 1);
      assert Next(c, ss[i - 1], e, ss[i - 1 + 1]);
      StepAdmits(c, ss[i - 1], e, ss[i]);
    }
  }
}
