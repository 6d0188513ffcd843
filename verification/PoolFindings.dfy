/** Where the pool does less than its design document says, with the exact conditions. */
module PoolFindings {
  import opened Tasks
  import opened Graphs
  import opened Evaluation
  import opened PoolModel
  import opened PoolInvariants
  import opened PoolRuns
  import opened PoolEffects
  import opened PoolLiveness
  import opened PoolPause
  import opened PoolReuse
  import opened PoolSubmission

  // ---- Edges left behind by rejected submissions ----

  /** The edges into a newly queued task are its dependencies exactly if no edge led to its id before. */
  lemma QueuedEdgesExactIff(c: Config, p: Pool, t0: Task, stage: Option<Stage>, now: nat)
    requires Initial(t0)
    requires Submit(c, p, t0, stage, now).1.Ok? && !Has(Submit(c, p, t0, stage, now).0, t0.id, Canceled)
    ensures
      (forall d :: Edge(Submit(c, p, t0, stage, now).0.succs, d, t0.id) == multiset(t0.deps)[d]) <==>
      (forall d :: t0.id !in Succ(p.succs, d))
  {
    hide CreatesCycle, Missing, PushEdges, Submit, Edge;
    SubmitCases(c, p, t0, stage, now);
    PushEdgesEffect(p.succs, t0.deps, t0.id);
    forall d ensures t0.id in Succ(p.succs, d) <==> Edge(p.succs, d, t0.id) > 0 {
      EdgePositive(p.succs, d, t0.id);
    }
  }

  lemma EdgePositive(g: Graph, d: Id, x: Id)
    ensures x in Succ(g, d) <==> Edge(g, d, x) > 0
  {
  }

  const TINY := Config(1, 1, 0, 0, 500, 1, 1500)

  function Plain(id: Id, priority: int, deps: seq<Id>): Task {
    Task(id, Queued, priority, Demand(1, 0, 0), deps, None, None, None, None, None)
  }

  lemma NoCycle(g: Graph, id: Id, deps: seq<Id>)
    requires forall d :: d in deps ==> d != id && Succ(g, d) == []
    ensures !CreatesCycle(g, id, deps)
  {
    forall d | d in deps ensures !Reach(g, d, id) {
      if Reach(g, d, id) {
        ReachStays(g, iset{d}, d, id);
        assert false;
      }
    }
  }

  /** The pool after accepting a task without dependencies. */
  function WithReady(p: Pool, t: Task, now: nat): Pool {
    p.(nodes := p.nodes[t.id := NewNode(Transition(Admitted(t), Ready, now), 0, 0, now)], ready := p.ready + {t.id})
  }

  lemma SubmitRoot(p: Pool, id: Id, priority: int, now: nat)
    requires id != "" && id !in p.nodes
    ensures Submit(TINY, p, Plain(id, priority, []), Some(0), now) == (WithReady(p, Plain(id, priority, []), now), Ok)
  {
    var t := Plain(id, priority, []);
    NoCycle(p.succs, id, []);
    assert StopAt(p.nodes, id, []) == 0;
    assert t.deps[..0] == [];
  }

  /** The pool after accepting a task that waits for d. */
  function WithChild(p: Pool, t: Task, d: Id, now: nat): Pool {
    p.(nodes := p.nodes[t.id := NewNode(Admitted(t), 0, 1, now)], succs := p.succs[d := Succ(p.succs, d) + [t.id]])
  }

  lemma SubmitChild(p: Pool, id: Id, d: Id, now: nat)
    requires id != "" && id !in p.nodes && Has(p, d, Ready) && Succ(p.succs, d) == []
    ensures Submit(TINY, p, Plain(id, 0, [d]), Some(0), now) == (WithChild(p, Plain(id, 0, [d]), d, now), Ok)
  {
    var t := Plain(id, 0, [d]);
    NoCycle(p.succs, id, [d]);
    assert !Stops(p.nodes, id, d);
    assert StopAt(p.nodes, id, [d][1..]) == 0;
    assert StopAt(p.nodes, id, [d]) == 1;
    assert t.deps[..1] == [d] && [d][..0] == [];
    assert Missing(DoneSet(p.nodes), [d][..0]) == 0;
    assert Missing(DoneSet(p.nodes), [d]) == 1;
    assert PushEdges(p.succs, [d][..0], id) == p.succs;
  }

  lemma SubmitRejected(p: Pool, id: Id, d: Id, unknown: Id, now: nat)
    requires id != "" && id !in p.nodes && Has(p, d, Ready) && Succ(p.succs, d) == []
    requires unknown !in p.nodes && unknown != id && Succ(p.succs, unknown) == []
    ensures Submit(TINY, p, Plain(id, 0, [d, unknown]), Some(0), now) ==
      (p.(succs := p.succs[d := Succ(p.succs, d) + [id]]), Err(INTERNAL_ERROR))
  {
    var t := Plain(id, 0, [d, unknown]);
    NoCycle(p.succs, id, [d, unknown]);
    assert !Stops(p.nodes, id, d) && Stops(p.nodes, id, unknown);
    assert [d, unknown][1..] == [unknown];
    assert StopAt(p.nodes, id, [unknown]) == 0;
    assert StopAt(p.nodes, id, [d, unknown]) == 1;
    assert t.deps[..1] == [d] && [d][..0] == [];
    assert PushEdges(p.succs, [d][..0], id) == p.succs;
  }

  /** a and b are Ready; the first submission of x was rejected and left an edge; the second waits for b only. */
  function StaleScene(): Pool {
    var p := WithReady(WithReady(EMPTY_POOL, Plain("a", 1, []), 0), Plain("b", 0, []), 0);
    WithChild(p.(succs := map["a" := ["x"]]), Plain("x", 0, ["b"]), "b", 0)
  }

  lemma StaleSceneArises()
    ensures
      var p0 := EMPTY_POOL;
      var (p1, r1) := Submit(TINY, p0, Plain("a", 1, []), Some(0), 0);
      var (p2, r2) := Submit(TINY, p1, Plain("b", 0, []), Some(0), 0);
      var (p3, r3) := Submit(TINY, p2, Plain("x", 0, ["a", "m"]), Some(0), 0);
      var (p4, r4) := Submit(TINY, p3, Plain("x", 0, ["b"]), Some(0), 0);
      r1 == Ok && r2 == Ok && r3.Err? && r4 == Ok && p4 == StaleScene()
  {
    hide Submit;
    var p1 := WithReady(EMPTY_POOL, Plain("a", 1, []), 0);
    var p2 := WithReady(p1, Plain("b", 0, []), 0);
    SubmitRoot(EMPTY_POOL, "a", 1, 0);
    SubmitRoot(p1, "b", 0, 0);
    SubmitRejected(p2, "x", "a", "m", 0);
    SubmitChild(p2.(succs := map["a" := ["x"]]), "x", "b", 0);
    assert p2.succs == map[] && Succ(p2.succs, "a") + ["x"] == ["x"];
  }

  /** After the rejection of x with dependencies a and m. */
  function RetryScene(): Pool {
    WithReady(WithReady(EMPTY_POOL, Plain("a", 1, []), 0), Plain("b", 0, []), 0).(succs := map["a" := ["x"]])
  }

  lemma RetryLooksLikeCycle(t: Task, now: nat)
    requires t.id == "x" && "a" in t.deps
    ensures Submit(TINY, RetryScene(), t, Some(0), now).1.Err?
    ensures Submit(TINY, WithReady(RetryScene(), Plain("m", 0, []), now), t, Some(0), now).1.Err?
  {
    var p := RetryScene();
    ReachSelf(p.succs, "a");
    CycleIff(p.succs, "x", t.deps);
    hide CreatesCycle, Missing, PushEdges;
  }

  /**
   The client submits x with dependencies a and m and is told that m is missing. It submits m and then x once more, as
   it was or without m: both are rejected as a cycle, although no edge leads on from x.
   */
  lemma RetryIsRejected()
    ensures
      var p0 := WithReady(WithReady(EMPTY_POOL, Plain("a", 1, []), 0), Plain("b", 0, []), 0);
      var (p1, r1) := Submit(TINY, p0, Plain("x", 0, ["a", "m"]), Some(0), 0);
      var (p2, r2) := Submit(TINY, p1, Plain("m", 0, []), Some(0), 0);
      && r1.Err? && r2.Ok? && Succ(p2.succs, "x") == []
      && Submit(TINY, p1, Plain("x", 0, ["a"]), Some(0), 0).1.Err?
      && Submit(TINY, p2, Plain("x", 0, ["a"]), Some(0), 0).1.Err?
      && Submit(TINY, p2, Plain("x", 0, ["a", "m"]), Some(0), 0).1.Err?
  {
    hide Submit;
    var p0 := WithReady(WithReady(EMPTY_POOL, Plain("a", 1, []), 0), Plain("b", 0, []), 0);
    SubmitRejected(p0, "x", "a", "m", 0);
    assert Succ(p0.succs, "a") + ["x"] == ["x"] && p0.succs["a" := ["x"]] == map["a" := ["x"]];
    SubmitRoot(RetryScene(), "m", 0, 0);
    RetryLooksLikeCycle(Plain("x", 0, ["a"]), 0);
    RetryLooksLikeCycle(Plain("x", 0, ["a", "m"]), 0);
  }

  lemma OnlyCandidates(p: Pool)
    requires p.inUse == Demand(0, 0, 0)
    requires forall x :: x in p.ready ==> Has(p, x, Ready) && p.nodes[x].task.demand == Demand(1, 0, 0)
    ensures Candidates(TINY, p, true) == p.ready && Candidates(TINY, p, false) == {}
  {
  }

  lemma StaleSceneFacts()
    ensures
      var p := StaleScene();
      && p.ready == {"a", "b"} && p.running == {} && p.inUse == Demand(0, 0, 0)
      && p.nodes.Keys == {"a", "b", "x"} && Has(p, "a", Ready) && Has(p, "b", Ready) && Has(p, "x", Queued)
      && p.nodes["a"].task.demand == Demand(1, 0, 0) && p.nodes["b"].task.demand == Demand(1, 0, 0)
      && p.nodes["a"].task.priority == 1 && p.nodes["b"].task.priority == 0
      && p.nodes["a"].since == 0 && p.nodes["b"].since == 0
      && p.nodes["x"].unmet == 1 && p.nodes["x"].task.deps == ["b"]
      && Succ(p.succs, "a") == ["x"]
  {
  }

  lemma PickFirst(p: Pool, a: Id, b: Id)
    requires p.ready == {a, b} && p.inUse == Demand(0, 0, 0) && Has(p, a, Ready) && Has(p, b, Ready)
    requires p.nodes[a].task.demand == Demand(1, 0, 0) && p.nodes[b].task.demand == Demand(1, 0, 0)
    requires p.nodes[a].task.priority > p.nodes[b].task.priority && p.nodes[a].since == p.nodes[b].since == 0
    ensures IsPick(TINY, p, 0, Some(a))
  {
    hide Candidates, Better;
    OnlyCandidates(p);
    BetterByPriority(p, a, b);
  }

  lemma BetterByPriority(p: Pool, a: Id, b: Id)
    requires a in p.nodes && b in p.nodes
    requires p.nodes[a].task.priority > p.nodes[b].task.priority && p.nodes[a].since == p.nodes[b].since == 0
    ensures Better(TINY, p, 0, a, b)
  {
    hide Less;
  }

  /** The last counted success wakes a Queued task. */
  lemma WokenBy(p: Pool, a: Id, x: Id)
    requires Has(p, a, Running) && Has(p, x, Queued) && p.nodes[x].unmet == 1 && Succ(p.succs, a) == [x]
    ensures
      var q := Finalize(p, a, Success(map[]), 0);
      && Has(q, x, Ready) && q.nodes[x].task.deps == p.nodes[x].task.deps
      && forall y :: y in p.nodes && y != a && y != x ==> y in q.nodes && q.nodes[y] == p.nodes[y]
  {
    hide Finalize;
    SuccessEffect(p, a, map[], 0, x);
    assert Edge(p.succs, a, x) == 1;
    forall y | y in p.nodes && y != a && y != x
      ensures y in Finalize(p, a, Success(map[]), 0).nodes && Finalize(p, a, Success(map[]), 0).nodes[y] == p.nodes[y]
    {
      SuccessEffect(p, a, map[], 0, y);
      assert Edge(p.succs, a, y) == 0;
    }
  }

  /**
   Resubmitting an id whose first submission was rejected breaks dependency safety: when a, on which x does not
   depend, succeeds, x becomes Ready although its only dependency b has not even been dispatched.
   */
  lemma StaleEdgeWakesTooEarly()
    ensures
      var p := StaleScene();
      && IsPick(TINY, p, 0, Some("a")) && "a" in p.nodes
      && var q := Finalize(Dispatch(p, "a", 0), "a", Success(map[]), 0);
         Has(q, "x", Ready) && q.nodes["x"].task.deps == ["b"] && Has(q, "b", Ready)
  {
    hide StaleScene, Finalize, IsPick, Dispatch;
    var p := StaleScene();
    StaleSceneFacts();
    PickFirst(p, "a", "b");
    EarlyWake(p, "a", "b", "x");
  }

  lemma EarlyWake(p: Pool, a: Id, b: Id, x: Id)
    requires Has(p, a, Ready) && Has(p, b, Ready) && a != b
    requires Has(p, x, Queued) && p.nodes[x].unmet == 1 && Succ(p.succs, a) == [x]
    ensures
      var q := Finalize(Dispatch(p, a, 0), a, Success(map[]), 0);
      Has(q, x, Ready) && q.nodes[x].task.deps == p.nodes[x].task.deps && Has(q, b, Ready)
  {
    hide Finalize;
    WokenBy(Dispatch(p, a, 0), a, x);
  }

  // ---- A wakeup lost to a pause ----

  function Pool1(): Pool { WithReady(EMPTY_POOL, Plain("a", 0, []), 0) }

  function Pool2(): Pool { WithChild(Pool1(), Plain("x", 0, ["a"]), "a", 0) }

  function Pool3(): Pool { Pause(TINY, Pool2(), "x", 0).0 }

  function Pool4(): Pool
  {
    Pool3Facts();
    Dispatch(Pool3(), "a", 0)
  }

  ghost function Pool5(): Pool { Finalize(Pool4(), "a", Success(map[]), 0) }

  ghost function Pool6(): Pool { Resume(Pool5(), "x", 0).0 }

  lemma Pool3Facts()
    ensures
      var p := Pool3();
      && p.nodes.Keys == {"a", "x"} && p.ready == {"a"} && p.running == {} && p.inUse == Demand(0, 0, 0)
      && Has(p, "a", Ready) && p.nodes["a"].task.demand == Demand(1, 0, 0)
      && Has(p, "x", Paused) && p.nodes["x"].task.pausedFrom == Some(Queued) && p.nodes["x"].unmet == 1
      && p.nodes["x"].task.deps == ["a"] && Succ(p.succs, "a") == ["x"]
  {
  }

  lemma Pool6Facts()
    ensures
      var p := Pool6();
      && p.ready == {} && Has(p, "a", Succeeded) && Has(p, "x", Queued) && p.nodes["x"].task.deps == ["a"]
      && p.nodes.Keys == {"a", "x"}
  {
    hide Pool3, Finalize;
    Pool3Facts();
    SkipsPaused(Pool4(), "a", "x");
  }

  lemma SkipsPaused(p: Pool, a: Id, x: Id)
    requires Has(p, a, Running) && Has(p, x, Paused) && p.nodes[x].task.pausedFrom == Some(Queued)
    requires p.nodes.Keys == {a, x} && p.ready == {}
    ensures
      var q := Finalize(p, a, Success(map[]), 0);
      q.nodes.Keys == {a, x} && q.ready == {} && Has(q, a, Succeeded) && q.nodes[x] == p.nodes[x]
  {
    hide Finalize;
    SuccessEffect(p, a, map[], 0, x);
    SuccessEffect(p, a, map[], 0, a);
    var r := SuccessForm(p, a, map[], 0);
  }

  ghost function LostRun(): (seq<System>, seq<Event>) {
    var jobA, jobX := Job("a", [], 0, Demand(1, 0, 0)), Job("x", ["a"], 0, Demand(1, 0, 0));
    Pool3Facts();
    var held := map["a" := InputsFor(Pool3(), "a")];
    ([START,
      System(Pool1(), [jobA], {}, 0, map[]),
      System(Pool2(), [jobA, jobX], {}, 0, map[]),
      System(Pool3(), [jobA, jobX], {}, 0, map[]),
      System(Pool4(), [jobA, jobX], {}, 0, held),
      System(Pool5(), [jobA, jobX], {}, 0, map[]),
      System(Pool6(), [jobA, jobX], {}, 0, map[])],
     [Event(DoSubmit(Plain("a", 0, []), Some(0)), 0),
      Event(DoSubmit(Plain("x", 0, ["a"]), Some(0)), 0),
      Event(DoPause("x"), 0),
      Event(DoDispatch("a"), 0),
      Event(DoFinalize("a", Success(map[])), 0),
      Event(DoResume("x"), 0)])
  }

  lemma PickOnly(p: Pool, a: Id)
    requires p.ready == {a} && p.inUse == Demand(0, 0, 0)
    requires Has(p, a, Ready) && p.nodes[a].task.demand == Demand(1, 0, 0)
    ensures IsPick(TINY, p, 0, Some(a))
  {
    hide Candidates, Better;
    OnlyCandidates(p);
  }

  lemma LostRunSubmits()
    ensures
      var (ss, es) := LostRun();
      |ss| == 7 && |es| == 6 && Next(TINY, ss[0], es[0], ss[1]) && Next(TINY, ss[1], es[1], ss[2])
  {
    hide Submit, Pool3, Pool4, Pool5, Pool6;
    SubmitRoot(EMPTY_POOL, "a", 0, 0);
    SubmitChild(Pool1(), "x", "a", 0);
    assert [Job("a", [], 0, Demand(1, 0, 0))] + [Job("x", ["a"], 0, Demand(1, 0, 0))] ==
      [Job("a", [], 0, Demand(1, 0, 0)), Job("x", ["a"], 0, Demand(1, 0, 0))];
  }

  lemma LostRunPauses()
    ensures
      var (ss, es) := LostRun();
      |ss| == 7 && |es| == 6 && Next(TINY, ss[2], es[2], ss[3]) && Next(TINY, ss[3], es[3], ss[4])
  {
    hide Pool2, Pool5, Pool6, IsPick, Dispatch, Pause;
    Pool3Facts();
    assert IsPick(TINY, Pool3(), 0, Some("a")) by { hide Pool3; PickOnly(Pool3(), "a"); }
    assert map["a" := InputsFor(Pool3(), "a")] == map[]["a" := InputsFor(Pool3(), "a")];
  }

  lemma LostRunReturns()
    ensures
      var (ss, es) := LostRun();
      |ss| == 7 && |es| == 6 && Next(TINY, ss[4], es[4], ss[5])
  {
    hide Pool1, Pool2, Pool3, Pool6, Finalize, InputsFor;
    Pool3Facts();
    assert Has(Pool4(), "a", Running);
    assert map["a" := InputsFor(Pool3(), "a")] - {"a"} == map[];
  }

  lemma LostRunResumes()
    ensures
      var (ss, es) := LostRun();
      |ss| == 7 && |es| == 6 && Next(TINY, ss[5], es[5], ss[6])
  {
    hide Pool1, Pool2, Pool3, Pool4, Pool5, Resume;
  }

  /**
   The design says that resume restores a task. Here is a run that ends with x Queued, its only dependency Succeeded,
   nobody paused, and nothing the workers can do, now or at any later time.
   */
  lemma PauseCanStrandATask()
    ensures
      var (ss, es) := LostRun();
      && IsRun(TINY, ss, es) && Normal(TINY)
      && var y := ss[|es|];
         && NonePaused(y.pool) && Has(y.pool, "x", Queued) && AllSucceeded(y.pool, y.pool.nodes["x"].task.deps)
         && Stuck(TINY, y)
  {
    hide Next, Pool1, Pool2, Pool3, Pool4, Pool5, Pool6;
    LostRunSubmits();
    LostRunPauses();
    LostRunReturns();
    LostRunResumes();
    Pool6Facts();
    var (ss, es) := LostRun();
    forall i | 0 <= i < |es| ensures Next(TINY, ss[i], es[i], ss[i + 1]) {
      if i == 0 || i == 1 {} else if i == 2 || i == 3 {} else if i == 4 {} else {}
    }
    forall e: Event, z: System | IsWork(e.step) ensures !Next(TINY, ss[6], e, z) {
      NothingToDo(ss[6], e, z);
    }
  }

  lemma NothingToDo(y: System, e: Event, z: System)
    requires y.pool.ready == {} && y.flight == map[] && IsWork(e.step)
    ensures !Next(TINY, y, e, z)
  {
    hide Finalize, Dispatch;
  }

  // ---- A missing dependency goes unnoticed ----

  /** The task a has failed. */
  ghost function FailedPool(): Pool {
    Finalize(Dispatch(Pool1(), "a", 0), "a", Failure(INTERNAL_ERROR), 0)
  }

  lemma FailedPoolFacts()
    ensures
      var p := FailedPool();
      && p.nodes.Keys == {"a"} && Has(p, "a", Failed) && Succ(p.succs, "a") == [] && Succ(p.succs, "m") == []
  {
    hide Finalize;
    FailureEffect(Dispatch(Pool1(), "a", 0), "a", Failure(INTERNAL_ERROR), 0, "a");
  }

  /**
   Whether an unknown dependency is an error depends on the schedule. While a is Ready, the submission of x with
   dependencies a and m is rejected; once a has been dispatched and has failed, the same submission is accepted.
   */
  lemma MissingDependencyUnnoticed()
    ensures Submit(TINY, EMPTY_POOL, Plain("a", 0, []), Some(0), 0) == (Pool1(), Ok)
    ensures Submit(TINY, Pool1(), Plain("x", 0, ["a", "m"]), Some(0), 0).1.Err?
    ensures IsPick(TINY, Pool1(), 0, Some("a"))
    ensures "m" !in FailedPool().nodes && Submit(TINY, FailedPool(), Plain("x", 0, ["a", "m"]), Some(0), 0).1 == Ok
  {
    var x := Plain("x", 0, ["a", "m"]);
    SubmitRoot(EMPTY_POOL, "a", 0, 0);
    SubmitRejected(Pool1(), "x", "a", "m", 0);
    PickOnly(Pool1(), "a");
    FailedPoolFacts();
    hide FailedPool, Submit;
    var p := FailedPool();
    NoCycle(p.succs, "x", x.deps);
    assert BadNode(p, x.deps[0]);
    MissingDependencyRejectedIff(TINY, p, x, Some(0), 0);
  }

  // ---- A pause that took effect and timed out nevertheless ----

  function RunningPool(): Pool { Dispatch(Pool1(), "a", 0) }

  function AskedPool(): Pool { Pause(TINY, RunningPool(), "a", 0).0 }

  function HeldPool(): Pool { Checkpoint(AskedPool(), "a", 0) }

  function ResumedPool(): Pool { Resume(HeldPool(), "a", 0).0 }

  ghost function LateRun(): (seq<System>, seq<Event>) {
    var jobA := Job("a", [], 0, Demand(1, 0, 0));
    var held := map["a" := InputsFor(Pool1(), "a")];
    ([START,
      System(Pool1(), [jobA], {}, 0, map[]),
      System(RunningPool(), [jobA], {}, 0, held),
      System(AskedPool(), [jobA], {}, 0, held),
      System(HeldPool(), [jobA], {}, 0, held),
      System(ResumedPool(), [jobA], {}, 0, held)],
     [Event(DoSubmit(Plain("a", 0, []), Some(0)), 0),
      Event(DoDispatch("a"), 0),
      Event(DoPause("a"), 0),
      Event(DoCheckpoint("a"), 0),
      Event(DoResume("a"), 0)])
  }

  lemma LateRunStarts()
    ensures
      var (ss, es) := LateRun();
      |ss| == 6 && |es| == 5 && Next(TINY, ss[0], es[0], ss[1]) && Next(TINY, ss[1], es[1], ss[2])
  {
    hide Submit, IsPick, AskedPool, HeldPool, ResumedPool;
    SubmitRoot(EMPTY_POOL, "a", 0, 0);
    assert IsPick(TINY, Pool1(), 0, Some("a")) by { PickOnly(Pool1(), "a"); }
    assert map["a" := InputsFor(Pool1(), "a")] == map[]["a" := InputsFor(Pool1(), "a")];
  }

  lemma LateRunPauses()
    ensures
      var (ss, es) := LateRun();
      && |ss| == 6 && |es| == 5 && Next(TINY, ss[2], es[2], ss[3]) && Next(TINY, ss[3], es[3], ss[4])
      && Next(TINY, ss[4], es[4], ss[5])
  {
    hide InputsFor, IsPick;
  }

  lemma LateFacts()
    ensures
      && Has(RunningPool(), "a", Running) && Has(HeldPool(), "a", Paused)
      && Has(ResumedPool(), "a", Running) && Resume(HeldPool(), "a", 0).1 == Ok
  {
  }

  /**
   The design says that a pause fails if the task reaches no checkpoint in time. Here is a run in which the task does
   reach its checkpoint and is held, and is then resumed before the caller of pause looks. The caller finds the pause
   not over and cancels the task, whenever it does so.
   */
  lemma ResumeDefeatsPause(now: nat)
    ensures
      var (ss, es) := LateRun();
      && IsRun(TINY, ss, es) && Normal(TINY) && |ss| == 6
      && Requests(ss, es, 2, "a") && Has(ss[4].pool, "a", Paused) && Resumes(ss, es, 4, "a")
      && !PauseOver(ss[5].pool, "a") && Has(Cancel(ss[5].pool, "a", now).0, "a", Canceled)
  {
    LateRunStarts();
    LateRunPauses();
    LateFacts();
    hide Next, RunningPool, AskedPool, HeldPool, ResumedPool, Cancel, Resume;
    var (ss, es) := LateRun();
    forall i | 0 <= i < |es| ensures Next(TINY, ss[i], es[i], ss[i + 1]) {
      if i <= 1 { if i == 0 {} else {} } else if i == 2 {} else if i == 3 {} else {}
    }
    TimedOutPauseFinishes(TINY, ss, es, 5, 5, "a", now);
  }
}
