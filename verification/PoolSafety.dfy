/** What holds in every state of every run of the pool. */
module PoolSafety {
  import opened Tasks
  import opened Graphs
  import opened Evaluation
  import opened PoolModel
  import opened PoolInvariants
  import opened PoolRuns
  import opened PoolEffects

  /** A task that is past waiting and not Canceled has all its dependencies Succeeded, pauses and resumes included. */
  lemma DependencySafety(c: Config, ss: seq<System>, es: seq<Event>, i: nat, x: Id)
    requires Normal(c) && IsRun(c, ss, es) && i < |ss| && x in ss[i].pool.nodes
    ensures
      var n := ss[i].pool.nodes[x];
      n.task.state != Canceled && !Waiting(n.task) ==> forall d :: d in n.task.deps ==> Has(ss[i].pool, d, Succeeded)
    ensures
      var n := ss[i].pool.nodes[x];
      n.task.state != Canceled && Waiting(n.task) ==> n.unmet >= Missing(DoneSet(ss[i].pool.nodes), n.task.deps)
  {
    RunKeepsInv(c, ss, es, i);
    var p := ss[i].pool;
    assert Surplus(p, x, 0);
    MissingZero(DoneSet(p.nodes), p.nodes[x].task.deps);
  }

  lemma BadStateCloses(c: Config, y: System, d: Id, x: Id)
    requires Inv(c, y) && BadNode(y.pool, d) && Below(y.pool.succs, d, x) && x in y.pool.nodes
    ensures y.pool.nodes[x].task.state == Canceled
  {
    var p := y.pool;
    var S := iset v | v in p.nodes ==> p.nodes[v].task.state == Canceled;
    forall v, w | (v == d || v in S) && w in Succ(p.succs, v) ensures w in S {
      if w in p.nodes {
        assert v in p.nodes && BadNode(p, v) && v in p.nodes[w].task.deps;
      }
    }
    BelowStays(p.succs, S, d, x);
  }

  /** Every accepted task below a Failed or Canceled one is Canceled, however late it was submitted. */
  lemma CancellationClosure(c: Config, ss: seq<System>, es: seq<Event>, i: nat, d: Id, x: Id)
    requires Normal(c) && IsRun(c, ss, es) && i < |ss|
    requires BadNode(ss[i].pool, d) && x in ss[i].pool.nodes
    requires Below(ss[i].pool.succs, d, x) || d in ss[i].pool.nodes[x].task.deps
    ensures ss[i].pool.nodes[x].task.state == Canceled
  {
    hide IsRun;
    RunKeepsInv(c, ss, es, i);
    if Below(ss[i].pool.succs, d, x) {
      BadStateCloses(c, ss[i], d, x);
    }
  }

  /** Resources in use are the demands of the tasks whose running flag is set; CPU stays within its hard limit. */
  lemma ResourceConservation(c: Config, ss: seq<System>, es: seq<Event>, i: nat)
    requires Normal(c) && IsRun(c, ss, es) && i < |ss|
    ensures
      var y := ss[i];
      && y.pool.inUse == Held(y.pool.running, y.log)
      && (forall k :: 0 <= k < |y.log| ==> y.log[k].id in y.pool.nodes && JobOf(y.pool.nodes[y.log[k].id]) == y.log[k])
      && Distinct(y.log) && y.pool.nodes.Keys == Ids(y.log)
      && |y.pool.running| <= y.pool.inUse.cpu <= c.cpuHard
  {
    hide IsRun;
    RunKeepsInv(c, ss, es, i);
    UseBounds(c, ss[i].pool, ss[i].log, ss[i].pool.running);
  }

  /** The release at the end of an execution gives back exactly what the dispatch took. */
  lemma ReleaseNeverClamps(c: Config, ss: seq<System>, es: seq<Event>, i: nat, id: Id)
    requires Normal(c) && IsRun(c, ss, es) && i < |ss| && id in ss[i].pool.running
    ensures id in ss[i].pool.nodes
    ensures Plus(Returned(ss[i].pool, id).inUse, ss[i].pool.nodes[id].task.demand) == ss[i].pool.inUse
  {
    hide IsRun;
    RunKeepsInv(c, ss, es, i);
    ReleaseExact(c, ss[i].pool, ss[i].log, id);
  }

  /** Over a soft limit exactly one task runs, and no second task is admitted beside it. */
  lemma SoftEscapeIsExclusive(c: Config, ss: seq<System>, es: seq<Event>, i: nat, now: nat)
    requires Normal(c) && IsRun(c, ss, es) && i < |ss|
    requires !WithinSoft(c, ss[i].pool.inUse)
    ensures |ss[i].pool.running| == 1
    ensures forall r :: IsPick(c, ss[i].pool, now, r) <==> r == None
  {
    hide IsRun;
    RunKeepsInv(c, ss, es, i);
    var p := ss[i].pool;
    if p.running == {} { HeldNone(ss[i].log); }
    forall id | id in p.ready && Runnable(c, p, id) ensures !FitsSoft(c, p, p.nodes[id].task.demand) {
      CoreAt(c, p, ss[i].log, ss[i].stale, id);
    }
    assert Candidates(c, p, true) == {};
  }

  /** The index sets say what the tasks say, and the bookkeeping of every task fits its state. */
  lemma IndexConsistency(c: Config, ss: seq<System>, es: seq<Event>, i: nat, x: Id)
    requires Normal(c) && IsRun(c, ss, es) && i < |ss|
    ensures
      var p := ss[i].pool;
      && (x in p.ready <==> Has(p, x, Ready))
      && (x in p.running <==> x in p.nodes && p.nodes[x].running)
      && (x in p.running <==> x in ss[i].flight)
      && (x in p.nodes ==> Lifecycle(p.nodes[x].task))
      && (x in p.running ==> Executing(p.nodes[x].task) || Has(p, x, Canceled))
      && (x in p.nodes && Executing(p.nodes[x].task) ==> x in p.running)
  {
    hide IsRun;
    RunKeepsInv(c, ss, es, i);
  }

  /** A stage never returns into a paused task, so Finalize never falls through to its illegal transitions. */
  lemma ReturnFindsRunningOrCanceled(c: Config, ss: seq<System>, es: seq<Event>, i: nat)
    requires Normal(c) && IsRun(c, ss, es) && i < |es| && es[i].step.DoFinalize?
    ensures Has(ss[i].pool, es[i].step.id, Running) || Has(ss[i].pool, es[i].step.id, Canceled)
  {
    RunKeepsInv(c, ss, es, i);
    assert Next(c, ss[i], es[i], ss[i + 1]);
    FlightState(c, ss[i], es[i].step.id);
  }

  /** A terminal task never changes its state or outputs again. */
  lemma TerminalIsAbsorbing(c: Config, ss: seq<System>, es: seq<Event>, i: nat, j: nat, x: Id)
    requires Normal(c) && IsRun(c, ss, es) && i <= j < |ss|
    requires x in ss[i].pool.nodes && Terminal(ss[i].pool.nodes[x].task.state)
    ensures x in ss[j].pool.nodes
    ensures ss[j].pool.nodes[x].task.state == ss[i].pool.nodes[x].task.state
    ensures ss[j].pool.nodes[x].outputs == ss[i].pool.nodes[x].outputs
  {
    RunKeepsInv(c, ss, es, i);
    TraceKeepsInv(c, ss, es, i, j);
  }

  /** No task is dispatched twice. */
  lemma DispatchedAtMostOnce(c: Config, ss: seq<System>, es: seq<Event>, i: nat, j: nat)
    requires Normal(c) && IsRun(c, ss, es) && i < j < |es|
    requires es[i].step.DoDispatch? && es[j].step.DoDispatch?
    ensures es[i].step.id != es[j].step.id
  {
    hide Inv, Dispatch, IsPick;
    RunKeepsInv(c, ss, es, i);
    RunKeepsInv(c, ss, es, j);
    assert Next(c, ss[i], es[i], ss[i + 1]) && Next(c, ss[j], es[j], ss[j + 1]);
    DispatchKeepsInv(c, ss[i], es[i].step.id, es[i].now);
    DispatchKeepsInv(c, ss[j], es[j].step.id, es[j].now);
    RunKeepsInv(c, ss, es, i + 1);
    TraceKeepsInv(c, ss, es, i + 1, j);
  }

  lemma BelowIsLater(c: Config, y: System, i: nat, b: Id) returns (j: nat)
    requires Inv(c, y) && i < |y.log| && Below(y.pool.succs, y.log[i].id, b) && b in y.pool.nodes
    ensures i < j < |y.log| && y.log[j].id == b
  {
    hide NodesOk, IndexOk, UseOk, CountOk, Closed, Below;
    var p, log := y.pool, y.log;
    var S := iset v | v in p.nodes ==> exists k :: i < k < |log| && log[k].id == v;
    forall v, w | (v == log[i].id || v in S) && w in Succ(p.succs, v) ensures w in S {
      if w in p.nodes {
        assert v in p.nodes;
        var k :| i <= k < |log| && log[k].id == v;
        var m := IndexInLog(p, log, w);
        assert log[m].id in Succ(p.succs, log[k].id);
      }
    }
    BelowStays(p.succs, S, log[i].id, b);
    j :| i < j < |log| && log[j].id == b;
  }

  /** The edges between accepted tasks never form a cycle: they follow the submission order. */
  lemma AlwaysAcyclic(c: Config, ss: seq<System>, es: seq<Event>, i: nat, a: Id)
    requires Normal(c) && IsRun(c, ss, es) && i < |ss| && a in ss[i].pool.nodes
    ensures !Below(ss[i].pool.succs, a, a)
    ensures ForwardOk(ss[i].pool, ss[i].log)
  {
    hide IsRun;
    RunKeepsInv(c, ss, es, i);
    var y := ss[i];
    if Below(y.pool.succs, a, a) {
      var k := IndexInLog(y.pool, y.log, a);
      var m := BelowIsLater(c, y, k, a);
    }
  }

  /** Resume of a paused task always succeeds and takes it back to the state it was paused in. */
  lemma ResumeRestores(c: Config, ss: seq<System>, es: seq<Event>, i: nat, id: Id, now: nat)
    requires Normal(c) && IsRun(c, ss, es) && i < |ss|
    ensures
      var (q, r) := Resume(ss[i].pool, id, now);
      && (r == Ok <==> Has(ss[i].pool, id, Paused))
      && (r == Ok ==>
            && id in q.nodes && ss[i].pool.nodes[id].task.pausedFrom == Some(q.nodes[id].task.state)
            && q.nodes[id].task.state in {Queued, Ready, Running}
            && (q.nodes[id].task.state == Running <==> q.nodes[id].running)
            && q.nodes[id].unmet == ss[i].pool.nodes[id].unmet)
      && (r != Ok ==> q == ss[i].pool)
  {
    hide IsRun;
    RunKeepsInv(c, ss, es, i);
    if Has(ss[i].pool, id, Paused) {
      CoreAt(c, ss[i].pool, ss[i].log, ss[i].stale, id);
    }
  }

  // ---- A canceled stage can see that it is canceled ----

  /** Cancellation was requested on the token of every Canceled task whose stage has not returned. */
  ghost predicate Told(p: Pool) {
    forall x :: x in p.nodes && p.nodes[x].running && p.nodes[x].task.state == Canceled ==>
      p.nodes[x].task.token.Some? && p.nodes[x].task.token.value in p.tokens
  }

  lemma PropagateTells(p: Pool, root: Id, now: nat)
    requires Told(p) && forall x :: x in p.nodes ==> p.nodes[x].task.token.Some?
    ensures Told(Propagate(p, root, now))
  {
    hide CutSet;
  }

  lemma CanceledTells(p: Pool, q: Pool, id: Id, now: nat)
    requires Told(p) && id in p.nodes && p.nodes[id].task.token.Some?
    requires q.nodes == p.nodes[id := CanceledNode(p.nodes[id], now)] &&
      q.tokens == p.tokens + {p.nodes[id].task.token.value}
    ensures Told(q)
  {
    assert CanceledNode(p.nodes[id], now).task.token == p.nodes[id].task.token;
    hide CanceledNode;
  }

  lemma CancelTells(c: Config, y: System, id: Id, now: nat)
    requires Inv(c, y) && Told(y.pool)
    ensures Told(Cancel(y.pool, id, now).0)
  {
    TokensGiven(c, y);
    hide Inv, Propagate, Told, CanceledNode;
    var p := y.pool;
    if id in p.nodes {
      var n := p.nodes[id];
      var q := RequestCancel(p, id).(
        nodes := p.nodes[id := CanceledNode(n, now)],
        ready := if n.task.state == Ready then p.ready - {id} else p.ready);
      CanceledTells(p, q, id, now);
      forall x | x in q.nodes ensures q.nodes[x].task.token.Some? {
        TokenStays(n, now);
      }
      PropagateTells(q, id, now);
    }
  }

  lemma TokenStays(n: Node, now: nat)
    ensures CanceledNode(n, now).task.token == n.task.token
  {
  }

  lemma TokensGiven(c: Config, y: System)
    requires Inv(c, y)
    ensures forall x :: x in y.pool.nodes ==> y.pool.nodes[x].task.token.Some?
  {
  }

  lemma FinalizeTells(c: Config, y: System, id: Id, outcome: Outcome, now: nat)
    requires Inv(c, y) && Told(y.pool) && id in y.flight && !Has(y.pool, id, Paused)
    ensures Told(Finalize(y.pool, id, outcome, now))
  {
    hide Propagate, Wake, Finalize, Inv;
    var p := y.pool;
    FlightState(c, y, id);
    TokensGiven(c, y);
    if EndsBadly(p, id, outcome) {
      var q := FailureForm(p, id, outcome, now);
      PropagateTells(q, id, now);
    } else {
      var q := SuccessForm(p, id, outcome.outputs, now);
      WakeTells(q, Succ(p.succs, id), now);
    }
  }

  lemma WakeTells(p: Pool, list: seq<Id>, now: nat)
    requires Told(p)
    ensures Told(Wake(p, list, now))
  {
  }

  lemma SubmitTells(c: Config, p: Pool, t: Task, stage: Option<Stage>, now: nat)
    requires Told(p) && Initial(t)
    ensures Told(Submit(c, p, t, stage, now).0)
  {
    hide Missing, CreatesCycle, PushEdges;
    var q := Submit(c, p, t, stage, now).0;
    assert q.tokens == p.tokens && forall x :: x in q.nodes ==>
      (x in p.nodes && q.nodes[x] == p.nodes[x]) || !q.nodes[x].running;
  }

  lemma ControlTells(c: Config, p: Pool, id: Id, now: nat)
    requires Told(p)
    requires Has(p, id, Paused) ==> ResumeTarget(p.nodes[id].task) != Canceled
    ensures Told(Pause(c, p, id, now).0) && Told(Resume(p, id, now).0) && Told(Checkpoint(p, id, now))
    ensures Has(p, id, Ready) ==> Told(Dispatch(p, id, now))
  {
  }

  lemma ResumeTargetOk(c: Config, y: System, id: Id)
    requires Inv(c, y) && Has(y.pool, id, Paused)
    ensures ResumeTarget(y.pool.nodes[id].task) != Canceled
  {
    CoreAt(c, y.pool, y.log, y.stale, id);
  }

  lemma NobodyTold()
    ensures Told(EMPTY_POOL)
  {
  }

  lemma StepTells(c: Config, y: System, e: Event, z: System)
    requires Inv(c, y) && Next(c, y, e, z) && Told(y.pool)
    ensures Told(z.pool)
  {
    hide Inv, Told, Cancel, Finalize, Submit, IsPick, Pause, Resume, Dispatch, Checkpoint;
    match e.step
    case DoSubmit(t, stage) => SubmitTells(c, y.pool, t, stage, e.now);
    case DoCancel(id) => CancelTells(c, y, id, e.now);
    case DoFinalize(id, outcome) => FinalizeTells(c, y, id, outcome, e.now);
    case _ =>
      var id := e.step.id;
      if Has(y.pool, id, Paused) { ResumeTargetOk(c, y, id); }
      if e.step.DoDispatch? { PickFits(c, y.pool, e.now, id); }
      ControlTells(c, y.pool, id, e.now);
  }

  /** Whichever way a task is canceled while its stage executes, the stage can see it on its token. */
  lemma {:induction false} CancellationIsVisible(c: Config, ss: seq<System>, es: seq<Event>, i: nat)
    requires Normal(c) && IsRun(c, ss, es) && i < |ss|
    ensures Told(ss[i].pool)
  {
    hide Inv, Next, Told;
    if i == 0 {
      NobodyTold();
    } else {
      CancellationIsVisible(c, ss, es, i - 1);
      RunKeepsInv(c, ss, es, i - 1);
      assert Next(c, ss[i - 1], es[i - 1], ss[i - 1 + 1]);
      StepTells(c, ss[i - 1], es[i - 1], ss[i]);
    }
  }
}
