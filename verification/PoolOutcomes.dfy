/** How tasks come to be Canceled or Failed, with which error, and on which tokens cancellation is requested. */
module PoolOutcomes {
  import opened Tasks
  import opened Graphs
  import opened Evaluation
  import opened PoolModel
  import opened PoolEffects
  import opened PoolInvariants
  import opened PoolRuns

  // ---- A stage that fails ----

  /** Somebody requested cancellation on the token of the task. */
  ghost predicate TokenCanceled(p: Pool, x: Id) {
    x in p.nodes && exists k :: p.nodes[x].task.token == Some(k) && k in p.tokens
  }

  /**
   In every run, cancels and shared tokens included: a stage that fails leaves its task Canceled exactly if its error
   says so or somebody requested cancellation on the task's token, and Failed otherwise; the task keeps the stage's
   error.
   */
  lemma FailingStageIff(c: Config, ss: seq<System>, es: seq<Event>, i: nat)
    requires Normal(c) && IsRun(c, ss, es) && i < |es| && es[i].step.DoFinalize? && es[i].step.outcome.Failure?
    requires Has(ss[i].pool, es[i].step.id, Running)
    ensures
      var p, q, id, error := ss[i].pool, ss[i + 1].pool, es[i].step.id, es[i].step.outcome.error;
      && (Has(q, id, Canceled) <==> error.category == CancelError || TokenCanceled(p, id))
      && (Has(q, id, Failed) <==> !(error.category == CancelError || TokenCanceled(p, id)))
      && id in q.nodes && q.nodes[id].task.error == Some(error) && q.nodes[id].task.finishedAt == Some(es[i].now)
  {
    var p, id, error, now := ss[i].pool, es[i].step.id, es[i].step.outcome.error, es[i].now;
    assert Next(c, ss[i], es[i], ss[i + 1]);
    FailingStage(p, id, error, now);
    hide Finalize, IsPick;
  }

  lemma FailingStage(p: Pool, id: Id, error: TaskError, now: nat)
    requires Has(p, id, Running)
    ensures
      var q := Finalize(p, id, Failure(error), now);
      && id in q.nodes && q.nodes[id].task.error == Some(error) && q.nodes[id].task.finishedAt == Some(now)
      && q.nodes[id].task.state == if error.category == CancelError || TokenCanceled(p, id) then Canceled else Failed
  {
    hide Below;
  }

  /** A stage whose task was canceled meanwhile changes neither its state nor its error, whatever it returns. */
  lemma LateReturnIgnored(c: Config, ss: seq<System>, es: seq<Event>, i: nat)
    requires Normal(c) && IsRun(c, ss, es) && i < |es|
    requires es[i].step.DoFinalize? && Has(ss[i].pool, es[i].step.id, Canceled)
    ensures
      var p, q, id := ss[i].pool, ss[i + 1].pool, es[i].step.id;
      Has(q, id, Canceled) && q.nodes[id].task == p.nodes[id].task && q.nodes[id].outputs == p.nodes[id].outputs
  {
    assert Next(c, ss[i], es[i], ss[i + 1]);
    LateReturn(ss[i].pool, es[i].step.id, es[i].step.outcome, es[i].now);
    hide Finalize, IsPick;
  }

  lemma LateReturn(p: Pool, id: Id, outcome: Outcome, now: nat)
    requires Has(p, id, Canceled)
    ensures
      var q := Finalize(p, id, outcome, now);
      Has(q, id, Canceled) && q.nodes[id].task == p.nodes[id].task && q.nodes[id].outputs == p.nodes[id].outputs
  {
    hide Below;
  }

  // ---- Where cancellation requests come from ----

  /** x is canceled by the step, and not because its own stage returned. */
  ghost predicate CanceledBy(y: System, e: Event, z: System, x: Id) {
    && x in y.pool.nodes && !Terminal(y.pool.nodes[x].task.state) && Has(z.pool, x, Canceled)
    && !(e.step.DoFinalize? && e.step.id == x)
  }

  /** The client cancels the known task x. */
  ghost predicate UserCancels(y: System, e: Event, x: Id) {
    e.step == DoCancel(x) && x in y.pool.nodes
  }

  lemma PropagateTokens(p: Pool, root: Id, now: nat, k: Token)
    ensures k in Propagate(p, root, now).tokens <==>
      k in p.tokens || exists x :: Cut(p, root, x) && p.nodes[x].task.token == Some(k)
  {
    hide Cut;
    assert forall x :: Cut(p, root, x) ==> x in p.nodes by { CutInside(p, root); }
    if k in Propagate(p, root, now).tokens && k !in p.tokens {
      var x :| x in CutSet(p, root) && x in p.nodes && p.nodes[x].task.token == Some(k);
    }
  }

  lemma CutInside(p: Pool, root: Id)
    ensures forall x :: Cut(p, root, x) ==> x in p.nodes
  {
    hide Below;
  }

  /** What propagation does to one task. */
  lemma PropagateOne(p: Pool, root: Id, now: nat, x: Id)
    requires x in p.nodes
    ensures
      var q := Propagate(p, root, now);
      && x in q.nodes && (!Cut(p, root, x) ==> q.nodes[x] == p.nodes[x])
      && (Cut(p, root, x) ==>
            && Has(q, x, Canceled) && q.nodes[x].task.finishedAt == Some(now)
            && q.nodes[x].task.error == Some(TaskError(CancelError, 3004)))
  {
    hide Below;
  }

  /** The error of a task that a step cancels, and when it finished. */
  ghost predicate CanceledAs(m: Node, n: Node, byUser: bool, now: nat) {
    && n.task.finishedAt == Some(now)
    && n.task.error ==
       if !byUser then Some(TaskError(CancelError, 3004))
       else if m.task.error.None? then Some(TaskError(CancelError, 1)) else m.task.error
  }

  lemma CancelOne(p: Pool, id: Id, now: nat, x: Id)
    requires id in p.nodes && x in p.nodes
    ensures
      var q := Cancel(p, id, now).0;
      && x in q.nodes
      && (!Terminal(p.nodes[x].task.state) && Has(q, x, Canceled) ==> CanceledAs(p.nodes[x], q.nodes[x], x == id, now))
      && (x == id && !Terminal(p.nodes[x].task.state) ==> Has(q, x, Canceled))
  {
    hide Below;
  }

  lemma CancelTokensIff(p: Pool, id: Id, now: nat, k: Token)
    requires id in p.nodes
    ensures k in Cancel(p, id, now).0.tokens <==>
      || k in p.tokens
      || exists x :: x in p.nodes && p.nodes[x].task.token == Some(k) &&
           (x == id || (!Terminal(p.nodes[x].task.state) && Has(Cancel(p, id, now).0, x, Canceled)))
  {
    hide Propagate;
    var n := p.nodes[id];
    var r := RequestCancel(p, id).(
      nodes := p.nodes[id := CanceledNode(n, now)],
      ready := if n.task.state == Ready then p.ready - {id} else p.ready);
    hide CanceledNode;
    var q := Cancel(p, id, now).0;
    CalmNode(n, now);
    if Terminal(n.task.state) {
      assert forall x :: x in p.nodes && x != id ==> q.nodes[x] == p.nodes[x];
    } else {
      PropagateTokens(r, id, now, k);
      forall x | x in p.nodes && x != id
        ensures Cut(r, id, x) <==> !Terminal(p.nodes[x].task.state) && Has(q, x, Canceled)
      {
        PropagateOne(r, id, now, x);
        CutOpen(r, id, x);
      }
      CutOpen(r, id, id);
      hide Cut;
      assert forall x :: Cut(r, id, x) ==> x in r.nodes by { CutInside(r, id); }
    }
  }

  lemma CalmNode(n: Node, now: nat)
    ensures CanceledNode(n, now).task.token == n.task.token && Terminal(CanceledNode(n, now).task.state)
  {
  }

  lemma CutOpen(p: Pool, root: Id, x: Id)
    ensures Cut(p, root, x) ==> x in p.nodes && !Terminal(p.nodes[x].task.state)
  {
    hide Below;
  }

  lemma ReturnTokensIff(p: Pool, id: Id, outcome: Outcome, now: nat, k: Token)
    requires Has(p, id, Running) || Has(p, id, Canceled)
    ensures
      var q := Finalize(p, id, outcome, now);
      k in q.tokens <==>
        || k in p.tokens
        || exists x :: x in p.nodes && x != id && p.nodes[x].task.token == Some(k) &&
             !Terminal(p.nodes[x].task.state) && Has(q, x, Canceled)
  {
    hide Finalize, Propagate, Wake, SettledNode;
    var q := Finalize(p, id, outcome, now);
    if EndsBadly(p, id, outcome) {
      var r := FailureForm(p, id, outcome, now);
      PropagateTokens(r, id, now, k);
      forall x | x in p.nodes && x != id
        ensures Cut(r, id, x) <==> !Terminal(p.nodes[x].task.state) && Has(q, x, Canceled)
      {
        PropagateOne(r, id, now, x);
        CutOpen(r, id, x);
      }
      CutOpen(r, id, id);
      hide Cut;
      assert forall x :: Cut(r, id, x) ==> x in r.nodes by { CutInside(r, id); }
    } else {
      forall x | x in p.nodes && x != id ensures Has(q, x, Canceled) <==> Has(p, x, Canceled) {
        SuccessEffect(p, id, outcome.outputs, now, x);
      }
      SuccessEffect(p, id, outcome.outputs, now, id);
    }
  }

  lemma ReturnOne(p: Pool, id: Id, outcome: Outcome, now: nat, x: Id)
    requires (Has(p, id, Running) || Has(p, id, Canceled)) && x in p.nodes && x != id
    ensures
      var q := Finalize(p, id, outcome, now);
      && x in q.nodes
      && (!Terminal(p.nodes[x].task.state) && Has(q, x, Canceled) ==> CanceledAs(p.nodes[x], q.nodes[x], false, now))
  {
    hide Finalize, Propagate, SettledNode;
    if EndsBadly(p, id, outcome) {
      var r := FailureForm(p, id, outcome, now);
      PropagateOne(r, id, now, x);
    } else {
      SuccessEffect(p, id, outcome.outputs, now, x);
    }
  }

  /** Steps that neither cancel nor return cancel nobody and request nothing. */
  lemma OtherSteps(c: Config, y: System, e: Event, z: System)
    requires Inv(c, y) && Next(c, y, e, z) && !e.step.DoCancel? && !e.step.DoFinalize?
    ensures z.pool.tokens == y.pool.tokens
    ensures forall x :: x in y.pool.nodes && Has(z.pool, x, Canceled) ==> Has(y.pool, x, Canceled)
  {
    hide Core, IsPick, Submit, Pause, Resume, Checkpoint, Dispatch;
    match e.step
    case DoSubmit(t, stage) => SubmitKeepsTokens(c, y.pool, t, stage, e.now);
    case DoPause(id) => ControlKeepsTokens(c, y.pool, id, e.now);
    case DoResume(id) =>
      if Has(y.pool, id, Paused) { ResumedAlive(c, y, id); }
      ResumeKeepsTokens(y.pool, id, e.now);
    case DoDispatch(id) => PickFits(c, y.pool, e.now, id); ControlKeepsTokens(c, y.pool, id, e.now);
    case DoCheckpoint(id) => ControlKeepsTokens(c, y.pool, id, e.now);
  }

  ghost predicate CancelsNobody(p: Pool, q: Pool) {
    q.tokens == p.tokens && forall x :: x in p.nodes && Has(q, x, Canceled) ==> Has(p, x, Canceled)
  }

  lemma ControlKeepsTokens(c: Config, p: Pool, id: Id, now: nat)
    ensures CancelsNobody(p, Pause(c, p, id, now).0) && CancelsNobody(p, Checkpoint(p, id, now))
    ensures Has(p, id, Ready) ==> CancelsNobody(p, Dispatch(p, id, now))
  {
  }

  lemma ResumeKeepsTokens(p: Pool, id: Id, now: nat)
    requires Has(p, id, Paused) ==> ResumeTarget(p.nodes[id].task) != Canceled
    ensures CancelsNobody(p, Resume(p, id, now).0)
  {
  }

  lemma ResumedAlive(c: Config, y: System, id: Id)
    requires Inv(c, y) && Has(y.pool, id, Paused)
    ensures ResumeTarget(y.pool.nodes[id].task) != Canceled
  {
    CoreAt(c, y.pool, y.log, y.stale, id);
  }

  lemma SubmitKeepsTokens(c: Config, p: Pool, t: Task, stage: Option<Stage>, now: nat)
    requires Initial(t)
    ensures
      var q := Submit(c, p, t, stage, now).0;
      q.tokens == p.tokens && forall x :: x in p.nodes ==> x in q.nodes && q.nodes[x] == p.nodes[x]
  {
    hide Missing, CreatesCycle, PushEdges;
  }

  /**
   Over every run: after a step cancellation has been requested on exactly the tokens it had been requested on before,
   that of the task a client cancels, and those of the tasks that the step cancels as dependents.
   */
  lemma RequestedTokensIff(c: Config, ss: seq<System>, es: seq<Event>, i: nat, k: Token)
    requires Normal(c) && IsRun(c, ss, es) && i < |es|
    ensures
      var y, e, z := ss[i], es[i], ss[i + 1];
      k in z.pool.tokens <==>
        || k in y.pool.tokens
        || exists x :: x in y.pool.nodes && y.pool.nodes[x].task.token == Some(k) &&
             (UserCancels(y, e, x) || CanceledBy(y, e, z, x))
  {
    hide Inv, Next;
    RunKeepsInv(c, ss, es, i);
    assert Next(c, ss[i], es[i], ss[i + 1]);
    StepTokensIff(c, ss[i], es[i], ss[i + 1], k);
  }

  lemma StepTokensIff(c: Config, y: System, e: Event, z: System, k: Token)
    requires Inv(c, y) && Next(c, y, e, z)
    ensures k in z.pool.tokens <==>
      || k in y.pool.tokens
      || exists x :: x in y.pool.nodes && y.pool.nodes[x].task.token == Some(k) &&
           (UserCancels(y, e, x) || CanceledBy(y, e, z, x))
  {
    hide Inv, Cancel, Finalize, Submit, IsPick, Pause, Resume, Checkpoint, Dispatch;
    if e.step.DoCancel? {
      if e.step.id in y.pool.nodes {
        CancelTokensIff(y.pool, e.step.id, e.now, k);
      } else {
        UnknownCancel(y.pool, e.step.id, e.now);
      }
    } else if e.step.DoFinalize? {
      FlightState(c, y, e.step.id);
      ReturnTokensIff(y.pool, e.step.id, e.step.outcome, e.now, k);
    } else {
      OtherSteps(c, y, e, z);
    }
  }

  lemma UnknownCancel(p: Pool, id: Id, now: nat)
    requires id !in p.nodes
    ensures Cancel(p, id, now).0 == p
  {
  }

  /**
   A task that a step cancels as a dependent carries the error of a canceled ancestor; one canceled by its client keeps
   its error or gets that of a plain cancellation.
   */
  lemma CanceledErrors(c: Config, ss: seq<System>, es: seq<Event>, i: nat, x: Id)
    requires Normal(c) && IsRun(c, ss, es) && i < |es| && CanceledBy(ss[i], es[i], ss[i + 1], x)
    ensures CanceledAs(ss[i].pool.nodes[x], ss[i + 1].pool.nodes[x], es[i].step == DoCancel(x), es[i].now)
  {
    hide Inv, Next, CanceledAs;
    RunKeepsInv(c, ss, es, i);
    assert Next(c, ss[i], es[i], ss[i + 1]);
    StepErrors(c, ss[i], es[i], ss[i + 1], x);
  }

  lemma StepErrors(c: Config, y: System, e: Event, z: System, x: Id)
    requires Inv(c, y) && Next(c, y, e, z) && CanceledBy(y, e, z, x)
    ensures CanceledAs(y.pool.nodes[x], z.pool.nodes[x], e.step == DoCancel(x), e.now)
  {
    hide Inv, Cancel, Finalize, Submit, IsPick, Pause, Resume, Checkpoint, Dispatch, CanceledAs;
    if e.step.DoCancel? {
      if e.step.id in y.pool.nodes {
        CancelOne(y.pool, e.step.id, e.now, x);
      } else {
        UnknownCancel(y.pool, e.step.id, e.now);
      }
    } else if e.step.DoFinalize? {
      FlightState(c, y, e.step.id);
      ReturnOne(y.pool, e.step.id, e.step.outcome, e.now, x);
    } else {
      OtherSteps(c, y, e, z);
    }
  }

  // ---- Errors of submissions and controls ----

  /** A rejected submission reports a resource error exactly if CPU demand is what it first fails for. */
  lemma SubmitErrors(c: Config, p: Pool, t: Task, stage: Option<Stage>, now: nat)
    requires Initial(t) && Submit(c, p, t, stage, now).1.Err?
    ensures
      var slots := if t.demand.cpu > 0 then t.demand.cpu else 1;
      Submit(c, p, t, stage, now).1.error ==
        if stage.Some? && t.id != "" && t.id !in p.nodes && slots > c.cpuHard then TaskError(ResourceError, 3001)
        else TaskError(InternalError, 4)
  {
    hide CreatesCycle, Missing, PushEdges;
  }

  /** A task accepted behind a Failed or Canceled dependency is Canceled at once, with an error that says so. */
  lemma BlockedAtSubmit(c: Config, p: Pool, t: Task, stage: Option<Stage>, now: nat)
    requires Initial(t) && Submit(c, p, t, stage, now).1.Ok?
    ensures
      var q, blocked := Submit(c, p, t, stage, now).0, exists d :: d in t.deps && BadNode(p, d);
      && t.id in q.nodes
      && (blocked <==> Has(q, t.id, Canceled))
      && q.nodes[t.id].task.error == (if blocked then Some(TaskError(CancelError, 3002)) else t.error)
      && q.nodes[t.id].task.finishedAt == (if blocked then Some(now) else None)
  {
    var k := StopAt(p.nodes, t.id, t.deps);
    if k < |t.deps| {
      assert t.deps[k] in t.deps;
    } else {
      forall d | d in t.deps ensures !BadNode(p, d) {
        assert t.deps[..k] == t.deps;
        PassedDeps(p.nodes, t.id, t.deps, d);
      }
    }
    hide CreatesCycle, Missing, PushEdges, StopAt;
  }

  /**
   A pause is answered at once for waiting, ready and paused tasks, which then are Paused; a running task keeps running
   and its caller waits; everything else is an error and changes nothing.
   */
  lemma PauseAnswers(c: Config, p: Pool, id: Id, now: nat)
    ensures
      var (q, r) := Pause(c, p, id, now);
      && (r == PauseDone <==> Has(p, id, Queued) || Has(p, id, Ready) || Has(p, id, Paused))
      && (r.AwaitCheckpoint? <==> Has(p, id, Running))
      && (r == PauseDone ==> Has(q, id, Paused) && q.nodes[id].running == p.nodes[id].running)
      && (r.AwaitCheckpoint? ==>
            && Has(q, id, Running) && q.nodes[id].pauseRequested
            && q.nodes[id].pauseDeadline == Some(r.deadline)
            && r.deadline == now + (if c.pauseTimeoutMs > 1 then c.pauseTimeoutMs else 1) * TICKS_PER_MS)
      && (r.PauseErr? ==> q == p && r.error == TaskError(InternalError, 4))
      && forall x :: x in p.nodes && x != id ==> x in q.nodes && q.nodes[x] == p.nodes[x]
  {
  }

  /** A progress report holds the worker of a running task exactly if a pause was requested. */
  lemma CheckpointHolds(p: Pool, id: Id, now: nat)
    requires Has(p, id, Running)
    ensures
      var q := Checkpoint(p, id, now);
      && (Has(q, id, Paused) <==> p.nodes[id].pauseRequested)
      && (Has(q, id, Paused) ==> q.nodes[id].task.pausedFrom == Some(Running) && !q.nodes[id].pauseRequested)
      && (!p.nodes[id].pauseRequested ==> q == p)
  {
  }

  /** A stage that succeeds leaves its running task Succeeded with the outputs it returned. */
  lemma SucceedingStage(c: Config, ss: seq<System>, es: seq<Event>, i: nat)
    requires Normal(c) && IsRun(c, ss, es) && i < |es| && es[i].step.DoFinalize? && es[i].step.outcome.Success?
    requires Has(ss[i].pool, es[i].step.id, Running)
    ensures
      var p, q, id := ss[i].pool, ss[i + 1].pool, es[i].step.id;
      && Has(q, id, Succeeded) && q.nodes[id].outputs == es[i].step.outcome.outputs && !q.nodes[id].running
      && q.nodes[id].task.finishedAt == Some(es[i].now) && q.nodes[id].task.error == p.nodes[id].task.error
  {
    assert Next(c, ss[i], es[i], ss[i + 1]);
    SuccessEffect(ss[i].pool, es[i].step.id, es[i].step.outcome.outputs, es[i].now, es[i].step.id);
    hide Finalize, IsPick;
  }

  /** A dispatched task runs, was started now for the first time, and is not asked to pause. */
  lemma DispatchStarts(c: Config, ss: seq<System>, es: seq<Event>, i: nat)
    requires Normal(c) && IsRun(c, ss, es) && i < |es| && es[i].step.DoDispatch?
    ensures
      var p, q, id := ss[i].pool, ss[i + 1].pool, es[i].step.id;
      && Has(p, id, Ready) && p.nodes[id].task.startedAt.None?
      && Has(q, id, Running) && q.nodes[id].running && !q.nodes[id].pauseRequested
      && q.nodes[id].task.startedAt == Some(es[i].now)
      && forall x :: x in p.nodes && x != id ==> x in q.nodes && q.nodes[x] == p.nodes[x]
  {
    hide Inv, IsPick;
    RunKeepsInv(c, ss, es, i);
    assert Next(c, ss[i], es[i], ss[i + 1]);
    DispatchKeepsInv(c, ss[i], es[i].step.id, es[i].now);
  }

  /** Cancel succeeds exactly on known tasks; it leaves the task finished and no longer asked to pause. */
  lemma CancelAnswers(p: Pool, id: Id, now: nat)
    ensures
      var (q, r) := Cancel(p, id, now);
      && (r == Ok <==> id in p.nodes)
      && (r.Err? ==> q == p && r.error == TaskError(InternalError, 4))
      && (r == Ok ==>
            && id in q.nodes && !q.nodes[id].pauseRequested && q.nodes[id].pauseDeadline.None?
            && q.nodes[id].task.state == if Terminal(p.nodes[id].task.state) then p.nodes[id].task.state else Canceled)
  {
    hide Below;
  }
}
