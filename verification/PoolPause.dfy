/** The cooperative pause of a running task over whole runs: request, checkpoint, resume, timeout. */
module PoolPause {
  import opened Tasks
  import opened Graphs
  import opened Evaluation
  import opened PoolModel
  import opened PoolEffects
  import opened PoolInvariants
  import opened PoolRuns

  /** What a caller of pause waits for: the task is gone, Paused or finished. */
  predicate PauseOver(p: Pool, id: Id) {
    id !in p.nodes || p.nodes[id].task.state == Paused || Terminal(p.nodes[id].task.state)
  }

  // ---- What can happen to an executing task ----

  lemma CancelFate(p: Pool, id: Id, now: nat, x: Id)
    requires x in p.nodes
    ensures
      var q := Cancel(p, id, now).0;
      && x in q.nodes && (x != id ==> q.nodes[x] == p.nodes[x] || Has(q, x, Canceled))
      && (x == id ==> Terminal(q.nodes[x].task.state))
  {
    hide Below;
  }

  lemma FinalizeFate(p: Pool, id: Id, outcome: Outcome, now: nat, x: Id)
    requires (Has(p, id, Running) || Has(p, id, Canceled)) && x in p.nodes && Executing(p.nodes[x].task)
    ensures
      var q := Finalize(p, id, outcome, now);
      x in q.nodes && (q.nodes[x] == p.nodes[x] || Terminal(q.nodes[x].task.state))
  {
    hide Finalize, Below;
    if EndsBadly(p, id, outcome) {
      FailureEffect(p, id, outcome, now, x);
    } else {
      SuccessEffect(p, id, outcome.outputs, now, x);
    }
  }

  /** An executing task stays as it is, or finishes, or is asked to pause, reaches its checkpoint, or is resumed. */
  ghost predicate Fate(c: Config, e: Event, m: Node, n: Node) {
    || n == m
    || Terminal(n.task.state)
    || (e.step == DoPause(m.task.id) && m.task.state == Running
        && n == m.(pauseRequested := true, pauseDeadline := Some(DeadlineAt(c, e.now))))
    || (m.task.state == Running && m.pauseRequested && n.task.state == Paused && Executing(n.task))
    || (m.task.state == Paused && n.task.state == Running && !n.pauseRequested && e.step == DoResume(m.task.id))
  }

  /** The deadline of a pause that is requested at the given time. */
  function DeadlineAt(c: Config, now: nat): nat {
    now + (if c.pauseTimeoutMs > 1 then c.pauseTimeoutMs else 1) * TICKS_PER_MS
  }

  lemma ControlFate(c: Config, p: Pool, id: Id, e: Event, x: Id)
    requires x in p.nodes && NodeOk(c, x, p.nodes[x]) && Executing(p.nodes[x].task)
    ensures e.step == DoPause(id) ==>
      var q := Pause(c, p, id, e.now).0;
      x in q.nodes && Fate(c, e, p.nodes[x], q.nodes[x])
    ensures
      var q := Checkpoint(p, id, e.now);
      x in q.nodes && Fate(c, e, p.nodes[x], q.nodes[x])
  {
  }

  lemma ResumeFate(c: Config, p: Pool, e: Event, x: Id)
    requires e.step.DoResume? && x in p.nodes && NodeOk(c, x, p.nodes[x]) && Executing(p.nodes[x].task)
    ensures
      var q := Resume(p, e.step.id, e.now).0;
      x in q.nodes && Fate(c, e, p.nodes[x], q.nodes[x])
  {
  }

  lemma DispatchFate(c: Config, p: Pool, id: Id, now: nat, x: Id)
    requires IsPick(c, p, now, Some(id)) && id in p.nodes && x in p.nodes && Executing(p.nodes[x].task)
    ensures x in Dispatch(p, id, now).nodes && Dispatch(p, id, now).nodes[x] == p.nodes[x]
  {
    PickFits(c, p, now, id);
  }

  lemma PlainFate(c: Config, e: Event, m: Node, n: Node)
    requires n == m || Terminal(n.task.state)
    ensures Fate(c, e, m, n)
  {
  }

  lemma ExecutingFate(c: Config, y: System, e: Event, z: System, x: Id)
    requires Inv(c, y) && Next(c, y, e, z) && x in y.pool.nodes && Executing(y.pool.nodes[x].task)
    ensures x in z.pool.nodes && Fate(c, e, y.pool.nodes[x], z.pool.nodes[x])
  {
    hide Inv, NodeOk, Submit, Cancel, Pause, Resume, Checkpoint, Finalize, Dispatch, IsPick, Fate;
    var p, q := y.pool, z.pool;
    NodeAt(c, y, x);
    match e.step {
      case DoSubmit(t, stage) => SubmitFate(c, p, t, stage, e.now, x);
      case DoCancel(id) => CancelFate(p, id, e.now, x);
      case DoPause(id) => ControlFate(c, p, id, e, x); return;
      case DoResume(id) => ResumeFate(c, p, e, x); return;
      case DoDispatch(id) => DispatchFate(c, p, id, e.now, x);
      case DoCheckpoint(id) => ControlFate(c, p, id, e, x); return;
      case DoFinalize(id, outcome) =>
        FlightState(c, y, id);
        FinalizeFate(p, id, outcome, e.now, x);
    }
    PlainFate(c, e, p.nodes[x], q.nodes[x]);
  }

  lemma SubmitFate(c: Config, p: Pool, t: Task, stage: Option<Stage>, now: nat, x: Id)
    requires Initial(t) && x in p.nodes
    ensures x in Submit(c, p, t, stage, now).0.nodes && Submit(c, p, t, stage, now).0.nodes[x] == p.nodes[x]
  {
    hide Submit;
    SubmitCases(c, p, t, stage, now);
  }

  lemma StepFate(c: Config, ss: seq<System>, es: seq<Event>, j: nat, x: Id)
    requires Normal(c) && IsRun(c, ss, es) && j < |es| && x in ss[j].pool.nodes && Executing(ss[j].pool.nodes[x].task)
    ensures x in ss[j + 1].pool.nodes && Fate(c, es[j], ss[j].pool.nodes[x], ss[j + 1].pool.nodes[x])
    ensures ss[j].pool.nodes[x].task.id == x && ss[j].clock <= es[j].now == ss[j + 1].clock
  {
    hide Inv;
    RunKeepsInv(c, ss, es, j);
    assert Next(c, ss[j], es[j], ss[j + 1]);
    ExecutingFate(c, ss[j], es[j], ss[j + 1], x);
    NodeAt(c, ss[j], x);
    hide IsPick, Submit, Cancel, Pause, Resume, Checkpoint, Finalize, Dispatch;
  }

  lemma NodeAt(c: Config, y: System, x: Id)
    requires Inv(c, y) && x in y.pool.nodes
    ensures NodeOk(c, x, y.pool.nodes[x])
  {
    CoreAt(c, y.pool, y.log, y.stale, x);
  }

  /** An executing task executes until it is finished, however often it is paused and resumed. */
  lemma {:induction false} ExecutesUntilFinished(c: Config, ss: seq<System>, es: seq<Event>, i: nat, j: nat, x: Id)
    requires Normal(c) && IsRun(c, ss, es) && i <= j < |ss|
    requires x in ss[i].pool.nodes && Executing(ss[i].pool.nodes[x].task)
    ensures x in ss[j].pool.nodes
    ensures Executing(ss[j].pool.nodes[x].task) || Terminal(ss[j].pool.nodes[x].task.state)
    decreases j
  {
    hide Next;
    if i < j {
      ExecutesUntilFinished(c, ss, es, i, j - 1, x);
      if Executing(ss[j - 1].pool.nodes[x].task) {
        StepFate(c, ss, es, j - 1, x);
      } else {
        FinishedForGood(c, ss, es, j - 1, j, x);
      }
    }
  }

  // ---- From the request to the end of the wait ----

  /** Step m is a pause request for the running task id: its caller now waits for a checkpoint. */
  ghost predicate Requests(ss: seq<System>, es: seq<Event>, m: nat, id: Id) {
    m < |es| && |ss| == |es| + 1 && es[m].step == DoPause(id) && Has(ss[m].pool, id, Running)
  }

  /** The task is running and still asked to pause, by a deadline no earlier than that of a request at time t. */
  ghost predicate Pending(c: Config, p: Pool, id: Id, t: nat) {
    && Has(p, id, Running) && p.nodes[id].pauseRequested
    && p.nodes[id].pauseDeadline.Some? && p.nodes[id].pauseDeadline.value >= DeadlineAt(c, t)
  }

  lemma PendingFate(c: Config, e: Event, p: Pool, q: Pool, id: Id, t: nat)
    requires Pending(c, p, id, t) && t <= e.now && id in q.nodes && Fate(c, e, p.nodes[id], q.nodes[id])
    ensures Pending(c, q, id, t) || PauseOver(q, id)
  {
  }

  lemma RequestStep(c: Config, ss: seq<System>, es: seq<Event>, m: nat, id: Id)
    requires Normal(c) && IsRun(c, ss, es) && Requests(ss, es, m, id)
    ensures Pending(c, ss[m + 1].pool, id, es[m].now) && ss[m + 1].clock == es[m].now
  {
    assert Next(c, ss[m], es[m], ss[m + 1]);
    hide IsPick, Submit, Cancel, Resume, Checkpoint, Finalize, Dispatch;
  }

  /** A request stays in force, with its deadline or a later one, until the task is Paused or finished. */
  lemma {:induction false} RequestPends(c: Config, ss: seq<System>, es: seq<Event>, m: nat, j: nat, id: Id)
    requires Normal(c) && IsRun(c, ss, es) && Requests(ss, es, m, id) && m < j < |ss|
    ensures Pending(c, ss[j].pool, id, es[m].now) || exists k :: m < k <= j && PauseOver(ss[k].pool, id)
    ensures es[m].now <= ss[j].clock
    decreases j
  {
    hide Next, Pending, PauseOver, Fate;
    if j == m + 1 {
      RequestStep(c, ss, es, m, id);
    } else {
      RequestPends(c, ss, es, m, j - 1, id);
      ClockGrows(c, ss, es, j - 1);
      if Pending(c, ss[j - 1].pool, id, es[m].now) {
        PendingExecutes(c, ss[j - 1].pool, id, es[m].now);
        StepFate(c, ss, es, j - 1, id);
        PendingFate(c, es[j - 1], ss[j - 1].pool, ss[j].pool, id, es[m].now);
      }
    }
  }

  lemma PendingExecutes(c: Config, p: Pool, id: Id, t: nat)
    requires Pending(c, p, id, t)
    ensures id in p.nodes && Executing(p.nodes[id].task)
  {
  }

  lemma ClockGrows(c: Config, ss: seq<System>, es: seq<Event>, j: nat)
    requires IsRun(c, ss, es) && j < |es|
    ensures ss[j].clock <= ss[j + 1].clock
  {
    assert Next(c, ss[j], es[j], ss[j + 1]);
    hide IsPick, Submit, Cancel, Pause, Resume, Checkpoint, Finalize, Dispatch;
  }

  /** Step k resumes the task id, successfully. */
  ghost predicate Resumes(ss: seq<System>, es: seq<Event>, k: nat, id: Id) {
    k < |es| && |ss| == |es| + 1 && es[k].step == DoResume(id) && Resume(ss[k].pool, id, es[k].now).1 == Ok
  }

  lemma ResumesPaused(c: Config, ss: seq<System>, es: seq<Event>, k: nat, id: Id)
    requires Normal(c) && IsRun(c, ss, es) && k < |es| && es[k].step == DoResume(id)
    ensures Resumes(ss, es, k, id) <==> Has(ss[k].pool, id, Paused)
  {
    hide Inv, Next, Resume;
    RunKeepsInv(c, ss, es, k);
    ResumeKeepsInv(c, ss[k], id, es[k].now);
  }

  /** A task that was paused while running stays Paused until it is resumed or finished. */
  lemma {:induction false} PausedUntilResumed(c: Config, ss: seq<System>, es: seq<Event>, i: nat, j: nat, id: Id)
    requires Normal(c) && IsRun(c, ss, es) && i <= j < |ss|
    requires Has(ss[i].pool, id, Paused) && Executing(ss[i].pool.nodes[id].task)
    ensures PauseOver(ss[j].pool, id) || exists k :: i <= k < j && Resumes(ss, es, k, id)
    decreases j
  {
    hide Next, Resumes;
    if i < j {
      PausedUntilResumed(c, ss, es, i, j - 1, id);
      ExecutesUntilFinished(c, ss, es, i, j - 1, id);
      if PauseOver(ss[j - 1].pool, id) {
        if Has(ss[j - 1].pool, id, Paused) {
          StepFate(c, ss, es, j - 1, id);
          if es[j - 1].step == DoResume(id) { ResumesPaused(c, ss, es, j - 1, id); }
        } else {
          FinishedForGood(c, ss, es, j - 1, j, id);
        }
      }
    }
  }

  /**
   A caller whose wait ends while the pause is not over cancels a running task. The task had been paused since the
   request exactly if somebody resumed it since: then the cancellation hits a pause that had taken effect. Without a
   resume the request is still in force.
   */
  lemma TimeoutAfterPauseIff(c: Config, ss: seq<System>, es: seq<Event>, m: nat, j: nat, id: Id)
    requires Normal(c) && IsRun(c, ss, es) && Requests(ss, es, m, id) && m < j < |ss| && !PauseOver(ss[j].pool, id)
    ensures Has(ss[j].pool, id, Running)
    ensures (exists k :: m < k < j && Has(ss[k].pool, id, Paused)) <==>
      (exists k :: m < k < j && Resumes(ss, es, k, id))
    ensures (forall k :: m < k < j ==> !Resumes(ss, es, k, id)) ==> Pending(c, ss[j].pool, id, es[m].now)
  {
    hide Next, Resumes, Pending;
    ExecutesUntilFinished(c, ss, es, m, j, id);
    forall k | m < k < j && Has(ss[k].pool, id, Paused) ensures exists n :: m < n < j && Resumes(ss, es, n, id) {
      ExecutesUntilFinished(c, ss, es, m, k, id);
      PausedUntilResumed(c, ss, es, k, j, id);
    }
    forall k | m < k < j && Resumes(ss, es, k, id) ensures Has(ss[k].pool, id, Paused) {
      assert es[k].step == DoResume(id) by { ResumesStep(ss, es, k, id); }
      ResumesPaused(c, ss, es, k, id);
    }
    RequestPends(c, ss, es, m, j, id);
    forall k | m < k < j && PauseOver(ss[k].pool, id) ensures Has(ss[k].pool, id, Paused) {
      OverIsPaused(c, ss, es, m, k, j, id);
    }
  }

  lemma ResumesStep(ss: seq<System>, es: seq<Event>, k: nat, id: Id)
    requires Resumes(ss, es, k, id)
    ensures k < |es| && es[k].step == DoResume(id)
  {
  }

  lemma OverIsPaused(c: Config, ss: seq<System>, es: seq<Event>, m: nat, k: nat, j: nat, id: Id)
    requires Normal(c) && IsRun(c, ss, es) && Requests(ss, es, m, id) && m < k <= j < |ss|
    requires PauseOver(ss[k].pool, id) && !PauseOver(ss[j].pool, id)
    ensures Has(ss[k].pool, id, Paused)
  {
    hide Next;
    ExecutesUntilFinished(c, ss, es, m, k, id);
    if Terminal(ss[k].pool.nodes[id].task.state) {
      FinishedForGood(c, ss, es, k, j, id);
    }
  }

  lemma FinishedForGood(c: Config, ss: seq<System>, es: seq<Event>, i: nat, j: nat, x: Id)
    requires Normal(c) && IsRun(c, ss, es) && i <= j < |ss|
    requires x in ss[i].pool.nodes && Terminal(ss[i].pool.nodes[x].task.state)
    ensures x in ss[j].pool.nodes && Terminal(ss[j].pool.nodes[x].task.state)
  {
    hide Inv, Next, KeepsSurplus;
    RunKeepsInv(c, ss, es, i);
    TraceKeepsInv(c, ss, es, i, j);
    assert NodeEvolves(ss[i].pool.nodes[x], ss[j].pool.nodes[x]);
  }

  /**
   Whatever happens between the request and the end of the wait, a pause that timed out leaves the task finished:
   Canceled, with the cancellation visible on its token, unless it had finished before.
   */
  lemma TimedOutPauseFinishes(c: Config, ss: seq<System>, es: seq<Event>, i: nat, j: nat, id: Id, now: nat)
    requires Normal(c) && IsRun(c, ss, es) && i <= j < |ss| && id in ss[i].pool.nodes
    ensures id in ss[j].pool.nodes && CancelFinishes(ss[j].pool, id, now)
  {
    hide Next, Cancel, CancelFinishes;
    RunKeepsInv(c, ss, es, i);
    TraceKeepsInv(c, ss, es, i, j);
    hide Core;
    CoreAt(c, ss[j].pool, ss[j].log, ss[j].stale, id);
    CancelEnds(c, ss[j].pool, id, now);
  }

  /** Cancel leaves the task Canceled, or as it had finished, with a cancellation request on its token. */
  ghost predicate CancelFinishes(p: Pool, id: Id, now: nat)
    requires id in p.nodes
  {
    var q := Cancel(p, id, now).0;
    && id in q.nodes && q.nodes[id].task.token.Some? && q.nodes[id].task.token.value in q.tokens
    && q.nodes[id].task.state == if Terminal(p.nodes[id].task.state) then p.nodes[id].task.state else Canceled
  }

  lemma CancelEnds(c: Config, p: Pool, id: Id, now: nat)
    requires id in p.nodes && NodeOk(c, id, p.nodes[id])
    ensures CancelFinishes(p, id, now)
  {
    hide Below;
  }
}
