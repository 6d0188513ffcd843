/** The tick of the pool: which pauses have timed out, and what happens to their tasks and to the others. */
module PoolTick {
  import opened Tasks
  import opened Graphs
  import opened Evaluation
  import opened PoolModel
  import opened PoolEffects
  import opened PoolInvariants
  import opened PoolRuns
  import opened PoolPause

  predicate PauseExpired(p: Pool, id: Id, now: nat) {
    && Has(p, id, Running) && p.nodes[id].pauseRequested
    && p.nodes[id].pauseDeadline.Some? && now >= p.nodes[id].pauseDeadline.value
  }

  ghost function CancelAll(p: Pool, ids: seq<Id>, now: nat): Pool {
    if ids == [] then p else Cancel(CancelAll(p, ids[..|ids| - 1], now), ids[|ids| - 1], now).0
  }

  lemma CancelEach(p: Pool, id: Id, now: nat, x: Id)
    requires x in p.nodes && id in p.nodes
    ensures
      var q := Cancel(p, id, now).0;
      && x in q.nodes && q.nodes.Keys == p.nodes.Keys
      && (q.nodes[x].task.state == p.nodes[x].task.state || Has(q, x, Canceled))
      && (x == id && p.nodes[x].task.state != Failed && p.nodes[x].task.state != Succeeded ==> Has(q, x, Canceled))
  {
    hide Below;
  }

  /** A tick cancels every task whose pause timed out, in whatever order it goes through them. */
  lemma {:induction false} TickCancels(p: Pool, ids: seq<Id>, now: nat, x: Id)
    requires forall y :: y in ids ==> Has(p, y, Running)
    requires x in p.nodes
    ensures
      var q := CancelAll(p, ids, now);
      && x in q.nodes && q.nodes.Keys == p.nodes.Keys
      && (q.nodes[x].task.state == p.nodes[x].task.state || Has(q, x, Canceled))
      && (x in ids ==> Has(q, x, Canceled))
  {
    hide Cancel;
    if ids != [] {
      var front, last := ids[..|ids| - 1], ids[|ids| - 1];
      assert ids == front + [last];
      assert Has(p, last, Running);
      assert forall y :: y in front ==> y in ids;
      TickCancels(p, front, now, x);
      TickCancels(p, front, now, last);
      CancelEach(CancelAll(p, front, now), last, now, x);
    }
  }

  // ---- The request behind a timeout ----

  /** The request of step m is the latest for the running task x, and the pause has not been over since. */
  ghost predicate InForce(ss: seq<System>, es: seq<Event>, m: nat, j: nat, x: Id) {
    && Requests(ss, es, m, x) && m < j < |ss|
    && (forall n :: m < n <= j ==> !PauseOver(ss[n].pool, x))
    && (forall n :: m < n < j ==> es[n].step != DoPause(x))
  }

  ghost predicate AskedBy(p: Pool, x: Id, deadline: int) {
    && Has(p, x, Running) && p.nodes[x].pauseRequested
    && p.nodes[x].pauseDeadline.Some? && p.nodes[x].pauseDeadline.value == deadline
  }

  lemma AskedNow(c: Config, ss: seq<System>, es: seq<Event>, m: nat, x: Id)
    requires Normal(c) && IsRun(c, ss, es) && Requests(ss, es, m, x)
    ensures AskedBy(ss[m + 1].pool, x, DeadlineAt(c, es[m].now))
  {
    assert Next(c, ss[m], es[m], ss[m + 1]);
    hide IsPick, Submit, Cancel, Resume, Checkpoint, Finalize, Dispatch;
  }

  lemma {:induction false} AskedWhileInForce(c: Config, ss: seq<System>, es: seq<Event>, m: nat, j: nat, x: Id)
    requires Normal(c) && IsRun(c, ss, es) && InForce(ss, es, m, j, x)
    ensures AskedBy(ss[j].pool, x, DeadlineAt(c, es[m].now))
    decreases j
  {
    hide Next, DeadlineAt;
    if j == m + 1 {
      AskedNow(c, ss, es, m, x);
    } else {
      AskedWhileInForce(c, ss, es, m, j - 1, x);
      StepFate(c, ss, es, j - 1, x);
      assert !PauseOver(ss[j].pool, x);
    }
  }

  /** A task that comes to run without having executed before is not asked to pause. */
  lemma StartsUnasked(c: Config, y: System, e: Event, z: System, x: Id)
    requires Inv(c, y) && Next(c, y, e, z) && Has(z.pool, x, Running)
    requires x in y.pool.nodes ==> !Executing(y.pool.nodes[x].task)
    ensures !z.pool.nodes[x].pauseRequested
  {
    hide Inv, Submit, Cancel, Pause, Resume, Checkpoint, Finalize, Dispatch, IsPick;
    var p := y.pool;
    match e.step
    case DoSubmit(t, stage) => NotRunningNew(c, p, t, stage, e.now, x);
    case DoCancel(id) => CancelRunning(p, id, e.now, x);
    case DoPause(id) => ControlRunning(c, p, id, e.now, x);
    case DoResume(id) => if x in p.nodes { NodeAt(c, y, x); } ResumeRunning(c, p, id, e.now, x);
    case DoDispatch(id) => DispatchRunning(p, id, e.now, x);
    case DoCheckpoint(id) => ControlRunning(c, p, id, e.now, x);
    case DoFinalize(id, outcome) =>
      FlightState(c, y, id);
      ReturnRunning(p, id, outcome, e.now, x);
  }

  lemma NotRunningNew(c: Config, p: Pool, t: Task, stage: Option<Stage>, now: nat, x: Id)
    requires Initial(t) && Has(Submit(c, p, t, stage, now).0, x, Running)
    ensures Has(p, x, Running)
  {
    hide Submit;
    SubmitCases(c, p, t, stage, now);
  }

  lemma CancelRunning(p: Pool, id: Id, now: nat, x: Id)
    requires Has(Cancel(p, id, now).0, x, Running)
    ensures Has(p, x, Running)
  {
    hide Below;
  }

  lemma ControlRunning(c: Config, p: Pool, id: Id, now: nat, x: Id)
    ensures Has(Pause(c, p, id, now).0, x, Running) ==> Has(p, x, Running)
    ensures Has(Checkpoint(p, id, now), x, Running) ==> Has(p, x, Running)
  {
  }

  lemma ResumeRunning(c: Config, p: Pool, id: Id, now: nat, x: Id)
    requires x in p.nodes ==> NodeOk(c, x, p.nodes[x])
    requires Has(Resume(p, id, now).0, x, Running)
    ensures x in p.nodes && Executing(p.nodes[x].task)
  {
  }

  lemma DispatchRunning(p: Pool, id: Id, now: nat, x: Id)
    requires id in p.nodes && Has(Dispatch(p, id, now), x, Running)
    ensures Has(p, x, Running) || !Dispatch(p, id, now).nodes[x].pauseRequested
  {
  }

  lemma ReturnRunning(p: Pool, id: Id, outcome: Outcome, now: nat, x: Id)
    requires (Has(p, id, Running) || Has(p, id, Canceled)) && Has(Finalize(p, id, outcome, now), x, Running)
    ensures Has(p, x, Running)
  {
    hide Finalize, Below;
    if EndsBadly(p, id, outcome) {
      FailureEffect(p, id, outcome, now, if x in p.nodes then x else id);
    } else {
      SuccessEffect(p, id, outcome.outputs, now, if x in p.nodes then x else id);
    }
  }

  lemma StepStartsUnasked(c: Config, ss: seq<System>, es: seq<Event>, j: nat, x: Id)
    requires Normal(c) && IsRun(c, ss, es) && j < |es| && Has(ss[j + 1].pool, x, Running)
    requires ss[j + 1].pool.nodes[x].pauseRequested
    ensures x in ss[j].pool.nodes && Executing(ss[j].pool.nodes[x].task)
  {
    hide Inv, Next;
    RunKeepsInv(c, ss, es, j);
    assert Next(c, ss[j], es[j], ss[j + 1]);
    if x !in ss[j].pool.nodes || !Executing(ss[j].pool.nodes[x].task) {
      StartsUnasked(c, ss[j], es[j], ss[j + 1], x);
    }
  }

  lemma {:induction false} AskedBySomebody(c: Config, ss: seq<System>, es: seq<Event>, j: nat, x: Id) returns (m: nat)
    requires Normal(c) && IsRun(c, ss, es) && j < |ss|
    requires Has(ss[j].pool, x, Running) && ss[j].pool.nodes[x].pauseRequested
    ensures InForce(ss, es, m, j, x)
  {
    hide Next, Requests;
    assert j > 0;
    StepStartsUnasked(c, ss, es, j - 1, x);
    StepFate(c, ss, es, j - 1, x);
    if es[j - 1].step == DoPause(x) && Has(ss[j - 1].pool, x, Running) {
      m := j - 1;
      assert Requests(ss, es, m, x) by { RequestHere(ss, es, m, x); }
    } else {
      m := AskedBySomebody(c, ss, es, j - 1, x);
    }
  }

  lemma RequestHere(ss: seq<System>, es: seq<Event>, m: nat, x: Id)
    requires m < |es| && |ss| == |es| + 1 && es[m].step == DoPause(x) && Has(ss[m].pool, x, Running)
    ensures Requests(ss, es, m, x)
  {
  }

  // ---- What a tick does ----

  /** A request for x is in force whose deadline has come: its time plus the timeout. */
  ghost predicate TimedOutRequest(c: Config, ss: seq<System>, es: seq<Event>, j: nat, x: Id, now: nat) {
    exists m: nat :: InForce(ss, es, m, j, x) &&
      es[m].now + (if c.pauseTimeoutMs > 1 then c.pauseTimeoutMs else 1) * TICKS_PER_MS <= now
  }

  /**
   In every state of every run a tick lists a task exactly if a pause was requested while it ran, the pause has not been
   over since, and the deadline set by the latest request has come.
   */
  lemma TickListsIff(c: Config, ss: seq<System>, es: seq<Event>, j: nat, x: Id, now: nat)
    requires Normal(c) && IsRun(c, ss, es) && j < |ss|
    ensures PauseExpired(ss[j].pool, x, now) <==> TimedOutRequest(c, ss, es, j, x, now)
  {
    hide Next, InForce;
    if PauseExpired(ss[j].pool, x, now) {
      var m := AskedBySomebody(c, ss, es, j, x);
      AskedWhileInForce(c, ss, es, m, j, x);
      assert m < |es| by { InForceStep(ss, es, m, j, x); }
    }
    forall m: nat | InForce(ss, es, m, j, x) ensures m < |es| && AskedBy(ss[j].pool, x, DeadlineAt(c, es[m].now)) {
      InForceStep(ss, es, m, j, x);
      AskedWhileInForce(c, ss, es, m, j, x);
    }
  }

  lemma InForceStep(ss: seq<System>, es: seq<Event>, m: nat, j: nat, x: Id)
    requires InForce(ss, es, m, j, x)
    ensures m < |es|
  {
  }

  /** Whatever is below a task that has not succeeded still waits, or is Canceled. */
  lemma BelowUnsucceeded(c: Config, y: System, d: Id, x: Id)
    requires Inv(c, y) && !Has(y.pool, d, Succeeded) && Below(y.pool.succs, d, x) && x in y.pool.nodes
    ensures Waiting(y.pool.nodes[x].task) || Has(y.pool, x, Canceled)
  {
    hide NodesOk, IndexOk, UseOk, LogOk, ForwardOk, CountOk, Closed, Below;
    var p := y.pool;
    var S := iset v | v in p.nodes ==> Waiting(p.nodes[v].task) || Has(p, v, Canceled);
    forall v, w | (v == d || v in S) && w in Succ(p.succs, v) ensures w in S {
      if w in p.nodes && !Has(p, w, Canceled) {
        assert v in p.nodes && v in p.nodes[w].task.deps;
        DependentWaits(p, w, v);
      }
    }
    BelowStays(p.succs, S, d, x);
  }

  lemma CancelSpares(c: Config, y: System, id: Id, now: nat, x: Id)
    requires Inv(c, y) && Has(y.pool, id, Running) && x in y.pool.nodes && x != id && Executing(y.pool.nodes[x].task)
    ensures
      var q := Cancel(y.pool, id, now).0;
      x in q.nodes && q.nodes[x] == y.pool.nodes[x]
  {
    hide Inv, Below;
    if Below(y.pool.succs, id, x) { BelowUnsucceeded(c, y, id, x); }
  }

  lemma {:induction false} CancelAllSpares(c: Config, y: System, ids: seq<Id>, now: nat, x: Id)
    requires Inv(c, y) && (forall z :: z in ids ==> Has(y.pool, z, Running))
    requires forall i, j :: 0 <= i < j < |ids| ==> ids[i] != ids[j]
    requires x in y.pool.nodes && Executing(y.pool.nodes[x].task) && x !in ids
    ensures
      var z := y.(pool := CancelAll(y.pool, ids, now), clock := now);
      Inv(c, z) && x in z.pool.nodes && z.pool.nodes[x] == y.pool.nodes[x]
  {
    hide Inv, Cancel;
    if ids == [] {
      InvClock(c, y, now);
    } else {
      var front, last := ids[..|ids| - 1], ids[|ids| - 1];
      assert ids == front + [last];
      assert last in ids && Has(y.pool, last, Running);
      forall z | z in front ensures z in ids && z != last {}
      CancelAllSpares(c, y, front, now, x);
      CancelAllSpares(c, y, front, now, last);
      var m := y.(pool := CancelAll(y.pool, front, now), clock := now);
      CancelSpares(c, m, last, now, x);
      CancelKeepsInv(c, m, last, now);
    }
  }

  lemma InvClock(c: Config, y: System, now: nat)
    requires Inv(c, y)
    ensures Inv(c, y.(clock := now)) && y.(pool := CancelAll(y.pool, [], now), clock := now) == y.(clock := now)
  {
  }

  /**
   A tick of the pool at any point of a run: it cancels an executing task exactly if the deadline of the latest pause
   request has come and the pause has not been over since; every other executing task it leaves as it is.
   */
  lemma TickCancelsIff(c: Config, ss: seq<System>, es: seq<Event>, j: nat, ids: seq<Id>, now: nat, x: Id)
    requires Normal(c) && IsRun(c, ss, es) && j < |ss|
    requires forall z :: z in ids <==> PauseExpired(ss[j].pool, z, now)
    requires forall i, k :: 0 <= i < k < |ids| ==> ids[i] != ids[k]
    requires x in ss[j].pool.nodes && Executing(ss[j].pool.nodes[x].task)
    ensures
      var p, q := ss[j].pool, CancelAll(ss[j].pool, ids, now);
      && x in q.nodes
      && (Has(q, x, Canceled) <==> TimedOutRequest(c, ss, es, j, x, now))
      && (!Has(q, x, Canceled) ==> q.nodes[x] == p.nodes[x])
  {
    hide IsRun, Inv, TimedOutRequest, CancelAll;
    TickListsIff(c, ss, es, j, x, now);
    RunKeepsInv(c, ss, es, j);
    TickCancels(ss[j].pool, ids, now, x);
    if x !in ids { CancelAllSpares(c, ss[j], ids, now, x); }
  }
}
