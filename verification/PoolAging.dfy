/** Aging: how long a task can be overtaken. */
module PoolAging {
  import opened Tasks
  import opened Graphs
  import opened Evaluation
  import opened PoolModel
  import opened PoolEffects
  import opened PoolInvariants
  import opened PoolRuns

  lemma MulMonotone(x: int, y: int, d: int)
    requires x <= y && d >= 0
    ensures x * d <= y * d
  {
  }

  lemma QuotientAtLeast(a: int, m: int, d: int)
    requires d > 0 && a >= m * d
    ensures a / d >= m
  {
    var q := a / d;
    assert a == q * d + a % d;
    assert (q + 1) * d == q * d + d;
    if q + 1 <= m {
      MulMonotone(q + 1, m, d);
      assert false;
    }
  }

  lemma DivAhead(a: int, b: int, k: nat, d: int)
    requires d > 0 && a >= b + k * d
    ensures a / d >= b / d + k
  {
    var q := b / d;
    assert b == q * d + b % d;
    assert (q + k) * d == q * d + k * d;
    QuotientAtLeast(a, q + k, d);
  }

  function Head(c: Config, k: nat): nat
    requires c.intervalMs >= 1
  {
    k * c.intervalMs * TICKS_PER_MS
  }

  function Intervals(c: Config, n: Node, now: nat): int {
    Quotient(Quotient(now - n.since, TICKS_PER_MS), Max(1, c.intervalMs))
  }

  /** Waiting k whole intervals longer is worth k intervals, whatever the two roundings do. */
  lemma HeadStart(c: Config, l: Node, h: Node, k: nat, now: nat)
    requires c.intervalMs >= 1 && l.since + Head(c, k) <= h.since <= now
    ensures Intervals(c, l, now) >= Intervals(c, h, now) + k
  {
    var a, b, t := now - l.since, now - h.since, TICKS_PER_MS;
    assert a >= b + (k * c.intervalMs) * t;
    DivAhead(a, b, k * c.intervalMs, t);
    assert b / t >= 0;
    DivAhead(a / t, b / t, k, c.intervalMs);
  }

  lemma Outranks(c: Config, p: Pool, l: Id, h: Id, k: nat, now: nat)
    requires Normal(c) && l in p.nodes && h in p.nodes && k >= 1
    requires p.nodes[l].since + Head(c, k) <= p.nodes[h].since <= now
    requires k * c.boost >= p.nodes[h].task.priority - p.nodes[l].task.priority
    ensures Better(c, p, now, l, h) && p.nodes[l].since < p.nodes[h].since
  {
    var m, n := p.nodes[l], p.nodes[h];
    HeadStart(c, m, n, k, now);
    var i, j := Intervals(c, m, now), Intervals(c, n, now);
    assert (i - j - k) * c.boost >= 0;
    assert i * c.boost == j * c.boost + k * c.boost + (i - j - k) * c.boost;
    assert Score(c, m, now) == m.task.priority + i * c.boost && Score(c, n, now) == n.task.priority + j * c.boost;
    assert Head(c, k) >= 1 by {
      assert k * c.intervalMs >= 1;
      assert (k * c.intervalMs) * TICKS_PER_MS >= 1;
    }
  }

  predicate NoLarger(a: Demand, b: Demand) {
    a.cpu <= b.cpu && a.ram <= b.ram && a.vram <= b.vram
  }

  /** A ready task that outranks h and asks for no more keeps h from being picked, soft-budget escape included. */
  lemma KeepsFromPick(c: Config, p: Pool, l: Id, h: Id, now: nat)
    requires l in p.ready && Has(p, l, Ready) && h in p.nodes && l != h
    requires NoLarger(p.nodes[l].task.demand, p.nodes[h].task.demand)
    requires Better(c, p, now, l, h) && !Better(c, p, now, h, l)
    ensures !IsPick(c, p, now, Some(h))
  {
    hide Better;
    if IsPick(c, p, now, Some(h)) {
      PickFits(c, p, now, h);
      InCandidates(c, p, l);
      InCandidates(c, p, h);
      assert false;
    }
  }

  /** l is Ready since t0, and h, whenever it is Ready, became so at least k intervals later. */
  ghost predicate Behind(c: Config, y: System, l: Id, h: Id, t0: nat, k: nat)
    requires c.intervalMs >= 1
  {
    && Has(y.pool, l, Ready) && y.pool.nodes[l].since == t0
    && t0 + Head(c, k) <= y.clock
    && (Has(y.pool, h, Ready) ==> t0 + Head(c, k) <= y.pool.nodes[h].since <= y.clock)
  }

  /** A node that is Ready after a step was so before, or became so just now. */
  ghost predicate ReadySince(p: Pool, q: Pool, x: Id, now: nat) {
    Has(q, x, Ready) ==> q.nodes[x].since == now || (Has(p, x, Ready) && q.nodes[x].since == p.nodes[x].since)
  }

  /** A node that stays Ready keeps its time. */
  ghost predicate StaysReady(p: Pool, q: Pool, x: Id) {
    Has(p, x, Ready) && Has(q, x, Ready) ==> q.nodes[x].since == p.nodes[x].since
  }

  lemma SubmitSince(c: Config, p: Pool, t: Task, stage: Option<Stage>, now: nat, x: Id)
    requires Initial(t)
    ensures ReadySince(p, Submit(c, p, t, stage, now).0, x, now) && StaysReady(p, Submit(c, p, t, stage, now).0, x)
  {
    hide Submit;
    SubmitCases(c, p, t, stage, now);
  }

  lemma CutSince(p: Pool, q: Pool, id: Id, now: nat, x: Id)
    requires id in p.nodes && id in q.nodes && q.nodes == p.nodes[id := q.nodes[id]] && q.nodes[id].task.state != Ready
    ensures ReadySince(p, Propagate(q, id, now), x, now) && StaysReady(p, Propagate(q, id, now), x)
  {
  }

  lemma CancelSince(p: Pool, id: Id, now: nat, x: Id)
    ensures ReadySince(p, Cancel(p, id, now).0, x, now) && StaysReady(p, Cancel(p, id, now).0, x)
  {
    hide Propagate;
    if id in p.nodes {
      var n := p.nodes[id];
      var q := RequestCancel(p, id).(
        nodes := p.nodes[id := CanceledNode(n, now)],
        ready := if n.task.state == Ready then p.ready - {id} else p.ready);
      if !Terminal(n.task.state) { CutSince(p, q, id, now, x); }
    }
  }

  lemma FinalizeSince(p: Pool, id: Id, outcome: Outcome, now: nat, x: Id)
    requires Has(p, id, Running) || Has(p, id, Canceled)
    ensures ReadySince(p, Finalize(p, id, outcome, now), x, now) && StaysReady(p, Finalize(p, id, outcome, now), x)
    ensures Has(p, x, Ready) ==>
      Has(Finalize(p, id, outcome, now), x, Ready) || Has(Finalize(p, id, outcome, now), x, Canceled)
  {
    hide Finalize, Below;
    if EndsBadly(p, id, outcome) {
      FailureEffect(p, id, outcome, now, if x in p.nodes then x else id);
    } else {
      SuccessEffect(p, id, outcome.outputs, now, if x in p.nodes then x else id);
    }
  }

  lemma ControlSince(c: Config, p: Pool, id: Id, now: nat, x: Id)
    ensures ReadySince(p, Pause(c, p, id, now).0, x, now) && StaysReady(p, Pause(c, p, id, now).0, x)
    ensures ReadySince(p, Resume(p, id, now).0, x, now) && StaysReady(p, Resume(p, id, now).0, x)
    ensures ReadySince(p, Checkpoint(p, id, now), x, now) && StaysReady(p, Checkpoint(p, id, now), x)
    ensures id in p.nodes ==> ReadySince(p, Dispatch(p, id, now), x, now) && StaysReady(p, Dispatch(p, id, now), x)
  {
  }

  lemma StepSince(c: Config, y: System, e: Event, z: System, x: Id)
    requires Inv(c, y) && Next(c, y, e, z)
    ensures ReadySince(y.pool, z.pool, x, e.now) && StaysReady(y.pool, z.pool, x)
    ensures z.clock == e.now >= y.clock
  {
    hide Inv, IsPick, Submit, Cancel, Finalize, ReadySince, StaysReady, Pause, Resume, Dispatch, Checkpoint;
    var p := y.pool;
    match e.step
    case DoSubmit(t, stage) => SubmitSince(c, p, t, stage, e.now, x);
    case DoCancel(id) => CancelSince(p, id, e.now, x);
    case DoPause(id) => ControlSince(c, p, id, e.now, x);
    case DoResume(id) => ControlSince(c, p, id, e.now, x);
    case DoDispatch(id) => ControlSince(c, p, id, e.now, x);
    case DoCheckpoint(id) => ControlSince(c, p, id, e.now, x);
    case DoFinalize(id, outcome) =>
      FlightState(c, y, id);
      FinalizeSince(p, id, outcome, e.now, x);
  }

  lemma BehindStep(c: Config, y: System, e: Event, z: System, l: Id, h: Id, t0: nat, k: nat)
    requires Normal(c) && Inv(c, y) && Next(c, y, e, z) && Behind(c, y, l, h, t0, k) && Has(z.pool, l, Ready)
    ensures Behind(c, z, l, h, t0, k)
  {
    hide Inv, Next, Head;
    StepSince(c, y, e, z, l);
    StepSince(c, y, e, z, h);
  }

  lemma {:induction false} BehindTrace(c: Config, ss: seq<System>, es: seq<Event>, i: nat, j: nat, l: Id, h: Id,
      t0: nat, k: nat)
    requires Normal(c) && IsRun(c, ss, es) && i <= j < |ss| && Behind(c, ss[i], l, h, t0, k)
    requires forall m :: i <= m <= j ==> Has(ss[m].pool, l, Ready)
    ensures Behind(c, ss[j], l, h, t0, k)
    decreases j
  {
    hide Inv, Next, Behind;
    if i < j {
      BehindTrace(c, ss, es, i, j - 1, l, h, t0, k);
      RunKeepsInv(c, ss, es, j - 1);
      assert Next(c, ss[j - 1], es[j - 1], ss[j - 1 + 1]);
      BehindStep(c, ss[j - 1], es[j - 1], ss[j], l, h, t0, k);
    }
  }

  ghost predicate Outbids(c: Config, p: Pool, l: Id, h: Id, k: nat) {
    && l in p.nodes && h in p.nodes && k >= 1
    && NoLarger(p.nodes[l].task.demand, p.nodes[h].task.demand)
    && k * c.boost >= p.nodes[h].task.priority - p.nodes[l].task.priority
  }

  lemma BehindIsNotPicked(c: Config, y: System, l: Id, h: Id, t0: nat, k: nat, now: nat)
    requires Normal(c) && Inv(c, y) && Behind(c, y, l, h, t0, k) && Outbids(c, y.pool, l, h, k) && now >= y.clock
    ensures !IsPick(c, y.pool, now, Some(h))
  {
    hide Better, Head, IsPick;
    if Has(y.pool, h, Ready) {
      CoreAt(c, y.pool, y.log, y.stale, l);
      Outranks(c, y.pool, l, h, k, now);
      NotBetterBack(c, y.pool, now, l, h);
      KeepsFromPick(c, y.pool, l, h, now);
    } else if IsPick(c, y.pool, now, Some(h)) {
      PickFits(c, y.pool, now, h);
    }
  }

  lemma NotBetterBack(c: Config, p: Pool, now: nat, l: Id, h: Id)
    requires l in p.nodes && h in p.nodes && Better(c, p, now, l, h) && p.nodes[l].since < p.nodes[h].since
    ensures !Better(c, p, now, h, l)
  {
    hide Score;
  }

  /**
   Bounded overtaking. Suppose l is Ready since t0, and k intervals later, at step i, h is not yet Ready or became Ready
   no earlier than that; l asks for no more than h, and k boosts make up for the difference in priority. Then a later
   dispatch of h is preceded by the dispatch of l, unless l was paused or canceled.
   */
  lemma NoOvertaking(c: Config, ss: seq<System>, es: seq<Event>, i: nat, j: nat, l: Id, h: Id, t0: nat, k: nat)
    requires Normal(c) && IsRun(c, ss, es) && i <= j < |es|
    requires Behind(c, ss[i], l, h, t0, k) && es[j].step == DoDispatch(h) && Outbids(c, ss[j].pool, l, h, k)
    ensures exists m :: i <= m < j && Has(ss[m].pool, l, Ready) && LeavesReady(ss[m], es[m], ss[m + 1], l)
  {
    hide Inv, Next, Behind, Outbids;
    if forall m :: i <= m <= j ==> Has(ss[m].pool, l, Ready) {
      BehindTrace(c, ss, es, i, j, l, h, t0, k);
      RunKeepsInv(c, ss, es, j);
      assert Next(c, ss[j], es[j], ss[j + 1]);
      DispatchIsPick(c, ss[j], es[j], ss[j + 1]);
      BehindIsNotPicked(c, ss[j], l, h, t0, k, es[j].now);
      assert false;
    }
    BehindIsReady(c, ss[i], l, h, t0, k);
    var m := i;
    while Has(ss[m + 1].pool, l, Ready)
      invariant i <= m < j && forall n :: i <= n <= m ==> Has(ss[n].pool, l, Ready)
      decreases j - m
    {
      m := m + 1;
    }
    RunKeepsInv(c, ss, es, m);
    assert Next(c, ss[m], es[m], ss[m + 1]);
    LeavingReady(c, ss[m], es[m], ss[m + 1], l);
  }

  lemma BehindIsReady(c: Config, y: System, l: Id, h: Id, t0: nat, k: nat)
    requires c.intervalMs >= 1 && Behind(c, y, l, h, t0, k)
    ensures Has(y.pool, l, Ready)
  {
  }

  lemma DispatchIsPick(c: Config, y: System, e: Event, z: System)
    requires Next(c, y, e, z) && e.step.DoDispatch?
    ensures IsPick(c, y.pool, e.now, Some(e.step.id)) && e.now >= y.clock
  {
    hide IsPick;
  }

  /** The step dispatches, pauses or cancels l. */
  ghost predicate LeavesReady(y: System, e: Event, z: System, l: Id) {
    || e.step == DoDispatch(l)
    || (e.step == DoPause(l) && Has(z.pool, l, Paused))
    || Has(z.pool, l, Canceled)
  }

  lemma LeavingReady(c: Config, y: System, e: Event, z: System, l: Id)
    requires Inv(c, y) && Next(c, y, e, z) && Has(y.pool, l, Ready) && !Has(z.pool, l, Ready)
    ensures LeavesReady(y, e, z, l)
  {
    hide Inv, IsPick, Submit, Cancel, Finalize;
    var p := y.pool;
    match e.step
    case DoSubmit(t, stage) => SubmitStays(c, p, t, stage, e.now, l);
    case DoCancel(id) => CancelEffect(p, id, e.now, l);
    case DoPause(id) =>
    case DoResume(id) =>
    case DoDispatch(id) =>
    case DoCheckpoint(id) =>
    case DoFinalize(id, outcome) =>
      FlightState(c, y, id);
      FinalizeSince(p, id, outcome, e.now, l);
  }

  lemma SubmitStays(c: Config, p: Pool, t: Task, stage: Option<Stage>, now: nat, x: Id)
    requires Initial(t) && x in p.nodes
    ensures x in Submit(c, p, t, stage, now).0.nodes && Submit(c, p, t, stage, now).0.nodes[x] == p.nodes[x]
  {
    hide Submit;
    SubmitCases(c, p, t, stage, now);
  }

  lemma CancelEffect(p: Pool, id: Id, now: nat, x: Id)
    requires Has(p, x, Ready)
    ensures x in Cancel(p, id, now).0.nodes
    ensures Cancel(p, id, now).0.nodes[x] == p.nodes[x] || Has(Cancel(p, id, now).0, x, Canceled)
  {
  }
}
