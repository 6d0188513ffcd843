/**
 What is dispatched next, in terms of the tasks' own priorities, waiting times and demands: the same choice once more,
 from the numbers the design gives, for every state of every run.
 */
module PoolPick {
  import opened Tasks
  import opened Graphs
  import opened Evaluation
  import opened PoolModel
  import opened PoolInvariants
  import opened PoolRuns
  import opened PoolAging

  // ---- Waiting times and identifiers ----

  /** w whole aging intervals have passed between since and now. */
  ghost predicate Waited(c: Config, since: nat, now: nat, w: nat) {
    w * c.intervalMs * TICKS_PER_MS <= now - since < (w + 1) * c.intervalMs * TICKS_PER_MS
  }

  /** a and b agree up to a place where a ends and b goes on, or where a has the smaller character. */
  ghost predicate Before(a: Id, b: Id) {
    exists k: nat :: k <= |a| && k < |b| && a[..k] == b[..k] && (k == |a| || a[k] < b[k])
  }

  lemma {:induction false} LessIff(a: Id, b: Id)
    ensures Less(a, b) <==> Before(a, b)
  {
    if a != "" && b != "" && a[0] == b[0] {
      LessIff(a[1..], b[1..]);
      if Before(a[1..], b[1..]) {
        var s, t := a[1..], b[1..];
        var k: nat :| k <= |s| && k < |t| && s[..k] == t[..k] && (k == |s| || s[k] < t[k]);
        assert a[..k + 1] == [a[0]] + a[1..][..k] && b[..k + 1] == [b[0]] + b[1..][..k];
        assert Before(a, b);
      }
      if Before(a, b) {
        var k: nat :| k <= |a| && k < |b| && a[..k] == b[..k] && (k == |a| || a[k] < b[k]);
        assert k > 0;
        assert a[1..][..k - 1] == a[..k][1..] && b[1..][..k - 1] == b[..k][1..];
        assert Before(a[1..], b[1..]);
      }
    } else if b != "" {
      assert a[..0] == b[..0];
      forall k: nat | 0 < k <= |a| && k < |b| ensures a[..k] != b[..k] {
        assert a[..k][0] == a[0] && b[..k][0] == b[0];
      }
    }
  }

  lemma QuotientIs(a: int, d: int, q: int)
    requires d > 0 && q * d <= a < (q + 1) * d
    ensures a / d == q
  {
    QuotientAtLeast(a, q, d);
    var r := a / d;
    assert a == r * d + a % d;
    if r >= q + 1 { MulMonotone(q + 1, r, d); }
  }

  lemma QuotientBounds(a: int, d: int)
    requires d > 0
    ensures (a / d) * d <= a < (a / d + 1) * d
  {
    assert a == (a / d) * d + a % d;
    assert (a / d + 1) * d == (a / d) * d + d;
  }

  /** The bonus of a waiting task is one boost for each whole interval. */
  lemma WaitedIs(c: Config, n: Node, now: nat, w: nat)
    requires c.intervalMs >= 1 && Waited(c, n.since, now, w)
    ensures Intervals(c, n, now) == w
  {
    var a, i, t := now - n.since, c.intervalMs, TICKS_PER_MS;
    var ms := a / t;
    QuotientBounds(a, t);
    assert 0 <= w * i && 0 <= (w * i) * t;
    QuotientAtLeast(a, w * i, t);
    if ms >= (w + 1) * i {
      MulMonotone((w + 1) * i, ms, t);
      assert false;
    }
    QuotientIs(ms, i, w);
  }

  lemma WaitedExists(c: Config, since: nat, now: nat) returns (w: nat)
    requires c.intervalMs >= 1 && since <= now
    ensures Waited(c, since, now, w)
  {
    var d := c.intervalMs * TICKS_PER_MS;
    assert d >= 1;
    w := (now - since) / d;
    QuotientBounds(now - since, d);
    assert w * c.intervalMs * TICKS_PER_MS == w * d && (w + 1) * c.intervalMs * TICKS_PER_MS == (w + 1) * d;
  }

  // ---- Comparing two tasks ----

  /** a beats b: by priority plus boosts, then by waiting longer, then by its id. */
  ghost predicate Beats(c: Config, p: Pool, now: nat, a: Id, b: Id)
    requires a in p.nodes && b in p.nodes
  {
    var m, n := p.nodes[a], p.nodes[b];
    exists v: nat, w: nat :: Waited(c, m.since, now, v) && Waited(c, n.since, now, w) &&
      var s, t := m.task.priority + v * c.boost, n.task.priority + w * c.boost;
      s > t || (s == t && (m.since < n.since || (m.since == n.since && Before(a, b))))
  }

  lemma BetterIff(c: Config, p: Pool, now: nat, a: Id, b: Id, v: nat, w: nat)
    requires Normal(c) && a in p.nodes && b in p.nodes
    requires Waited(c, p.nodes[a].since, now, v) && Waited(c, p.nodes[b].since, now, w)
    ensures
      var m, n := p.nodes[a], p.nodes[b];
      var s, t := m.task.priority + v * c.boost, n.task.priority + w * c.boost;
      Better(c, p, now, a, b) <==> s > t || (s == t && (m.since < n.since || (m.since == n.since && Before(a, b))))
  {
    WaitedIs(c, p.nodes[a], now, v);
    WaitedIs(c, p.nodes[b], now, w);
    LessIff(a, b);
    hide Waited, Before, Less, Quotient;
  }

  lemma BetterIsBeats(c: Config, p: Pool, now: nat, a: Id, b: Id)
    requires Normal(c) && a in p.nodes && b in p.nodes && p.nodes[a].since <= now && p.nodes[b].since <= now
    ensures Better(c, p, now, a, b) <==> Beats(c, p, now, a, b)
  {
    var v := WaitedExists(c, p.nodes[a].since, now);
    var w := WaitedExists(c, p.nodes[b].since, now);
    BetterIff(c, p, now, a, b, v, w);
    forall v': nat, w': nat | Waited(c, p.nodes[a].since, now, v') && Waited(c, p.nodes[b].since, now, w')
      ensures v' == v && w' == w
    {
      WaitedIs(c, p.nodes[a], now, v);
      WaitedIs(c, p.nodes[a], now, v');
      WaitedIs(c, p.nodes[b], now, w);
      WaitedIs(c, p.nodes[b], now, w');
    }
    hide Waited, Better, Before, Intervals;
  }

  // ---- The choice ----

  /** The task is Ready and its CPU slots are free. */
  ghost predicate Startable(c: Config, p: Pool, x: Id) {
    && x in p.nodes && p.nodes[x].task.state == Ready
    && p.inUse.cpu + p.nodes[x].task.demand.cpu <= c.cpuHard
  }

  /** With the task added, memory use stays within the soft limits that are enabled. */
  ghost predicate InBudget(c: Config, p: Pool, x: Id)
    requires x in p.nodes
  {
    && (c.ramSoft > 0 ==> p.inUse.ram + p.nodes[x].task.demand.ram <= c.ramSoft)
    && (c.vramSoft > 0 ==> p.inUse.vram + p.nodes[x].task.demand.vram <= c.vramSoft)
  }

  ghost predicate BeatsAll(c: Config, p: Pool, now: nat, h: Id, inBudget: bool)
    requires h in p.nodes
  {
    forall x :: Startable(c, p, x) && InBudget(c, p, x) == inBudget && x != h ==> Beats(c, p, now, h, x)
  }

  lemma CandidateIff(c: Config, p: Pool, x: Id, fits: bool)
    requires IndexOk(p)
    ensures x in Candidates(c, p, fits) <==> Startable(c, p, x) && InBudget(c, p, x) == fits
  {
  }

  ghost predicate ReadyInPast(p: Pool, now: nat) {
    forall x :: Has(p, x, Ready) ==> p.nodes[x].since <= now
  }

  lemma BestIff(c: Config, p: Pool, now: nat, h: Id, fits: bool)
    requires Normal(c) && IndexOk(p) && ReadyInPast(p, now)
    ensures Best(c, p, now, Candidates(c, p, fits), h) <==>
      Startable(c, p, h) && InBudget(c, p, h) == fits && BeatsAll(c, p, now, h, fits)
  {
    hide Candidates, Better, Beats, InBudget, IndexOk;
    forall x ensures x in Candidates(c, p, fits) <==> Startable(c, p, x) && InBudget(c, p, x) == fits {
      CandidateIff(c, p, x, fits);
    }
    if Startable(c, p, h) {
      forall x | Startable(c, p, x) ensures Better(c, p, now, h, x) <==> Beats(c, p, now, h, x) {
        BetterIsBeats(c, p, now, h, x);
      }
    }
  }

  lemma PickSomeIff(c: Config, p: Pool, now: nat, h: Id)
    requires Normal(c) && IndexOk(p) && ReadyInPast(p, now)
    ensures IsPick(c, p, now, Some(h)) <==>
      && Startable(c, p, h)
      && (InBudget(c, p, h) || (p.running == {} && forall x :: Startable(c, p, x) ==> !InBudget(c, p, x)))
      && BeatsAll(c, p, now, h, InBudget(c, p, h))
  {
    BestIff(c, p, now, h, true);
    BestIff(c, p, now, h, false);
    hide Candidates, Best, BeatsAll, InBudget, Startable, IndexOk;
    forall x ensures x in Candidates(c, p, true) <==> Startable(c, p, x) && InBudget(c, p, x) {
      CandidateIff(c, p, x, true);
    }
  }

  lemma NoneStartableIff(c: Config, p: Pool, fits: bool)
    requires IndexOk(p)
    ensures Candidates(c, p, fits) == {} <==> forall x :: Startable(c, p, x) ==> InBudget(c, p, x) != fits
  {
    if Candidates(c, p, fits) == {} {
      forall x | Startable(c, p, x) ensures InBudget(c, p, x) != fits {
        CandidateIff(c, p, x, fits);
      }
    } else {
      var x :| x in Candidates(c, p, fits);
      CandidateIff(c, p, x, fits);
    }
  }

  lemma PickNoneIff(c: Config, p: Pool, now: nat)
    requires IndexOk(p)
    ensures IsPick(c, p, now, None) <==>
      && (forall x :: Startable(c, p, x) ==> !InBudget(c, p, x))
      && (p.running != {} || forall x :: !Startable(c, p, x))
  {
    NoneStartableIff(c, p, true);
    NoneStartableIff(c, p, false);
    hide Candidates, InBudget, IndexOk;
  }

  lemma {:induction false} ReadyIsPast(c: Config, ss: seq<System>, es: seq<Event>, i: nat)
    requires Normal(c) && IsRun(c, ss, es) && i < |ss|
    ensures ReadyInPast(ss[i].pool, ss[i].clock)
  {
    hide Inv, Next;
    if i > 0 {
      ReadyIsPast(c, ss, es, i - 1);
      RunKeepsInv(c, ss, es, i - 1);
      assert Next(c, ss[i - 1], es[i - 1], ss[i - 1 + 1]);
      forall x | Has(ss[i].pool, x, Ready) ensures ss[i].pool.nodes[x].since <= ss[i].clock {
        StepSince(c, ss[i - 1], es[i - 1], ss[i], x);
      }
    }
  }

  /**
   In every state of every run: h may be dispatched next exactly if it is Ready, its CPU slots are free, it stays within
   the memory budgets, and it beats every other such task; or else, with nothing running and no startable task within
   the budgets, if it beats every other startable task.
   */
  lemma DispatchedNextIff(c: Config, ss: seq<System>, es: seq<Event>, i: nat, now: nat, h: Id)
    requires Normal(c) && IsRun(c, ss, es) && i < |ss| && now >= ss[i].clock
    ensures
      var p := ss[i].pool;
      IsPick(c, p, now, Some(h)) <==>
        && Startable(c, p, h)
        && (InBudget(c, p, h) || (p.running == {} && forall x :: Startable(c, p, x) ==> !InBudget(c, p, x)))
        && BeatsAll(c, p, now, h, InBudget(c, p, h))
  {
    hide IsRun, IsPick, Startable, InBudget, BeatsAll;
    RunKeepsInv(c, ss, es, i);
    ReadyIsPast(c, ss, es, i);
    PickSomeIff(c, ss[i].pool, now, h);
  }

  /** A worker finds nothing to do exactly if no Ready task fits all budgets, and none may start to run alone. */
  lemma NothingToDispatchIff(c: Config, ss: seq<System>, es: seq<Event>, i: nat, now: nat)
    requires Normal(c) && IsRun(c, ss, es) && i < |ss|
    ensures
      var p := ss[i].pool;
      IsPick(c, p, now, None) <==>
        && (forall x :: Startable(c, p, x) ==> !InBudget(c, p, x))
        && (p.running != {} || forall x :: !Startable(c, p, x))
  {
    hide IsRun, IsPick, Startable, InBudget;
    RunKeepsInv(c, ss, es, i);
    PickNoneIff(c, ss[i].pool, now);
  }

  // ---- A leader is not overtaken by waiting alone ----

  /** h is Ready since t0, and l, whenever it is Ready, became so at most k whole intervals earlier. */
  ghost predicate KeepsLead(c: Config, y: System, h: Id, l: Id, t0: nat, k: nat)
    requires c.intervalMs >= 1
  {
    && Has(y.pool, h, Ready) && y.pool.nodes[h].since == t0 <= y.clock
    && (Has(y.pool, l, Ready) ==> t0 <= y.pool.nodes[l].since + k * c.intervalMs * TICKS_PER_MS)
  }

  lemma LeadsStep(c: Config, y: System, e: Event, z: System, h: Id, l: Id, t0: nat, k: nat)
    requires Normal(c) && Inv(c, y) && Next(c, y, e, z) && KeepsLead(c, y, h, l, t0, k) && Has(z.pool, h, Ready)
    ensures KeepsLead(c, z, h, l, t0, k)
  {
    hide Inv, Next;
    StepSince(c, y, e, z, h);
    StepSince(c, y, e, z, l);
    assert k * c.intervalMs >= 0 && (k * c.intervalMs) * TICKS_PER_MS >= 0;
  }

  lemma {:induction false} LeadsTrace(
      c: Config, ss: seq<System>, es: seq<Event>, i: nat, j: nat, h: Id, l: Id, t0: nat, k: nat)
    requires Normal(c) && IsRun(c, ss, es) && i <= j < |ss| && KeepsLead(c, ss[i], h, l, t0, k)
    requires forall m :: i <= m <= j ==> Has(ss[m].pool, h, Ready)
    ensures KeepsLead(c, ss[j], h, l, t0, k)
    decreases j
  {
    hide Inv, Next, KeepsLead;
    if i < j {
      LeadsTrace(c, ss, es, i, j - 1, h, l, t0, k);
      RunKeepsInv(c, ss, es, j - 1);
      assert Next(c, ss[j - 1], es[j - 1], ss[j - 1 + 1]);
      LeadsStep(c, ss[j - 1], es[j - 1], ss[j], h, l, t0, k);
    }
  }

  /** However the intervals are cut, k of them are all that l can be ahead. */
  lemma AheadBound(c: Config, s: nat, t: nat, now: nat, k: nat, v: nat, w: nat)
    requires c.intervalMs >= 1 && s <= t + k * c.intervalMs * TICKS_PER_MS
    requires Waited(c, s, now, v) && Waited(c, t, now, w)
    ensures w <= v + k
  {
    var d := c.intervalMs * TICKS_PER_MS;
    assert w * c.intervalMs * TICKS_PER_MS == w * d && k * c.intervalMs * TICKS_PER_MS == k * d;
    assert (v + 1) * c.intervalMs * TICKS_PER_MS == (v + 1) * d;
    assert w * d < (v + 1) * d + k * d;
    assert (v + 1 + k) * d == (v + 1) * d + k * d;
    if w >= v + 1 + k { MulMonotone(v + 1 + k, w, d); }
  }

  /** h leads by more than k boosts and demands no more than l. */
  ghost predicate AheadBy(c: Config, p: Pool, h: Id, l: Id, k: nat) {
    && h in p.nodes && l in p.nodes && h != l
    && p.nodes[h].task.priority > p.nodes[l].task.priority + k * c.boost
    && NoLarger(p.nodes[h].task.demand, p.nodes[l].task.demand)
  }

  lemma LeaderBeats(c: Config, p: Pool, h: Id, l: Id, k: nat, now: nat)
    requires Normal(c) && AheadBy(c, p, h, l, k) && p.nodes[h].since <= now && p.nodes[l].since <= now
    requires p.nodes[h].since <= p.nodes[l].since + k * c.intervalMs * TICKS_PER_MS
    ensures Better(c, p, now, h, l) && !Better(c, p, now, l, h)
  {
    var v := WaitedExists(c, p.nodes[h].since, now);
    var w := WaitedExists(c, p.nodes[l].since, now);
    AheadBound(c, p.nodes[h].since, p.nodes[l].since, now, k, v, w);
    BetterIff(c, p, now, h, l, v, w);
    BetterIff(c, p, now, l, h, w, v);
    MulMonotone(w, v + k, c.boost);
    assert (v + k) * c.boost == v * c.boost + k * c.boost;
    hide Waited, Before, Better;
  }

  /**
   Priority counts until waiting makes up for it. Suppose h is Ready and l, if Ready, became so at most k whole
   intervals before h; h demands no more than l and its priority is higher by more than k boosts. Then l is not
   dispatched as long as h is Ready.
   */
  lemma LeaderGoesFirst(
      c: Config, ss: seq<System>, es: seq<Event>, i: nat, j: nat, h: Id, l: Id, t0: nat, k: nat)
    requires Normal(c) && IsRun(c, ss, es) && i <= j < |es| && KeepsLead(c, ss[i], h, l, t0, k)
    requires (forall m :: i <= m <= j ==> Has(ss[m].pool, h, Ready)) && AheadBy(c, ss[j].pool, h, l, k)
    ensures es[j].step != DoDispatch(l)
  {
    hide Inv, Next, IsPick, Better;
    LeadsTrace(c, ss, es, i, j, h, l, t0, k);
    RunKeepsInv(c, ss, es, j);
    assert Next(c, ss[j], es[j], ss[j + 1]);
    if es[j].step == DoDispatch(l) {
      DispatchIsPick(c, ss[j], es[j], ss[j + 1]);
      PickFits(c, ss[j].pool, es[j].now, l);
      ReadyIsPast(c, ss, es, j);
      LeaderBeats(c, ss[j].pool, h, l, k, es[j].now);
      NodeReady(c, ss[j], h);
      KeepsFromPick(c, ss[j].pool, h, l, es[j].now);
      assert false;
    }
  }

  lemma NodeReady(c: Config, y: System, x: Id)
    requires Inv(c, y) && Has(y.pool, x, Ready)
    ensures x in y.pool.ready
  {
  }
}
