/** Wakeups, progress and termination of the pool. */
module PoolLiveness {
  import opened Tasks
  import opened Graphs
  import opened Evaluation
  import opened PoolModel
  import opened PoolEffects
  import opened PoolInvariants
  import opened PoolRuns

  // ---- The counters against a full scan of the dependencies ----

  ghost predicate AllSucceeded(p: Pool, deps: seq<Id>) {
    forall d :: d in deps ==> Has(p, d, Succeeded)
  }

  /** The step is a success whose wakeup passes over a task that is paused while queued. */
  ghost predicate Skips(y: System, e: Event) {
    && e.step.DoFinalize? && e.step.outcome.Success? && Has(y.pool, e.step.id, Running)
    && !NoneSkipped(y.pool, e.step.id)
  }

  /** The counters are exact throughout a run exactly if no wakeup of the run skips a task. */
  lemma CountersExactIff(c: Config, ss: seq<System>, es: seq<Event>)
    requires Normal(c) && IsRun(c, ss, es)
    ensures (forall i :: 0 <= i < |ss| ==> Exact(ss[i].pool)) <==> (forall i :: 0 <= i < |es| ==> !Skips(ss[i], es[i]))
  {
    hide Inv, Next, Exact, NoneSkipped;
    if forall i :: 0 <= i < |es| ==> !Skips(ss[i], es[i]) {
      forall i | 0 <= i < |ss| ensures Exact(ss[i].pool) {
        ExactUpTo(c, ss, es, i);
      }
    }
    if forall i :: 0 <= i < |ss| ==> Exact(ss[i].pool) {
      forall i | 0 <= i < |es| ensures !Skips(ss[i], es[i]) {
        RunKeepsInv(c, ss, es, i);
        assert Next(c, ss[i], es[i], ss[i + 1]);
        StepKeepsInv(c, ss[i], es[i], ss[i + 1]);
      }
    }
  }

  lemma {:induction false} ExactUpTo(c: Config, ss: seq<System>, es: seq<Event>, i: nat)
    requires Normal(c) && IsRun(c, ss, es) && i < |ss|
    requires forall j :: 0 <= j < i ==> !Skips(ss[j], es[j])
    ensures Exact(ss[i].pool)
  {
    hide Inv, Next, Exact, NoneSkipped;
    if i == 0 {
      StartInv(c);
    } else {
      ExactUpTo(c, ss, es, i - 1);
      RunKeepsInv(c, ss, es, i - 1);
      assert !Skips(ss[i - 1], es[i - 1]);
      assert Next(c, ss[i - 1], es[i - 1], ss[i - 1 + 1]);
      StepKeepsInv(c, ss[i - 1], es[i - 1], ss[i]);
    }
  }

  lemma ScanOfOne(c: Config, p: Pool, log: seq<Job>, stale: set<Id>, x: Id)
    requires Core(c, p, log, stale) && Exact(p) && x in p.nodes && p.nodes[x].task.state != Canceled
    ensures Waiting(p.nodes[x].task) <==> !AllSucceeded(p, p.nodes[x].task.deps)
  {
    MissingZero(DoneSet(p.nodes), p.nodes[x].task.deps);
    assert Counted(p, x);
    CoreAt(c, p, log, stale, x);
  }

  /** With exact counters no Queued task has all its dependencies Succeeded: a full scan would promote nobody. */
  lemma NothingLeftToPromote(c: Config, y: System, x: Id)
    requires Inv(c, y) && Exact(y.pool) && Has(y.pool, x, Queued)
    ensures !AllSucceeded(y.pool, y.pool.nodes[x].task.deps)
  {
    ScanOfOne(c, y.pool, y.log, y.stale, x);
  }

  lemma FinalizeStep(c: Config, y: System, e: Event, z: System)
    requires Next(c, y, e, z) && e.step.DoFinalize?
    ensures z.pool == Finalize(y.pool, e.step.id, e.step.outcome, e.now)
  {
  }

  /** A success wakes exactly the Queued tasks that a full scan of their dependencies would promote. */
  lemma WakeAgreesWithScan(c: Config, y: System, e: Event, z: System, x: Id)
    requires Inv(c, y) && Exact(y.pool) && Next(c, y, e, z) && !Skips(y, e)
    requires e.step.DoFinalize? && e.step.outcome.Success? && Has(y.pool, e.step.id, Running)
    requires Has(y.pool, x, Queued)
    ensures
      && x in z.pool.nodes
      && (Has(z.pool, x, Ready) <==> AllSucceeded(z.pool, z.pool.nodes[x].task.deps))
      && (Has(z.pool, x, Queued) <==> !AllSucceeded(z.pool, z.pool.nodes[x].task.deps))
  {
    hide Inv, Exact, NoneSkipped, Finalize, AllSucceeded, Advances, Next, Core;
    StepKeepsInv(c, y, e, z);
    FinalizeStep(c, y, e, z);
    SuccessEffect(y.pool, e.step.id, e.step.outcome.outputs, e.now, x);
    InvCore(c, z);
    ScanOfOne(c, z.pool, z.log, z.stale, x);
  }

  lemma InvCore(c: Config, y: System)
    requires Inv(c, y)
    ensures Core(c, y.pool, y.log, y.stale)
  {
  }

  /** A waiting task whose counter exceeds the dependencies it really misses. */
  ghost predicate Lost(p: Pool, x: Id) {
    x in p.nodes && Waiting(p.nodes[x].task) && p.nodes[x].unmet > Missing(DoneSet(p.nodes), p.nodes[x].task.deps)
  }

  lemma LostIsSurplus(p: Pool, x: Id)
    requires x in p.nodes
    ensures Surplus(p, x, 1) <==> Lost(p, x) || p.nodes[x].task.state == Canceled
  {
  }

  lemma LostExists(p: Pool, x: Id)
    ensures Lost(p, x) ==> x in p.nodes
  {
  }

  lemma LostWaits(p: Pool, x: Id)
    ensures Lost(p, x) ==> !Has(p, x, Ready) && !Has(p, x, Running) && !Has(p, x, Succeeded)
  {
  }

  /** A lost wakeup is never made up for: the task stays lost, or is canceled; it is never dispatched. */
  lemma LostForever(c: Config, ss: seq<System>, es: seq<Event>, i: nat, j: nat, x: Id)
    requires Normal(c) && IsRun(c, ss, es) && i <= j < |ss| && Lost(ss[i].pool, x)
    ensures Lost(ss[j].pool, x) || Has(ss[j].pool, x, Canceled)
    ensures !Has(ss[j].pool, x, Ready) && !Has(ss[j].pool, x, Running) && !Has(ss[j].pool, x, Succeeded)
  {
    hide Next, Core, Surplus, Lost, Missing;
    RunKeepsInv(c, ss, es, i);
    TraceKeepsInv(c, ss, es, i, j);
    LostExists(ss[i].pool, x);
    LostWaits(ss[j].pool, x);
    LostIsSurplus(ss[i].pool, x);
    LostIsSurplus(ss[j].pool, x);
  }

  /** Skipping a task in a wakeup loses it at once. */
  lemma SkippedIsLost(c: Config, y: System, e: Event, z: System, x: Id)
    requires Inv(c, y) && Next(c, y, e, z) && Skips(y, e) && Skipped(y.pool, e.step.id, x) && x in y.pool.nodes
    ensures Lost(z.pool, x)
  {
    hide Inv, Exact, NoneSkipped, Finalize, Advances, Next, Core, Missing;
    FinalizeStep(c, y, e, z);
    var p, q, id := y.pool, z.pool, e.step.id;
    SuccessEffect(p, id, e.step.outcome.outputs, e.now, x);
    DoneGrows(p, id, e.step.outcome.outputs, e.now);
    var deps := p.nodes[x].task.deps;
    InvCore(c, y);
    SkippedNeedsIt(c, p, y.log, y.stale, id, x);
    MissingDone(DoneSet(p.nodes), deps, id);
  }

  lemma SkippedNeedsIt(c: Config, p: Pool, log: seq<Job>, stale: set<Id>, id: Id, x: Id)
    requires Core(c, p, log, stale) && Skipped(p, id, x) && x in p.nodes
    ensures multiset(p.nodes[x].task.deps)[id] > 0 && Surplus(p, x, 0)
  {
    EdgeCount(p, stale, id, x);
  }

  // ---- There is always a best candidate ----

  lemma {:induction false} LessIsStrict(a: Id, b: Id)
    ensures !(Less(a, b) && Less(b, a))
    ensures a != b ==> Less(a, b) || Less(b, a)
  {
    if a != "" && b != "" && a[0] == b[0] {
      LessIsStrict(a[1..], b[1..]);
      if a != b { assert a == [a[0]] + a[1..] && b == [b[0]] + b[1..]; }
    }
  }

  lemma {:induction false} LessIsTransitive(a: Id, b: Id, d: Id)
    requires Less(a, b) && Less(b, d)
    ensures Less(a, d)
  {
    if a != "" && a[0] == b[0] && b[0] == d[0] {
      LessIsTransitive(a[1..], b[1..], d[1..]);
    }
  }

  lemma BetterIsOrder(c: Config, p: Pool, now: nat, x: Id, y: Id, z: Id)
    requires x in p.nodes && y in p.nodes && z in p.nodes
    ensures x != y ==> Better(c, p, now, x, y) || Better(c, p, now, y, x)
    ensures !(Better(c, p, now, x, y) && Better(c, p, now, y, x))
    ensures Better(c, p, now, x, y) && Better(c, p, now, y, z) ==> Better(c, p, now, x, z)
  {
    hide Score, Less;
    LessIsStrict(x, y);
    if Less(x, y) && Less(y, z) { LessIsTransitive(x, y, z); }
  }

  /** The choice is a function of the state: whatever order the ready set is scanned in, it is the same. */
  lemma PickIsUnique(c: Config, p: Pool, now: nat, r: Option<Id>, s: Option<Id>)
    requires IsPick(c, p, now, r) && IsPick(c, p, now, s)
    ensures r == s
  {
    hide Better, Candidates;
    if r.Some? && s.Some? && r != s {
      BetterIsOrder(c, p, now, r.value, s.value, r.value);
    }
  }

  lemma {:induction false} BestExists(c: Config, p: Pool, now: nat, S: set<Id>) returns (id: Id)
    requires S != {} && S <= p.nodes.Keys
    ensures Best(c, p, now, S, id)
  {
    hide Better;
    var some :| some in S;
    if S == {some} { return some; }
    var rest := S - {some};
    var b := BestExists(c, p, now, rest);
    if Better(c, p, now, b, some) {
      return b;
    }
    BetterIsOrder(c, p, now, b, some, b);
    forall o | o in S && o != some ensures Better(c, p, now, some, o) {
      BetterIsOrder(c, p, now, some, b, o);
    }
    return some;
  }

  lemma PickExists(c: Config, p: Pool, now: nat) returns (r: Option<Id>)
    ensures IsPick(c, p, now, r)
    ensures Candidates(c, p, true) != {} || (p.running == {} && Candidates(c, p, false) != {}) ==> r.Some?
  {
    hide Better, FitsSoft;
    if Candidates(c, p, true) != {} {
      var id := BestExists(c, p, now, Candidates(c, p, true));
      return Some(id);
    } else if p.running == {} && Candidates(c, p, false) != {} {
      var id := BestExists(c, p, now, Candidates(c, p, false));
      return Some(id);
    } else {
      return None;
    }
  }

  // ---- Deadlock freedom ----

  ghost predicate Unfinished(p: Pool, x: Id) {
    x in p.nodes && !Terminal(p.nodes[x].task.state)
  }

  ghost predicate NonePaused(p: Pool) {
    forall x :: x in p.nodes ==> p.nodes[x].task.state != Paused
  }

  lemma FirstUnfinished(p: Pool, log: seq<Job>, x: Id) returns (k: nat)
    requires LogOk(p, log) && Unfinished(p, x)
    ensures k < |log| && Unfinished(p, log[k].id)
    ensures forall i :: 0 <= i < k ==> log[i].id in p.nodes && !Unfinished(p, log[i].id)
  {
    k := IndexInLog(p, log, x);
    var j := 0;
    while j < k && !Unfinished(p, log[j].id)
      invariant j <= k
      invariant forall i :: 0 <= i < j ==> !Unfinished(p, log[i].id)
    {
      j := j + 1;
    }
    k := j;
  }

  /** With exact counters, the first unfinished task in submission order is past waiting. */
  lemma FirstIsReleased(c: Config, y: System, x: Id) returns (k: nat)
    requires Inv(c, y) && Exact(y.pool) && Unfinished(y.pool, x)
    ensures k < |y.log| && Unfinished(y.pool, y.log[k].id) && !Waiting(y.pool.nodes[y.log[k].id].task)
  {
    var p, log := y.pool, y.log;
    k := FirstUnfinished(p, log, x);
    var first := log[k].id;
    forall d | d in p.nodes[first].task.deps ensures Has(p, d, Succeeded) {
      DependencyIsEarlier(c, y, k, d);
    }
    ScanOfOne(c, p, log, y.stale, first);
  }

  lemma DependencyIsEarlier(c: Config, y: System, k: nat, d: Id)
    requires Inv(c, y) && k < |y.log| && Unfinished(y.pool, y.log[k].id) && d in y.pool.nodes[y.log[k].id].task.deps
    requires forall i :: 0 <= i < k ==> y.log[i].id in y.pool.nodes && !Unfinished(y.pool, y.log[i].id)
    ensures Has(y.pool, d, Succeeded)
  {
    assert JobOf(y.pool.nodes[y.log[k].id]) == y.log[k];
    var i := DependencyIndex(c, y, k, d);
    hide NodesOk, UseOk, CountOk, EdgesOk, ForwardOk;
    assert !BadNode(y.pool, d);
  }

  lemma IdlePoolIsFree(c: Config, y: System, x: Id)
    requires Inv(c, y) && y.pool.running == {} && x in y.pool.nodes
    ensures FitsCpu(c, y.pool, y.pool.nodes[x].task.demand)
  {
    hide Held;
    HeldNone(y.log);
    CoreAt(c, y.pool, y.log, y.stale, x);
  }

  /** While a task is unfinished and none is paused, something runs or something can be dispatched. */
  lemma DeadlockFree(c: Config, y: System, now: nat, x: Id) returns (r: Option<Id>)
    requires Inv(c, y) && Exact(y.pool) && NonePaused(y.pool) && Unfinished(y.pool, x)
    ensures y.pool.running != {} || (r.Some? && IsPick(c, y.pool, now, r))
  {
    hide IsPick, NodeOk;
    r := PickExists(c, y.pool, now);
    if y.pool.running == {} {
      var k := FirstIsReleased(c, y, x);
      var first := y.log[k].id;
      assert Has(y.pool, first, Ready) by { ReleasedIsReady(c, y, first); }
      IdlePoolIsFree(c, y, first);
      InCandidates(c, y.pool, first);
    }
  }

  lemma ReleasedIsReady(c: Config, y: System, x: Id)
    requires Inv(c, y) && NonePaused(y.pool) && Unfinished(y.pool, x) && !Waiting(y.pool.nodes[x].task)
    requires y.pool.running == {}
    ensures Has(y.pool, x, Ready) && x in y.pool.ready
  {
    CoreAt(c, y.pool, y.log, y.stale, x);
  }

  // ---- Termination ----

  function Weight(n: Node): nat {
    if n.running then 1 else if Terminal(n.task.state) then 0 else 2
  }

  /** What is left to do: two steps for a task that has not been dispatched, one for a task that is running. */
  function Work(nodes: map<Id, Node>, log: seq<Job>): nat {
    if log == [] then 0
    else
      var x := log[|log| - 1].id;
      Work(nodes, log[..|log| - 1]) + if x in nodes then Weight(nodes[x]) else 0
  }

  lemma {:induction false} WorkMonotone(m: map<Id, Node>, n: map<Id, Node>, log: seq<Job>)
    requires forall i :: 0 <= i < |log| ==>
      log[i].id in m && log[i].id in n && Weight(n[log[i].id]) <= Weight(m[log[i].id])
    ensures Work(n, log) <= Work(m, log)
    ensures (exists i :: 0 <= i < |log| && Weight(n[log[i].id]) < Weight(m[log[i].id])) ==> Work(n, log) < Work(m, log)
  {
    hide Weight;
    if log != [] { WorkMonotone(m, n, log[..|log| - 1]); }
  }

  predicate IsWork(s: Step) {
    s.DoDispatch? || s.DoFinalize?
  }

  lemma RunningFollows(c: Config, y: System, e: Event, z: System)
    requires Inv(c, y) && Next(c, y, e, z)
    ensures z.pool.running == if e.step.DoDispatch? then y.pool.running + {e.step.id}
      else if e.step.DoFinalize? then y.pool.running - {e.step.id} else y.pool.running
    ensures e.step.DoDispatch? ==> Has(y.pool, e.step.id, Ready)
    ensures e.step.DoFinalize? ==> e.step.id in y.pool.running
    ensures e.step.DoSubmit? || z.log == y.log
  {
    hide Inv, IsPick, Cancel, Pause, Resume, Checkpoint, Finalize, Submit, InputsFor;
    StepFlight(c, y, e, z);
    if e.step.DoDispatch? { PickFits(c, y.pool, e.now, e.step.id); }
  }

  lemma StepFlight(c: Config, y: System, e: Event, z: System)
    requires Inv(c, y) && Next(c, y, e, z)
    ensures z.pool.running == z.flight.Keys && y.pool.running == y.flight.Keys
  {
    hide Core, Next;
    StepKeepsInv(c, y, e, z);
  }

  lemma WeightFalls(c: Config, y: System, e: Event, z: System, x: Id)
    requires Inv(c, y) && Next(c, y, e, z) && x in y.pool.nodes
    ensures x in z.pool.nodes && Weight(z.pool.nodes[x]) <= Weight(y.pool.nodes[x])
    ensures IsWork(e.step) && e.step.id == x ==> Weight(z.pool.nodes[x]) < Weight(y.pool.nodes[x])
  {
    hide Next, Advances, Inv, NodeEvolves;
    RunningFollows(c, y, e, z);
    StepKeepsInv(c, y, e, z);
    AdvancesAt(y.pool, z.pool, x);
    FlagAt(c, y, x);
    FlagAt(c, z, x);
    if e.step.DoFinalize? && e.step.id == x { FinalizeEnds(c, y, e, z); }
  }

  lemma AdvancesAt(p: Pool, q: Pool, x: Id)
    requires Advances(p, q) && x in p.nodes
    ensures x in q.nodes && NodeEvolves(p.nodes[x], q.nodes[x])
    ensures Terminal(p.nodes[x].task.state) ==> q.nodes[x].task.state == p.nodes[x].task.state
  {
  }

  lemma FlagAt(c: Config, y: System, x: Id)
    requires Inv(c, y) && x in y.pool.nodes
    ensures x in y.pool.running <==> y.pool.nodes[x].running
    ensures Has(y.pool, x, Ready) ==> x !in y.pool.running
  {
    CoreAt(c, y.pool, y.log, y.stale, x);
  }

  lemma FinalizeEnds(c: Config, y: System, e: Event, z: System)
    requires Inv(c, y) && Next(c, y, e, z) && e.step.DoFinalize?
    ensures e.step.id in z.pool.nodes && Terminal(z.pool.nodes[e.step.id].task.state)
  {
    hide Core;
    StepKeepsInv(c, y, e, z);
    InvAt(c, y, e.step.id);
    FinalizeTerminal(y.pool, e.step.id, e.step.outcome, e.now);
  }

  lemma InvAt(c: Config, y: System, id: Id)
    requires Inv(c, y) && id in y.pool.running
    ensures Has(y.pool, id, Running) || Has(y.pool, id, Canceled) || Has(y.pool, id, Paused)
  {
    IndexHas(y.pool, id);
    CoreAt(c, y.pool, y.log, y.stale, id);
  }

  lemma FinalizeTerminal(p: Pool, id: Id, outcome: Outcome, now: nat)
    requires Has(p, id, Running) || Has(p, id, Canceled)
    ensures
      var q := Finalize(p, id, outcome, now);
      && id in q.nodes && q.nodes[id].task.state == EndState(p, id, outcome) && Terminal(q.nodes[id].task.state)
  {
    hide Finalize;
    if EndsBadly(p, id, outcome) {
      FailureEffect(p, id, outcome, now, id);
    } else {
      SuccessEffect(p, id, outcome.outputs, now, id);
    }
  }

  lemma WorkStep(c: Config, y: System, e: Event, z: System)
    requires Inv(c, y) && Next(c, y, e, z)
    ensures Work(z.pool.nodes, y.log) + (if IsWork(e.step) then 1 else 0) <= Work(y.pool.nodes, y.log)
  {
    hide Next, Weight, Core;
    InvCore(c, y);
    forall i | 0 <= i < |y.log| ensures y.log[i].id in y.pool.nodes && y.log[i].id in z.pool.nodes
      ensures Weight(z.pool.nodes[y.log[i].id]) <= Weight(y.pool.nodes[y.log[i].id])
    {
      InLog(c, y, i);
      WeightFalls(c, y, e, z, y.log[i].id);
    }
    if IsWork(e.step) {
      RunningFollows(c, y, e, z);
      var k := WorkIndex(c, y, e.step.id);
      WeightFalls(c, y, e, z, y.log[k].id);
    }
    WorkMonotone(y.pool.nodes, z.pool.nodes, y.log);
  }

  lemma InLog(c: Config, y: System, i: nat)
    requires Inv(c, y) && i < |y.log|
    ensures y.log[i].id in y.pool.nodes
  {
  }

  lemma WorkIndex(c: Config, y: System, id: Id) returns (k: nat)
    requires Inv(c, y) && (id in y.pool.running || Has(y.pool, id, Ready))
    ensures k < |y.log| && y.log[k].id == id
  {
    k := IndexInLog(y.pool, y.log, id);
  }

  function WorkSteps(es: seq<Event>): nat {
    if es == [] then 0 else WorkSteps(es[..|es| - 1]) + if IsWork(es[|es| - 1].step) then 1 else 0
  }

  lemma LogGrows(c: Config, y: System, e: Event, z: System)
    requires Inv(c, y) && Next(c, y, e, z)
    ensures Work(z.pool.nodes, z.log) + 2 * |y.log| <= Work(z.pool.nodes, y.log) + 2 * |z.log|
    ensures |y.log| <= |z.log|
  {
    hide Inv, IsPick, Cancel, Pause, Resume, Checkpoint, Finalize, Submit, InputsFor;
    RunningFollows(c, y, e, z);
    if z.log != y.log {
      assert z.log[..|y.log|] == y.log;
    }
  }

  /**
   In every run, pauses and cancels included, every accepted task accounts for at most two steps of the workers:
   after finitely many submissions the workers do finitely much.
   */
  lemma {:induction false} WorkIsBounded(c: Config, ss: seq<System>, es: seq<Event>, i: nat)
    requires Normal(c) && IsRun(c, ss, es) && i < |ss|
    ensures WorkSteps(es[..i]) + Work(ss[i].pool.nodes, ss[i].log) <= 2 * |ss[i].log|
  {
    hide Inv, Next;
    if i == 0 {
    } else {
      WorkIsBounded(c, ss, es, i - 1);
      RunKeepsInv(c, ss, es, i - 1);
      assert Next(c, ss[i - 1], es[i - 1], ss[i - 1 + 1]);
      WorkStep(c, ss[i - 1], es[i - 1], ss[i]);
      LogGrows(c, ss[i - 1], es[i - 1], ss[i]);
      assert es[..i][..i - 1] == es[..i - 1];
    }
  }

  /** The workers cannot continue: there is nothing to dispatch and no stage to return, now or later. */
  ghost predicate Stuck(c: Config, y: System) {
    forall e: Event, z: System :: IsWork(e.step) ==> !Next(c, y, e, z)
  }

  lemma CanWork(c: Config, y: System) returns (e: Event, z: System)
    requires Normal(c) && Inv(c, y) && NonePaused(y.pool) && (y.pool.running != {} || y.pool.ready != {})
    ensures IsWork(e.step) && Next(c, y, e, z)
  {
    hide Core, IsPick, NonePaused, Finalize, Dispatch;
    if y.pool.running == {} {
      var r := PickReady(c, y);
      PickFits(c, y.pool, y.clock, r);
      e := Event(DoDispatch(r), y.clock);
      z := y.(pool := Dispatch(y.pool, r, y.clock), flight := y.flight[r := InputsFor(y.pool, r)]);
    } else {
      var id :| id in y.pool.running;
      InvAt(c, y, id);
      NotPaused(y.pool, id);
      e := Event(DoFinalize(id, Success(map[])), y.clock);
      z := y.(pool := Finalize(y.pool, id, Success(map[]), y.clock), flight := y.flight - {id});
    }
  }

  lemma PickReady(c: Config, y: System) returns (id: Id)
    requires Inv(c, y) && y.pool.running == {} && y.pool.ready != {}
    ensures IsPick(c, y.pool, y.clock, Some(id))
  {
    hide IsPick, NodeOk;
    var r := PickExists(c, y.pool, y.clock);
    var first :| first in y.pool.ready;
    IdlePoolIsFree(c, y, first);
    InCandidates(c, y.pool, first);
    assert r.Some? by { SomePick(c, y.pool, y.clock, r); }
    id := r.value;
  }

  lemma SomePick(c: Config, p: Pool, now: nat, r: Option<Id>)
    requires IsPick(c, p, now, r) && p.running == {} && (Candidates(c, p, true) != {} || Candidates(c, p, false) != {})
    ensures r.Some?
  {
  }

  /** Task k, or one of its ancestors, has lost a wakeup. */
  ghost predicate LostAbove(y: System, k: nat) {
    k < |y.log| && (Lost(y.pool, y.log[k].id) || exists i: nat :: Ancestor(y.log, i, k) && LostTask(y, i))
  }

  ghost predicate LostTask(y: System, i: nat) {
    i < |y.log| && Lost(y.pool, y.log[i].id)
  }

  lemma LostAboveStep(y: System, j: nat, k: nat)
    requires j < k < |y.log| && y.log[j].id in y.log[k].deps && LostAbove(y, j)
    ensures LostAbove(y, k)
  {
    hide Lost;
    if Lost(y.pool, y.log[j].id) {
      assert Ancestor(y.log, j, k) && LostTask(y, j);
    } else {
      var i: nat :| Ancestor(y.log, i, j) && LostTask(y, i);
      assert Ancestor(y.log, i, k);
    }
  }

  /** An unfinished task of an idle pool waits for a dependency that is unfinished as well, or is lost. */
  lemma IdleWaits(c: Config, y: System, k: nat) returns (d: Id)
    requires Inv(c, y) && NonePaused(y.pool) && y.pool.running == {} && y.pool.ready == {}
    requires k < |y.log| && Unfinished(y.pool, y.log[k].id) && !Lost(y.pool, y.log[k].id)
    ensures d in y.log[k].deps && !Has(y.pool, d, Succeeded) && !BadNode(y.pool, d)
  {
    var p, x := y.pool, y.log[k].id;
    CoreAt(c, p, y.log, y.stale, x);
    assert Waiting(p.nodes[x].task) && JobOf(p.nodes[x]) == y.log[k] && Surplus(p, x, 0);
    MissingZero(DoneSet(p.nodes), p.nodes[x].task.deps);
    d :| d in p.nodes[x].task.deps && d !in DoneSet(p.nodes);
    hide NodesOk, UseOk, CountOk, EdgesOk, ForwardOk;
    assert !BadNode(p, d);
  }

  lemma {:induction false} UnfinishedIsLost(c: Config, y: System, k: nat)
    requires Inv(c, y) && NonePaused(y.pool) && y.pool.running == {} && y.pool.ready == {}
    requires k < |y.log| && Unfinished(y.pool, y.log[k].id)
    ensures LostAbove(y, k)
    decreases k
  {
    hide Core, Lost, NonePaused;
    if !Lost(y.pool, y.log[k].id) {
      var d := IdleWaits(c, y, k);
      var i := DependencyIndex(c, y, k, d);
      UnfinishedIsLost(c, y, i);
      LostAboveStep(y, i, k);
    }
  }

  lemma DependenciesDone(c: Config, y: System, k: nat, d: Id)
    requires Inv(c, y) && k < |y.log| && y.log[k].id in y.pool.nodes && d in y.log[k].deps
    requires Has(y.pool, y.log[k].id, Succeeded) || Has(y.pool, y.log[k].id, Failed)
    ensures Has(y.pool, d, Succeeded)
  {
    var p, x := y.pool, y.log[k].id;
    assert JobOf(p.nodes[x]) == y.log[k] && Surplus(p, x, 0);
    MissingZero(DoneSet(p.nodes), p.nodes[x].task.deps);
  }

  lemma {:induction false} LostIsUnfinished(c: Config, y: System, k: nat)
    requires Inv(c, y) && LostAbove(y, k) && y.log[k].id in y.pool.nodes && !Has(y.pool, y.log[k].id, Canceled)
    ensures Unfinished(y.pool, y.log[k].id)
    decreases k
  {
    hide Core;
    if !Unfinished(y.pool, y.log[k].id) {
      hide Lost;
      LostUnfinished(y.pool, y.log[k].id);
      var i: nat :| Ancestor(y.log, i, k) && LostTask(y, i);
      var j: nat :| j < k && y.log[j].id in y.log[k].deps && (i == j || Ancestor(y.log, i, j));
      DependenciesDone(c, y, k, y.log[j].id);
      LostIsUnfinished(c, y, j);
      assert false;
    }
  }

  lemma LostUnfinished(p: Pool, x: Id)
    ensures Lost(p, x) ==> Unfinished(p, x)
  {
  }

  /**
   Where a run ends that the workers cannot continue, with nobody paused, pauses and cancels on the way included: of the
   tasks that are not Canceled, those are unfinished that lost a wakeup, or have an ancestor that did, and no others.
   */
  lemma StuckUnfinishedIff(c: Config, ss: seq<System>, es: seq<Event>, k: nat)
    requires Normal(c) && IsRun(c, ss, es) && NonePaused(ss[|es|].pool) && Stuck(c, ss[|es|]) && k < |ss[|es|].log|
    ensures
      var y := ss[|es|];
      && y.log[k].id in y.pool.nodes
      && (!Has(y.pool, y.log[k].id, Canceled) ==> (Unfinished(y.pool, y.log[k].id) <==> LostAbove(y, k)))
  {
    hide Core, Next, NonePaused, LostAbove;
    var y := ss[|es|];
    RunKeepsInv(c, ss, es, |es|);
    InLog(c, y, k);
    if y.pool.running != {} || y.pool.ready != {} {
      var e, z := CanWork(c, y);
      assert false;
    }
    if Unfinished(y.pool, y.log[k].id) { UnfinishedIsLost(c, y, k); }
    if LostAbove(y, k) && !Has(y.pool, y.log[k].id, Canceled) { LostIsUnfinished(c, y, k); }
  }

  /** A run that the workers cannot continue, and that lost no wakeup and left no task paused, finished every task. */
  lemma StuckMeansFinished(c: Config, ss: seq<System>, es: seq<Event>, x: Id)
    requires Normal(c) && IsRun(c, ss, es)
    requires forall i :: 0 <= i < |es| ==> !Skips(ss[i], es[i])
    requires NonePaused(ss[|es|].pool)
    requires Stuck(c, ss[|es|])
    requires x in ss[|es|].pool.nodes
    ensures Terminal(ss[|es|].pool.nodes[x].task.state)
  {
    hide Core, Exact, Stuck, NonePaused, Next;
    var y := ss[|es|];
    RunKeepsInv(c, ss, es, |es|);
    ExactUpTo(c, ss, es, |es|);
    var k := LogIndex(c, y, x);
    StuckUnfinishedIff(c, ss, es, k);
    if LostAbove(y, k) {
      forall i | 0 <= i < |y.log| ensures !Lost(y.pool, y.log[i].id) { NotLost(y.pool, y.log[i].id); }
      assert false;
    }
  }

  lemma NotLost(p: Pool, x: Id)
    requires Exact(p)
    ensures !Lost(p, x)
  {
    if x in p.nodes { assert Counted(p, x); }
  }

  lemma NotPaused(p: Pool, id: Id)
    requires NonePaused(p)
    ensures !Has(p, id, Paused)
  {
  }
}
