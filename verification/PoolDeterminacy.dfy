/** Without user control the result of a run depends only on what was accepted, not on how it was scheduled. */
module PoolDeterminacy {
  import opened Tasks
  import opened Graphs
  import opened Evaluation
  import opened PoolModel
  import opened PoolEffects
  import opened PoolInvariants
  import opened PoolRuns
  import opened PoolSubmission
  import opened Workload

  /**
   Hypotheses of a clean run: nobody cancels, pauses or resumes; no two tasks share a cancel token;
   and a stage is a function of its inputs.
   */
  ghost predicate Clean(f: StageFn, y: System, e: Event) {
    match e.step
    case DoSubmit(t, _) =>
      t.token.Some? ==> t.token.value.Given? && forall x :: x in y.pool.nodes ==> TokenOf(y.pool.nodes[x]) != t.token
    case DoDispatch(_) => true
    case DoCheckpoint(_) => true
    case DoFinalize(id, outcome) =>
      id in y.pool.nodes && id in y.flight && outcome == f(y.pool.nodes[id].stage, y.flight[id])
    case _ => false
  }

  /** Cancellation was requested on tokens of Canceled tasks only, and no token is shared. */
  ghost predicate TokensOk(p: Pool) {
    && (forall x :: x in p.nodes ==>
          && TokenOf(p.nodes[x]).Some?
          && (TokenOf(p.nodes[x]).value.Private? ==> TokenOf(p.nodes[x]).value.owner == x)
          && (TokenOf(p.nodes[x]).value in p.tokens ==> p.nodes[x].task.state == Canceled))
    && (forall x, y :: x in p.nodes && y in p.nodes && x != y ==> TokenOf(p.nodes[x]) != TokenOf(p.nodes[y]))
    && (forall k :: k in p.tokens ==> exists x :: x in p.nodes && TokenOf(p.nodes[x]) == Some(k))
  }

  predicate PlainNode(n: Node) {
    && !n.pauseRequested && n.task.state != Paused
    && (n.task.state != Succeeded ==> n.outputs == map[])
  }

  /** A Canceled task that was started was canceled by its own stage, one that was not was blocked. */
  predicate Matches(n: Node, v: Verdict) {
    match n.task.state
    case Succeeded => v == Done(n.outputs)
    case Failed => v == FailedHere
    case Canceled => v == if n.task.startedAt.Some? then CanceledHere else Blocked
    case _ => true
  }

  ghost predicate Agrees(f: StageFn, y: System) {
    forall x :: x in y.pool.nodes ==> x in Evaluate(f, y.log) && Matches(y.pool.nodes[x], Evaluate(f, y.log)[x])
  }

  ghost predicate PlainOk(p: Pool) {
    forall x :: x in p.nodes ==> PlainNode(p.nodes[x])
  }

  ghost predicate FlightOk(y: System) {
    forall x :: x in y.flight && Has(y.pool, x, Running) ==> y.flight[x] == InputsFor(y.pool, x)
  }

  ghost predicate CleanInv(f: StageFn, y: System) {
    TokensOk(y.pool) && PlainOk(y.pool) && FlightOk(y) && Agrees(f, y)
  }

  lemma EvaluatesAll(f: StageFn, c: Config, y: System, x: Id)
    requires Inv(c, y) && x in y.pool.nodes
    ensures x in Evaluate(f, y.log)
  {
    var k := IndexInLog(y.pool, y.log, x);
    EvaluateStable(f, y.log, k);
  }

  // ---- Submission ----

  lemma SubmitNode(c: Config, p: Pool, t: Task, stage: Option<Stage>, now: nat, x: Id)
    requires Initial(t)
    ensures
      var q, r := Submit(c, p, t, stage, now).0, Submit(c, p, t, stage, now).1;
      && q.tokens == p.tokens && q.running == p.running
      && (r.Err? ==> q.nodes == p.nodes)
      && (r.Ok? ==> t.id !in p.nodes && q.nodes.Keys == p.nodes.Keys + {t.id})
      && (r.Ok? && x != t.id && x in p.nodes ==> q.nodes[x] == p.nodes[x])
      && (r.Ok? ==>
            && PlainNode(q.nodes[t.id]) && TokenOf(q.nodes[t.id]) == Admitted(t).token
            && q.nodes[t.id].task.state in {Queued, Ready, Canceled}
            && q.nodes[t.id].task.deps == t.deps && q.nodes[t.id].task.startedAt.None?)
      && (r.Ok? && Has(q, t.id, Canceled) ==> exists d :: d in t.deps && BadNode(p, d))
  {
    hide CreatesCycle, Missing;
    var k := StopAt(p.nodes, t.id, t.deps);
    var q, r := Submit(c, p, t, stage, now).0, Submit(c, p, t, stage, now).1;
    if r.Ok? && k < |t.deps| {
      assert t.deps[k] in t.deps && BadNode(p, t.deps[k]);
    }
  }

  lemma SubmitTokens(c: Config, f: StageFn, y: System, t: Task, stage: Option<Stage>, now: nat)
    requires TokensOk(y.pool) && Initial(t) && Clean(f, y, Event(DoSubmit(t, stage), now))
    ensures TokensOk(Submit(c, y.pool, t, stage, now).0)
  {
    hide Submit;
    var p, q := y.pool, Submit(c, y.pool, t, stage, now).0;
    SubmitNode(c, p, t, stage, now, t.id);
    forall x | x in p.nodes && x != t.id ensures x in q.nodes && q.nodes[x] == p.nodes[x] {
      SubmitNode(c, p, t, stage, now, x);
    }
  }

  lemma AppendAgrees(f: StageFn, log: seq<Job>, job: Job, k: nat)
    requires Distinct(log + [job]) && k < |log|
    ensures log[k].id in Evaluate(f, log) && log[k].id in Evaluate(f, log + [job])
    ensures Evaluate(f, log + [job])[log[k].id] == Evaluate(f, log)[log[k].id]
  {
    var log' := log + [job];
    assert log'[..|log|] == log;
    PrefixAgrees(f, log', k, |log|);
  }

  lemma SubmitAgrees(c: Config, f: StageFn, y: System, t: Task, stage: Option<Stage>, now: nat, z: System)
    requires Inv(c, y) && Inv(c, z) && Agrees(f, y) && Initial(t) && z == AfterSubmit(c, y, t, stage, now)
    ensures Agrees(f, z)
  {
    hide Submit, Evaluate, Core;
    SubmitNode(c, y.pool, t, stage, now, t.id);
    if z.log != y.log {
      var job := z.log[|y.log|];
      forall x | x in z.pool.nodes
        ensures x in Evaluate(f, z.log) && Matches(z.pool.nodes[x], Evaluate(f, z.log)[x])
      {
        if x != t.id {
          SubmitNode(c, y.pool, t, stage, now, x);
          var k := LogIndex(c, y, x);
          LogDistinct(c, z);
          AppendAgrees(f, y.log, job, k);
        } else {
          EvaluatesAll(f, c, z, x);
          if Has(z.pool, x, Canceled) {
            var d :| d in t.deps && BadNode(y.pool, d);
            var k := LogIndex(c, y, d);
            LogDistinct(c, z);
            AppendAgrees(f, y.log, job, k);
            BlockedBy(f, z.log, k, |y.log|);
          }
        }
      }
    }
  }

  lemma LogDistinct(c: Config, y: System)
    requires Inv(c, y)
    ensures Distinct(y.log)
  {
  }

  // ---- Inputs never change under a running stage ----

  lemma DepsDone(c: Config, y: System, x: Id, d: Id)
    requires Inv(c, y) && (Has(y.pool, x, Running) || Has(y.pool, x, Ready)) && d in y.pool.nodes[x].task.deps
    ensures Has(y.pool, d, Succeeded)
  {
    DependentDone(y.pool, x, d);
  }

  lemma DependentDone(p: Pool, x: Id, d: Id)
    requires CountOk(p) && (Has(p, x, Running) || Has(p, x, Ready)) && d in p.nodes[x].task.deps
    ensures Has(p, d, Succeeded)
  {
    assert Surplus(p, x, 0);
    MissingZero(DoneSet(p.nodes), p.nodes[x].task.deps);
  }

  lemma InputsStay(c: Config, y: System, q: Pool, x: Id)
    requires Inv(c, y) && Evolves(y.pool, q) && (Has(y.pool, x, Running) || Has(y.pool, x, Ready))
    ensures x in q.nodes && InputsFor(q, x) == InputsFor(y.pool, x)
  {
    hide Core, Merge;
    var p := y.pool;
    forall d | d in p.nodes[x].task.deps
      ensures d in p.nodes && d in q.nodes && q.nodes[d].outputs == p.nodes[d].outputs
    {
      DepsDone(c, y, x, d);
      assert NodeEvolves(p.nodes[d], q.nodes[d]);
    }
    assert NodeEvolves(p.nodes[x], q.nodes[x]);
    MergeAgrees(OutputsOf(p.nodes), OutputsOf(q.nodes), p.nodes[x].task.deps);
  }

  /** The verdict of a running task is what its stage makes of the inputs it was given. */
  lemma VerdictOfRunning(c: Config, f: StageFn, y: System, id: Id)
    requires Inv(c, y) && Agrees(f, y) && Has(y.pool, id, Running)
    ensures id in Evaluate(f, y.log)
    ensures
      var v := Evaluate(f, y.log)[id];
      match f(y.pool.nodes[id].stage, InputsFor(y.pool, id))
      case Success(outputs) => v == Done(outputs)
      case Failure(error) => v == if error.category == CancelError then CanceledHere else FailedHere
  {
    hide Core, Merge, Evaluate;
    var k := LogIndex(c, y, id);
    LogDistinct(c, y);
    forall d | d in y.log[k].deps
      ensures Earlier(y.log, d, k) && d in Evaluate(f, y.log) && d in OutputsOf(y.pool.nodes)
      ensures Evaluate(f, y.log)[d] == Done(OutputsOf(y.pool.nodes)[d])
    {
      DepsDone(c, y, id, d);
      DepEarlier(c, y, k, d);
      assert Matches(y.pool.nodes[d], Evaluate(f, y.log)[d]);
    }
    assert Merge(OutputsOf(y.pool.nodes), y.log[k].deps) == InputsFor(y.pool, id);
    JudgedByItself(f, y.log, k, OutputsOf(y.pool.nodes));
  }

  lemma DepEarlier(c: Config, y: System, k: nat, d: Id)
    requires Inv(c, y) && k < |y.log| && !Has(y.pool, y.log[k].id, Canceled) && d in y.log[k].deps
    ensures d in y.pool.nodes && Earlier(y.log, d, k)
  {
    var i := DependencyIndex(c, y, k, d);
  }

  // ---- Returning stages ----

  lemma SuccessNode(p: Pool, id: Id, outputs: Outputs, now: nat, x: Id)
    requires Has(p, id, Running) && x in p.nodes
    ensures
      var q := Finalize(p, id, Success(outputs), now);
      && q.nodes.Keys == p.nodes.Keys && q.tokens == p.tokens
      && (x == id ==> q.nodes[x].task.state == Succeeded && q.nodes[x].outputs == outputs)
      && (x != id ==> q.nodes[x].outputs == p.nodes[x].outputs)
      && (x != id ==> q.nodes[x].task.state == p.nodes[x].task.state || (Has(p, x, Queued) && Has(q, x, Ready)))
      && q.nodes[x].pauseRequested == p.nodes[x].pauseRequested && TokenOf(q.nodes[x]) == TokenOf(p.nodes[x])
      && q.nodes[x].task.startedAt == p.nodes[x].task.startedAt
  {
    hide Finalize;
    SuccessEffect(p, id, outputs, now, x);
  }

  /** Whoever is cut off below a task that is not Done is Blocked. */
  lemma CutIsBlocked(c: Config, f: StageFn, y: System, id: Id, x: Id)
    requires Inv(c, y) && id in y.pool.nodes && CutAt(y.pool, id, x)
    requires id in Evaluate(f, y.log) && !Evaluate(f, y.log)[id].Done?
    ensures x in Evaluate(f, y.log) && Evaluate(f, y.log)[x] == Blocked
  {
    hide Core, Evaluate;
    var p, E := y.pool, Evaluate(f, y.log);
    var S := iset v | v in p.nodes ==> v in E && E[v] == Blocked;
    forall v, w | (v == id || v in S) && w in Succ(p.succs, v) ensures w in S {
      if w in p.nodes {
        EdgeBlocks(c, f, y, v, w);
      }
    }
    BelowStays(p.succs, S, id, x);
  }

  lemma EdgeBlocks(c: Config, f: StageFn, y: System, v: Id, w: Id)
    requires Inv(c, y) && w in y.pool.nodes && w in Succ(y.pool.succs, v)
    requires v in y.pool.nodes ==> v in Evaluate(f, y.log) && !Evaluate(f, y.log)[v].Done?
    ensures w in Evaluate(f, y.log) && Evaluate(f, y.log)[w] == Blocked
  {
    hide NodesOk, UseOk, CountOk, Closed, Evaluate;
    assert v in y.pool.nodes && v in y.pool.nodes[w].task.deps;
    var i := IndexInLog(y.pool, y.log, v);
    var k := IndexInLog(y.pool, y.log, w);
    BlockedBy(f, y.log, i, k);
  }

  lemma RunningStarted(c: Config, y: System, id: Id)
    requires Inv(c, y) && Has(y.pool, id, Running)
    ensures y.pool.nodes[id].task.startedAt.Some?
  {
    CoreAt(c, y.pool, y.log, y.stale, id);
  }

  lemma BlockedNotStarted(c: Config, f: StageFn, y: System, x: Id)
    requires Inv(c, y) && Agrees(f, y) && PlainOk(y.pool) && x in y.pool.nodes && !Terminal(y.pool.nodes[x].task.state)
    requires x in Evaluate(f, y.log) && Evaluate(f, y.log)[x] == Blocked
    ensures y.pool.nodes[x].task.startedAt.None?
  {
    hide Core, Evaluate;
    CoreAt(c, y.pool, y.log, y.stale, x);
    assert PlainNode(y.pool.nodes[x]);
    if Has(y.pool, x, Running) {
      VerdictOfRunning(c, f, y, x);
    }
  }

  lemma SuccessAgrees(c: Config, f: StageFn, y: System, id: Id, outputs: Outputs, now: nat, x: Id)
    requires Inv(c, y) && Agrees(f, y) && Has(y.pool, id, Running) && x in y.pool.nodes
    requires f(y.pool.nodes[id].stage, InputsFor(y.pool, id)) == Success(outputs)
    ensures
      var q := Finalize(y.pool, id, Success(outputs), now);
      x in q.nodes && x in Evaluate(f, y.log) && Matches(q.nodes[x], Evaluate(f, y.log)[x])
  {
    hide Inv, Evaluate, Finalize, InputsFor, Matches;
    var q, v := Finalize(y.pool, id, Success(outputs), now), Evaluate(f, y.log);
    SuccessNode(y.pool, id, outputs, now, x);
    if x == id {
      VerdictOfRunning(c, f, y, id);
      MatchesDone(q.nodes[x], v[x]);
    } else {
      MatchesCarry(y.pool.nodes[x], q.nodes[x], v[x]);
    }
  }

  lemma MatchesDone(n: Node, v: Verdict)
    requires n.task.state == Succeeded && v == Done(n.outputs)
    ensures Matches(n, v)
  {
  }

  lemma MatchesCarry(m: Node, n: Node, v: Verdict)
    requires Matches(m, v)
    requires n.task.state == m.task.state || !Terminal(n.task.state)
    requires n.outputs == m.outputs && n.task.startedAt == m.task.startedAt
    ensures Matches(n, v)
  {
  }

  lemma FailureAgrees(c: Config, f: StageFn, y: System, id: Id, outcome: Outcome, now: nat, x: Id)
    requires Inv(c, y) && CleanInv(f, y) && EndsBadly(y.pool, id, outcome) && x in y.pool.nodes
    requires Has(y.pool, id, Running) ==> f(y.pool.nodes[id].stage, InputsFor(y.pool, id)) == outcome
    ensures
      var q := Finalize(y.pool, id, outcome, now);
      x in q.nodes && x in Evaluate(f, y.log) && Matches(q.nodes[x], Evaluate(f, y.log)[x])
  {
    hide Inv, Evaluate, Finalize, TokensOk, InputsFor, Below;
    var p := y.pool;
    FailureEffect(p, id, outcome, now, x);
    if Has(p, id, Running) {
      VerdictOfRunning(c, f, y, id);
      OwnToken(p, id);
      RunningStarted(c, y, id);
    }
    if CutAt(p, id, x) {
      CutIsBlocked(c, f, y, id, x);
      BlockedNotStarted(c, f, y, x);
    }
  }

  lemma FinalizeAgrees(c: Config, f: StageFn, y: System, e: Event, z: System)
    requires Inv(c, y) && CleanInv(f, y) && Next(c, y, e, z) && Clean(f, y, e) && e.step.DoFinalize?
    ensures Agrees(f, z)
  {
    hide Inv, Evaluate, Finalize, TokensOk, InputsFor, Matches;
    var p, q, id, outcome := y.pool, z.pool, e.step.id, e.step.outcome;
    FlightState(c, y, id);
    FinalizeKeys(p, id, outcome, e.now);
    forall x | x in q.nodes ensures x in Evaluate(f, z.log) && Matches(q.nodes[x], Evaluate(f, z.log)[x]) {
      if Has(p, id, Running) && outcome.Success? {
        SuccessAgrees(c, f, y, id, outcome.outputs, e.now, x);
      } else {
        FailureAgrees(c, f, y, id, outcome, e.now, x);
      }
    }
  }

  lemma FinalizeKeys(p: Pool, id: Id, outcome: Outcome, now: nat)
    requires Has(p, id, Running) || Has(p, id, Canceled)
    ensures Finalize(p, id, outcome, now).nodes.Keys == p.nodes.Keys
  {
    hide Finalize;
    if EndsBadly(p, id, outcome) {
      FailureEffect(p, id, outcome, now, id);
    } else {
      SuccessEffect(p, id, outcome.outputs, now, id);
    }
  }

  lemma OwnToken(p: Pool, id: Id)
    requires TokensOk(p) && Has(p, id, Running)
    ensures p.nodes[id].task.token.Some? && p.nodes[id].task.token.value !in p.tokens
  {
    assert TokenOf(p.nodes[id]).value !in p.tokens;
  }

  lemma SuccessPlain(p: Pool, id: Id, outputs: Outputs, now: nat)
    requires PlainOk(p) && TokensOk(p) && Has(p, id, Running)
    ensures
      var q := Finalize(p, id, Success(outputs), now);
      PlainOk(q) && TokensOk(q)
  {
    hide Finalize, TokenOf;
    var q := Finalize(p, id, Success(outputs), now);
    SuccessNode(p, id, outputs, now, id);
    forall x | x in p.nodes
      ensures x in q.nodes && PlainNode(q.nodes[x]) && TokenOf(q.nodes[x]) == TokenOf(p.nodes[x])
      ensures Has(p, x, Canceled) ==> Has(q, x, Canceled)
    {
      SuccessNode(p, id, outputs, now, x);
    }
  }

  lemma FailurePlainNode(p: Pool, id: Id, outcome: Outcome, now: nat, x: Id)
    requires PlainOk(p) && EndsBadly(p, id, outcome) && x in p.nodes
    ensures
      var q := Finalize(p, id, outcome, now);
      && q.nodes.Keys == p.nodes.Keys && PlainNode(q.nodes[x]) && TokenOf(q.nodes[x]) == TokenOf(p.nodes[x])
      && (Has(p, x, Canceled) || CutAt(p, id, x) ==> Has(q, x, Canceled))
  {
    hide Finalize, Below;
    FailureEffect(p, id, outcome, now, x);
  }

  lemma FailurePlain(p: Pool, id: Id, outcome: Outcome, now: nat)
    requires PlainOk(p) && TokensOk(p) && EndsBadly(p, id, outcome)
    ensures
      var q := Finalize(p, id, outcome, now);
      PlainOk(q) && TokensOk(q)
  {
    hide Finalize, TokenOf, PlainNode, TokensOk, Below;
    var q := Finalize(p, id, outcome, now);
    FailurePlainNode(p, id, outcome, now, id);
    forall x | x in p.nodes
      ensures PlainNode(q.nodes[x]) && TokenOf(q.nodes[x]) == TokenOf(p.nodes[x])
      ensures Has(p, x, Canceled) || CutAt(p, id, x) ==> Has(q, x, Canceled)
    {
      FailurePlainNode(p, id, outcome, now, x);
    }
    forall k | k in q.tokens
      ensures k in p.tokens || exists x :: CutAt(p, id, x) && TokenOf(p.nodes[x]) == Some(k)
    {
      FailureTokens(p, id, outcome, now, k);
    }
    FailureTokensOk(p, q, id);
  }

  lemma FinalizePlain(c: Config, f: StageFn, y: System, e: Event, z: System)
    requires Inv(c, y) && CleanInv(f, y) && Next(c, y, e, z) && Clean(f, y, e) && e.step.DoFinalize?
    ensures PlainOk(z.pool) && TokensOk(z.pool)
  {
    hide Inv, Evaluate, Finalize, InputsFor, Agrees, FlightOk, PlainOk, TokensOk;
    var p, id, outcome := y.pool, e.step.id, e.step.outcome;
    FlightState(c, y, id);
    if Has(p, id, Running) && outcome.Success? {
      SuccessPlain(p, id, outcome.outputs, e.now);
    } else {
      FailurePlain(p, id, outcome, e.now);
    }
  }

  lemma FailureTokensOk(p: Pool, q: Pool, id: Id)
    requires TokensOk(p) && q.nodes.Keys == p.nodes.Keys
    requires forall x :: x in p.nodes ==> TokenOf(q.nodes[x]) == TokenOf(p.nodes[x])
    requires forall x :: x in p.nodes && (Has(p, x, Canceled) || CutAt(p, id, x)) ==> Has(q, x, Canceled)
    requires forall k :: k in q.tokens ==>
      k in p.tokens || exists x :: CutAt(p, id, x) && TokenOf(p.nodes[x]) == Some(k)
    ensures TokensOk(q)
  {
    hide Below;
    forall x | x in q.nodes && TokenOf(q.nodes[x]).Some? && TokenOf(q.nodes[x]).value in q.tokens
      ensures q.nodes[x].task.state == Canceled
    {
      var k := TokenOf(q.nodes[x]).value;
      if k !in p.tokens {
        var w :| CutAt(p, id, w) && TokenOf(p.nodes[w]) == Some(k);
        assert w == x;
      }
    }
    forall k | k in q.tokens ensures exists x :: x in q.nodes && TokenOf(q.nodes[x]) == Some(k) {
      if k in p.tokens {
        var x :| x in p.nodes && TokenOf(p.nodes[x]) == Some(k);
        assert TokenOf(q.nodes[x]) == Some(k);
      } else {
        var x :| CutAt(p, id, x) && TokenOf(p.nodes[x]) == Some(k);
        assert TokenOf(q.nodes[x]) == Some(k);
      }
    }
  }

  // ---- Clean runs ----

  lemma FlightStays(c: Config, f: StageFn, y: System, e: Event, z: System)
    requires Inv(c, y) && Inv(c, z) && FlightOk(y) && PlainOk(y.pool) && Next(c, y, e, z) && Clean(f, y, e)
    requires Evolves(y.pool, z.pool)
    ensures FlightOk(z)
  {
    hide Core, InputsFor, Evolves, IsPick, Submit, Finalize, NodeOk;
    forall x | x in z.flight && Has(z.pool, x, Running) ensures z.flight[x] == InputsFor(z.pool, x) {
      FlightWasReady(c, f, y, e, z, x);
      InputsStay(c, y, z.pool, x);
    }
  }

  lemma FlightWasReady(c: Config, f: StageFn, y: System, e: Event, z: System, x: Id)
    requires Inv(c, y) && Inv(c, z) && Next(c, y, e, z) && Clean(f, y, e) && Evolves(y.pool, z.pool) && PlainOk(y.pool)
    requires x in z.flight && Has(z.pool, x, Running)
    ensures if e.step == DoDispatch(x) then Has(y.pool, x, Ready)
      else x in y.flight && Has(y.pool, x, Running) && z.flight[x] == y.flight[x]
  {
    hide Core, InputsFor, IsPick, Submit, Finalize, NodeOk;
    if e.step.DoDispatch? { PickFits(c, y.pool, e.now, e.step.id); }
    if e.step != DoDispatch(x) {
      assert x in y.flight;
      FlightState(c, y, x);
      assert NodeEvolves(y.pool.nodes[x], z.pool.nodes[x]);
    }
  }

  lemma CleanStep(c: Config, f: StageFn, y: System, e: Event, z: System)
    requires Inv(c, y) && CleanInv(f, y) && Next(c, y, e, z) && Clean(f, y, e)
    ensures CleanInv(f, z)
  {
    hide Inv, Evaluate, Finalize, Submit, InputsFor, IsPick, Evolves, KeepsSurplus;
    StepKeepsInv(c, y, e, z);
    FlightStays(c, f, y, e, z);
    match e.step
    case DoSubmit(t, stage) =>
      SubmitAgrees(c, f, y, t, stage, e.now, z);
      SubmitTokens(c, f, y, t, stage, e.now);
      SubmitPlain(c, y.pool, t, stage, e.now);
    case DoDispatch(id) => DispatchClean(c, f, y, e, z);
    case DoCheckpoint(id) => assert z.pool == y.pool && z.log == y.log;
    case DoFinalize(id, outcome) =>
      FinalizeAgrees(c, f, y, e, z);
      FinalizePlain(c, f, y, e, z);
  }

  lemma SubmitPlain(c: Config, p: Pool, t: Task, stage: Option<Stage>, now: nat)
    requires PlainOk(p) && Initial(t)
    ensures PlainOk(Submit(c, p, t, stage, now).0)
  {
    hide Submit;
    SubmitNode(c, p, t, stage, now, t.id);
    forall x | x in p.nodes && x != t.id
      ensures x in Submit(c, p, t, stage, now).0.nodes && Submit(c, p, t, stage, now).0.nodes[x] == p.nodes[x]
    {
      SubmitNode(c, p, t, stage, now, x);
    }
  }

  lemma DispatchTokens(p: Pool, id: Id, now: nat)
    requires TokensOk(p) && Has(p, id, Ready)
    ensures TokensOk(Dispatch(p, id, now))
  {
    var q := Dispatch(p, id, now);
    assert q.nodes[id].task.state == Running && q.nodes[id].task.token == p.nodes[id].task.token;
    hide Dispatch;
    forall x | x in p.nodes
      ensures x in q.nodes && q.nodes[x].task.token == p.nodes[x].task.token
      ensures Has(p, x, Canceled) ==> Has(q, x, Canceled)
    {
    }
    assert q.tokens == p.tokens && q.nodes.Keys == p.nodes.Keys;
    forall k | k in q.tokens ensures exists x :: x in q.nodes && TokenOf(q.nodes[x]) == Some(k) {
      var x :| x in p.nodes && TokenOf(p.nodes[x]) == Some(k);
      assert TokenOf(q.nodes[x]) == Some(k);
    }
  }

  lemma DispatchClean(c: Config, f: StageFn, y: System, e: Event, z: System)
    requires Inv(c, y) && CleanInv(f, y) && Next(c, y, e, z) && e.step.DoDispatch?
    ensures PlainOk(z.pool) && TokensOk(z.pool) && Agrees(f, z)
  {
    hide Inv, Evaluate, InputsFor, IsPick, TokensOk, Runnable, FitsSoft;
    var p, q, id := y.pool, z.pool, e.step.id;
    DispatchedReady(c, p, e.now, id);
    DispatchTokens(p, id, e.now);
    assert q.nodes[id].task.state == Running;
    assert PlainNode(p.nodes[id]);
  }

  lemma DispatchedReady(c: Config, p: Pool, now: nat, id: Id)
    requires IsPick(c, p, now, Some(id))
    ensures Has(p, id, Ready)
  {
    PickFits(c, p, now, id);
  }

  ghost predicate CleanRun(c: Config, f: StageFn, ss: seq<System>, es: seq<Event>) {
    IsRun(c, ss, es) && forall i :: 0 <= i < |es| ==> Clean(f, ss[i], es[i])
  }

  lemma {:induction false} CleanRunInv(c: Config, f: StageFn, ss: seq<System>, es: seq<Event>, i: nat)
    requires Normal(c) && CleanRun(c, f, ss, es) && i < |ss|
    ensures CleanInv(f, ss[i])
  {
    hide Inv, Next, Clean;
    if i > 0 {
      CleanRunInv(c, f, ss, es, i - 1);
      RunKeepsInv(c, ss, es, i - 1);
      assert Clean(f, ss[i - 1], es[i - 1]);
      assert Next(c, ss[i - 1], es[i - 1], ss[i - 1 + 1]);
      CleanStep(c, f, ss[i - 1], es[i - 1], ss[i]);
    }
  }

  // ---- Dependencies of accepted tasks ----

  lemma EarlierAppended(f: StageFn, log: seq<Job>, job: Job, k: nat)
    requires Distinct(log + [job]) && k < |log| && (AllEarlier(log, k) || HeldBack(f, log, k))
    ensures AllEarlier(log + [job], k) || HeldBack(f, log + [job], k)
  {
    hide Evaluate;
    var log' := log + [job];
    if AllEarlier(log, k) {
      forall d | d in log'[k].deps ensures Earlier(log', d, k) {
        var i :| 0 <= i < k && i < |log| && log[i].id == d;
        assert log'[i].id == d;
      }
    } else {
      var i: nat :| i < k && log[i].id in log[k].deps && NotDone(f, log, log[i].id);
      AppendAgrees(f, log, job, i);
      assert log'[i].id in log'[k].deps && NotDone(f, log', log'[i].id);
    }
  }

  /** A new task has its dependencies before it, or one of them is Failed or Canceled already. */
  lemma SubmitAnchors(c: Config, f: StageFn, y: System, t: Task, stage: Option<Stage>, now: nat, z: System)
    requires Inv(c, y) && Inv(c, z) && Agrees(f, y) && Anchored(f, y.log)
    requires Initial(t) && z == AfterSubmit(c, y, t, stage, now)
    ensures Anchored(f, z.log)
  {
    hide Submit, Evaluate, Core, AllEarlier, HeldBack;
    if z.log != y.log {
      var k := |y.log|;
      var job := z.log[k];
      LogDistinct(c, z);
      forall i: nat | i < k ensures AllEarlier(z.log, i) || HeldBack(f, z.log, i) {
        EarlierAppended(f, y.log, job, i);
      }
      SubmitNode(c, y.pool, t, stage, now, t.id);
      NewTaskAnchored(c, f, y, t, z, k);
    }
  }

  lemma NewTaskAnchored(c: Config, f: StageFn, y: System, t: Task, z: System, k: nat)
    requires Inv(c, y) && Inv(c, z) && Agrees(f, y) && k == |y.log| && |z.log| == k + 1 && z.log[..k] == y.log
    requires z.log[k].id == t.id && z.log[k].deps == t.deps && t.id in z.pool.nodes &&
      z.pool.nodes[t.id].task.deps == t.deps
    requires Has(z.pool, t.id, Canceled) ==> exists d :: d in t.deps && BadNode(y.pool, d)
    ensures AllEarlier(z.log, k) || HeldBack(f, z.log, k)
  {
    hide Evaluate, Core;
    if Has(z.pool, t.id, Canceled) {
      var d :| d in t.deps && BadNode(y.pool, d);
      var i := LogIndex(c, y, d);
      LogDistinct(c, z);
      assert z.log == y.log + [z.log[k]];
      AppendAgrees(f, y.log, z.log[k], i);
      assert Matches(y.pool.nodes[d], Evaluate(f, y.log)[d]);
      assert z.log[i].id in z.log[k].deps && NotDone(f, z.log, z.log[i].id);
    } else {
      forall d | d in t.deps ensures Earlier(z.log, d, k) { DepEarlier(c, z, k, d); }
    }
  }

  lemma StepAnchors(c: Config, f: StageFn, y: System, e: Event, z: System)
    requires Inv(c, y) && CleanInv(f, y) && Anchored(f, y.log) && Next(c, y, e, z) && Clean(f, y, e)
    ensures Anchored(f, z.log)
  {
    hide Inv, Evaluate, Finalize, Submit, InputsFor, IsPick, Anchored;
    StepKeepsInv(c, y, e, z);
    match e.step
    case DoSubmit(t, stage) => SubmitAnchors(c, f, y, t, stage, e.now, z);
    case _ =>
  }

  lemma {:induction false} CleanRunAnchored(c: Config, f: StageFn, ss: seq<System>, es: seq<Event>, i: nat)
    requires Normal(c) && CleanRun(c, f, ss, es) && i < |ss|
    ensures Anchored(f, ss[i].log) && Distinct(ss[i].log)
  {
    hide Inv, Next, Clean, CleanInv, Anchored;
    RunKeepsInv(c, ss, es, i);
    LogDistinct(c, ss[i]);
    if i == 0 {
      EmptyAnchored(f);
    } else {
      CleanRunAnchored(c, f, ss, es, i - 1);
      RunKeepsInv(c, ss, es, i - 1);
      CleanRunInv(c, f, ss, es, i - 1);
      assert Clean(f, ss[i - 1], es[i - 1]);
      assert Next(c, ss[i - 1], es[i - 1], ss[i - 1 + 1]);
      StepAnchors(c, f, ss[i - 1], es[i - 1], ss[i]);
    }
  }

  lemma EmptyAnchored(f: StageFn)
    ensures Anchored(f, [])
  {
  }

  // ---- Results ----

  lemma FinishedAsJudged(c: Config, f: StageFn, ss: seq<System>, es: seq<Event>, i: nat, x: Id)
    requires Normal(c) && CleanRun(c, f, ss, es) && i < |ss| && x in ss[i].pool.nodes
    ensures x in Evaluate(f, ss[i].log)
    ensures
      var n, v := ss[i].pool.nodes[x], Evaluate(f, ss[i].log)[x];
      Terminal(n.task.state) ==>
        && (n.task.state == Succeeded <==> v.Done?)
        && (n.task.state == Failed <==> v == FailedHere)
        && (n.task.state == Canceled <==> v == CanceledHere || v == Blocked)
        && (n.task.startedAt.Some? <==> v != Blocked)
        && n.outputs == if v.Done? then v.outputs else map[]
  {
    hide Next, Clean, Evaluate, Core;
    CleanRunInv(c, f, ss, es, i);
    RunKeepsInv(c, ss, es, i);
    CoreAt(c, ss[i].pool, ss[i].log, ss[i].stale, x);
    assert PlainNode(ss[i].pool.nodes[x]);
  }

  /**
   At any time in a clean run, what has finished has finished as the evaluation in submission order says, and the tasks
   that were canceled without having been started are exactly those with an ancestor that failed or canceled itself.
   */
  lemma FinishedAsEvaluated(c: Config, f: StageFn, ss: seq<System>, es: seq<Event>, i: nat, k: nat)
    requires Normal(c) && CleanRun(c, f, ss, es) && i < |ss| && k < |ss[i].log|
    ensures ss[i].log[k].id in ss[i].pool.nodes && ss[i].log[k].id in Evaluate(f, ss[i].log)
    ensures
      var n, v := ss[i].pool.nodes[ss[i].log[k].id], Evaluate(f, ss[i].log)[ss[i].log[k].id];
      Terminal(n.task.state) ==>
        && (n.task.state == Succeeded <==> v.Done?)
        && (n.task.state == Failed <==> v == FailedHere)
        && (n.task.state == Canceled && n.task.startedAt.Some? <==> v == CanceledHere)
        && (n.task.state == Canceled && n.task.startedAt.None? <==> FailedAncestor(f, ss[i].log, k))
        && n.outputs == if v.Done? then v.outputs else map[]
  {
    hide Next, Clean, Evaluate, Core, Anchored, FailedAncestor;
    RunKeepsInv(c, ss, es, i);
    LoggedNode(c, ss[i], k);
    FinishedAsJudged(c, f, ss, es, i, ss[i].log[k].id);
    CleanRunAnchored(c, f, ss, es, i);
    BlockedIff(f, ss[i].log, k);
  }

  lemma LoggedNode(c: Config, y: System, k: nat)
    requires Inv(c, y) && k < |y.log|
    ensures y.log[k].id in y.pool.nodes
  {
  }

  ghost predicate AllFinished(y: System) {
    forall w :: w in y.pool.nodes ==> Terminal(y.pool.nodes[w].task.state)
  }

  /** The stage of task i ran, and the task did not succeed. */
  ghost predicate RanBadly(y: System, i: nat) {
    && i < |y.log| && y.log[i].id in y.pool.nodes
    && Bad(y.pool.nodes[y.log[i].id].task.state) && y.pool.nodes[y.log[i].id].task.startedAt.Some?
  }

  /** After a completed clean run, the tasks that never started are exactly those below a task that ran badly. */
  lemma NeverStartedIff(c: Config, f: StageFn, ss: seq<System>, es: seq<Event>, k: nat)
    requires Normal(c) && CleanRun(c, f, ss, es) && AllFinished(ss[|es|]) && k < |ss[|es|].log|
    ensures
      var y := ss[|es|];
      && y.log[k].id in y.pool.nodes
      && (y.pool.nodes[y.log[k].id].task.startedAt.None? <==> exists i: nat :: Ancestor(y.log, i, k) && RanBadly(y, i))
      && (y.pool.nodes[y.log[k].id].task.startedAt.None? ==> Has(y.pool, y.log[k].id, Canceled))
  {
    hide Next, Clean, Evaluate, Core, Anchored, Ancestor;
    var y := ss[|es|];
    forall i: nat | i < |y.log|
      ensures y.log[i].id in y.pool.nodes && Terminal(y.pool.nodes[y.log[i].id].task.state)
      ensures RanBadly(y, i) <==> FailsItself(f, y.log, i)
    {
      FinishedAsEvaluated(c, f, ss, es, |es|, i);
      FinishedAsJudged(c, f, ss, es, |es|, y.log[i].id);
    }
    FinishedAsEvaluated(c, f, ss, es, |es|, k);
    FinishedAsJudged(c, f, ss, es, |es|, y.log[k].id);
    BadlyIsFailed(f, y, k);
  }

  lemma BadlyIsFailed(f: StageFn, y: System, k: nat)
    requires forall i: nat :: i < |y.log| ==> (RanBadly(y, i) <==> FailsItself(f, y.log, i))
    ensures (exists i: nat :: Ancestor(y.log, i, k) && RanBadly(y, i)) <==> FailedAncestor(f, y.log, k)
  {
    hide Ancestor, Evaluate;
    if i: nat :| Ancestor(y.log, i, k) && RanBadly(y, i) { assert FailsItself(f, y.log, i); }
    if FailedAncestor(f, y.log, k) {
      var i: nat :| Ancestor(y.log, i, k) && FailsItself(f, y.log, i);
      assert RanBadly(y, i);
    }
  }

  /**
   Determinacy: two completed clean runs that accepted the same jobs, in whatever order, with whatever interleavings,
   budgets, priorities and numbers of workers, end with the same states and the same outputs.
   */
  lemma Determinacy(
      c: Config, ss: seq<System>, es: seq<Event>,
      c': Config, ss': seq<System>, es': seq<Event>, f: StageFn, x: Id)
    requires Normal(c) && CleanRun(c, f, ss, es) && Normal(c') && CleanRun(c', f, ss', es')
    requires AllFinished(ss[|es|]) && AllFinished(ss'[|es'|])
    requires SameJobs(ss[|es|].log, ss'[|es'|].log) && x in ss[|es|].pool.nodes
    ensures x in ss'[|es'|].pool.nodes
    ensures ss'[|es'|].pool.nodes[x].task.state == ss[|es|].pool.nodes[x].task.state
    ensures ss'[|es'|].pool.nodes[x].outputs == ss[|es|].pool.nodes[x].outputs
  {
    hide Next, Clean, Evaluate, Core, Anchored;
    var y, y' := ss[|es|], ss'[|es'|];
    RunKeepsInv(c, ss, es, |es|);
    RunKeepsInv(c', ss', es', |es'|);
    CleanRunAnchored(c, f, ss, es, |es|);
    CleanRunAnchored(c', f, ss', es', |es'|);
    var k := LogIndex(c, y, x);
    var k' := JobAt(y'.log, y.log[k]);
    LoggedNode(c', y', k');
    OrderDoesNotMatter(f, y.log, y'.log, k);
    FinishedAsJudged(c, f, ss, es, |es|, x);
    FinishedAsJudged(c', f, ss', es', |es'|, x);
  }

  /**
   Two completed clean runs in which the clients made the same submit calls, each naming accepted dependencies only,
   accepted the same jobs if the CPU budget is the same, and hence end alike.
   */
  lemma SameCallsSameResults(
      c: Config, ss: seq<System>, es: seq<Event>,
      c': Config, ss': seq<System>, es': seq<Event>, f: StageFn, x: Id)
    requires Normal(c) && CleanRun(c, f, ss, es) && Normal(c') && CleanRun(c', f, ss', es')
    requires AllFinished(ss[|es|]) && AllFinished(ss'[|es'|])
    requires CallsOf(es) == CallsOf(es') && c.cpuHard == c'.cpuHard && KnownDeps(c.cpuHard, CallsOf(es))
    requires x in ss[|es|].pool.nodes
    ensures ss'[|es'|].log == ss[|es|].log
    ensures x in ss'[|es'|].pool.nodes
    ensures ss'[|es'|].pool.nodes[x].task.state == ss[|es|].pool.nodes[x].task.state
    ensures ss'[|es'|].pool.nodes[x].outputs == ss[|es|].pool.nodes[x].outputs
  {
    hide Next, Clean, Core;
    assert es[..|es|] == es && es'[..|es'|] == es';
    AcceptedByCalls(c, ss, es, |es|);
    AcceptedByCalls(c', ss', es', |es'|);
    Determinacy(c, ss, es, c', ss', es', f, x);
  }
}
