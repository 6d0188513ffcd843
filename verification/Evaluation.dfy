/** The meaning of a task graph: evaluate the tasks one by one, in submission order. */
module Evaluation {
  import opened Tasks

  type Stage = nat

  datatype Outcome = Success(outputs: Outputs) | Failure(error: TaskError)

  /** What running each stage on given inputs yields. */
  type StageFn = (Stage, Outputs) -> Outcome

  /** The part of a submitted task that never changes. */
  datatype Job = Job(id: Id, deps: seq<Id>, stage: Stage, demand: Demand)

  /** CanceledHere: the stage itself reported a cancellation. Blocked: some dependency is not Done. */
  datatype Verdict = Done(outputs: Outputs) | FailedHere | CanceledHere | Blocked

  function Ids(log: seq<Job>): set<Id> {
    set i | 0 <= i < |log| :: log[i].id
  }

  ghost predicate Distinct(log: seq<Job>) {
    forall i, j :: 0 <= i < j < |log| ==> log[i].id != log[j].id
  }

  /** Outputs of the dependencies, later dependencies overriding earlier ones. */
  function Merge(src: map<Id, Outputs>, deps: seq<Id>): Outputs {
    if deps == [] then map[]
    else
      var d := deps[|deps| - 1];
      Merge(src, deps[..|deps| - 1]) + (if d in src then src[d] else map[])
  }

  ghost predicate Provides(src: map<Id, Outputs>, d: Id, key: string) {
    d in src && key in src[d]
  }

  /** A merged key carries the value of the last dependency that provides it. */
  lemma {:induction false} MergeLastWins(src: map<Id, Outputs>, deps: seq<Id>, key: string)
    ensures key in Merge(src, deps) <==> exists i :: 0 <= i < |deps| && Provides(src, deps[i], key)
    ensures forall i :: 0 <= i < |deps| && Provides(src, deps[i], key) &&
                        (forall j :: i < j < |deps| ==> !Provides(src, deps[j], key))
                        ==> Merge(src, deps)[key] == src[deps[i]][key]
  {
    if deps != [] {
      var front, last := deps[..|deps| - 1], deps[|deps| - 1];
      MergeLastWins(src, front, key);
      forall i | 0 <= i < |front| ensures front[i] == deps[i] {}
      if Provides(src, last, key) {
        assert Provides(src, deps[|deps| - 1], key);
      } else if key in Merge(src, front) {
        var i :| 0 <= i < |front| && Provides(src, front[i], key);
        assert Provides(src, deps[i], key);
      }
    }
  }

  lemma {:induction false} MergeAgrees(a: map<Id, Outputs>, b: map<Id, Outputs>, deps: seq<Id>)
    requires forall d :: d in deps ==> d in a && d in b && a[d] == b[d]
    ensures Merge(a, deps) == Merge(b, deps)
  {
    if deps != [] {
      MergeAgrees(a, b, deps[..|deps| - 1]);
    }
  }

  function DoneOutputs(m: map<Id, Verdict>): map<Id, Outputs> {
    map d | d in m && m[d].Done? :: m[d].outputs
  }

  predicate AllDone(m: map<Id, Verdict>, deps: seq<Id>) {
    forall d :: d in deps ==> d in m && m[d].Done?
  }

  function Judge(f: StageFn, m: map<Id, Verdict>, job: Job): Verdict {
    if !AllDone(m, job.deps) then Blocked
    else
      match f(job.stage, Merge(DoneOutputs(m), job.deps))
      case Success(outputs) => Done(outputs)
      case Failure(error) => if error.category == CancelError then CanceledHere else FailedHere
  }

  function Evaluate(f: StageFn, log: seq<Job>): map<Id, Verdict> {
    if log == [] then map[]
    else
      var m := Evaluate(f, log[..|log| - 1]);
      var job := log[|log| - 1];
      m[job.id := Judge(f, m, job)]
  }

  /** Evaluating more tasks changes nothing about the tasks already evaluated. */
  lemma {:induction false} EvaluateStable(f: StageFn, log: seq<Job>, i: nat)
    requires Distinct(log) && i < |log|
    ensures Evaluate(f, log).Keys == Ids(log)
    ensures Evaluate(f, log)[log[i].id] == Judge(f, Evaluate(f, log[..i]), log[i])
  {
    hide Judge;
    var front := log[..|log| - 1];
    if front == [] {
      assert Ids(log) == {log[0].id};
      assert log[..0] == [];
    } else {
      EvaluateStable(f, front, if i < |front| then i else 0);
      assert Ids(log) == Ids(front) + {log[|log| - 1].id};
      if i < |front| {
        assert front[..i] == log[..i];
      } else {
        assert front == log[..i];
      }
    }
  }

  lemma PrefixAgrees(f: StageFn, log: seq<Job>, i: nat, k: nat)
    requires Distinct(log) && i < k <= |log|
    ensures log[i].id in Evaluate(f, log) && log[i].id in Evaluate(f, log[..k])
    ensures Evaluate(f, log[..k])[log[i].id] == Evaluate(f, log)[log[i].id]
  {
    EvaluateStable(f, log, i);
    EvaluateStable(f, log[..k], i);
    assert log[..k][..i] == log[..i];
  }

  /** A task with an earlier dependency that is not Done is Blocked. */
  lemma BlockedBy(f: StageFn, log: seq<Job>, i: nat, k: nat)
    requires Distinct(log) && i < k < |log| && log[i].id in log[k].deps
    requires log[i].id in Evaluate(f, log) ==> !Evaluate(f, log)[log[i].id].Done?
    ensures log[k].id in Evaluate(f, log) && Evaluate(f, log)[log[k].id] == Blocked
  {
    PrefixAgrees(f, log, i, k);
    EvaluateStable(f, log, k);
  }

  ghost predicate Earlier(log: seq<Job>, d: Id, k: int) {
    exists i :: 0 <= i < k && i < |log| && log[i].id == d
  }

  /** A task whose dependencies are all earlier and Done gets the result of its own stage. */
  lemma JudgedByItself(f: StageFn, log: seq<Job>, k: nat, inputs: map<Id, Outputs>)
    requires Distinct(log) && k < |log|
    requires forall d :: d in log[k].deps ==>
      && Earlier(log, d, k)
      && d in Evaluate(f, log) && d in inputs && Evaluate(f, log)[d] == Done(inputs[d])
    ensures log[k].id in Evaluate(f, log)
    ensures
      var v := Evaluate(f, log)[log[k].id];
      match f(log[k].stage, Merge(inputs, log[k].deps))
      case Success(outputs) => v == Done(outputs)
      case Failure(error) => v == if error.category == CancelError then CanceledHere else FailedHere
  {
    var m := Evaluate(f, log[..k]);
    forall d | d in log[k].deps ensures d in m && m[d] == Done(inputs[d]) {
      var i :| 0 <= i < k && i < |log| && log[i].id == d;
      PrefixAgrees(f, log, i, k);
    }
    MergeAgrees(DoneOutputs(m), inputs, log[k].deps);
    EvaluateStable(f, log, k);
  }

  // ---- Blocked tasks and their ancestors ----

  /** Task i is reached from task k by going from tasks to dependencies that come earlier. */
  ghost predicate Ancestor(log: seq<Job>, i: nat, k: nat)
    decreases k
  {
    k < |log| && exists j: nat :: j < k && log[j].id in log[k].deps && (i == j || Ancestor(log, i, j))
  }

  /** By its own result, task i did not succeed. */
  ghost predicate FailsItself(f: StageFn, log: seq<Job>, i: nat) {
    i < |log| && log[i].id in Evaluate(f, log) && Evaluate(f, log)[log[i].id] in {FailedHere, CanceledHere}
  }

  ghost predicate FailedAncestor(f: StageFn, log: seq<Job>, k: nat) {
    exists i: nat :: Ancestor(log, i, k) && FailsItself(f, log, i)
  }

  ghost predicate NotDone(f: StageFn, log: seq<Job>, d: Id) {
    d in Evaluate(f, log) ==> !Evaluate(f, log)[d].Done?
  }

  /** An earlier dependency of task k is not Done. */
  ghost predicate HeldBack(f: StageFn, log: seq<Job>, k: nat) {
    k < |log| && exists i: nat :: i < k && log[i].id in log[k].deps && NotDone(f, log, log[i].id)
  }

  ghost predicate AllEarlier(log: seq<Job>, k: nat) {
    k < |log| && forall d :: d in log[k].deps ==> Earlier(log, d, k)
  }

  /** A dependency that does not come earlier is found only in tasks that are held back anyway. */
  ghost predicate Anchored(f: StageFn, log: seq<Job>) {
    forall k: nat :: k < |log| ==> AllEarlier(log, k) || HeldBack(f, log, k)
  }

  lemma BlockedHeldBack(f: StageFn, log: seq<Job>, k: nat)
    requires Distinct(log) && k < |log| && (AllEarlier(log, k) || HeldBack(f, log, k))
    ensures log[k].id in Evaluate(f, log)
    ensures Evaluate(f, log)[log[k].id] == Blocked <==> HeldBack(f, log, k)
  {
    hide Evaluate;
    EvaluateStable(f, log, k);
    var m := Evaluate(f, log[..k]);
    if HeldBack(f, log, k) {
      var i: nat :| i < k && log[i].id in log[k].deps && NotDone(f, log, log[i].id);
      BlockedBy(f, log, i, k);
    } else {
      forall d | d in log[k].deps ensures d in m && m[d].Done? {
        var i :| 0 <= i < k && i < |log| && log[i].id == d;
        PrefixAgrees(f, log, i, k);
      }
    }
  }

  lemma AncestorStep(f: StageFn, log: seq<Job>, j: nat, k: nat)
    requires j < k < |log| && log[j].id in log[k].deps && (FailsItself(f, log, j) || FailedAncestor(f, log, j))
    ensures FailedAncestor(f, log, k)
  {
    hide FailsItself;
    if FailsItself(f, log, j) {
      assert Ancestor(log, j, k);
    } else {
      var i: nat :| Ancestor(log, i, j) && FailsItself(f, log, i);
      assert Ancestor(log, i, k);
    }
  }

  /** A task is Blocked exactly if it has an ancestor that did not succeed by its own result. */
  lemma {:induction false} BlockedIff(f: StageFn, log: seq<Job>, k: nat)
    requires Distinct(log) && Anchored(f, log) && k < |log|
    ensures log[k].id in Evaluate(f, log)
    ensures Evaluate(f, log)[log[k].id] == Blocked <==> FailedAncestor(f, log, k)
    decreases k
  {
    hide Evaluate;
    BlockedHeldBack(f, log, k);
    if HeldBack(f, log, k) {
      var j: nat :| j < k && log[j].id in log[k].deps && NotDone(f, log, log[j].id);
      BlockedIff(f, log, j);
      AncestorStep(f, log, j, k);
    }
    if FailedAncestor(f, log, k) {
      var i: nat :| Ancestor(log, i, k) && FailsItself(f, log, i);
      var j: nat :| j < k && log[j].id in log[k].deps && (i == j || Ancestor(log, i, j));
      if i != j {
        BlockedIff(f, log, j);
        assert FailedAncestor(f, log, j);
      }
      assert HeldBack(f, log, k);
    }
  }

  // ---- Independence of the submission order ----

  ghost predicate SameJobs(log: seq<Job>, log': seq<Job>) {
    forall job :: job in log <==> job in log'
  }

  lemma JobAt(log: seq<Job>, job: Job) returns (i: nat)
    requires job in log
    ensures i < |log| && log[i] == job
  {
    i :| 0 <= i < |log| && log[i] == job;
  }

  /** A dependency that is not Done blocks a task, wherever it stands in the order. */
  lemma NotDoneBlocks(f: StageFn, log: seq<Job>, k: nat, d: Id)
    requires Distinct(log) && k < |log| && d in log[k].deps
    requires NotDone(f, log, d)
    ensures log[k].id in Evaluate(f, log) && Evaluate(f, log)[log[k].id] == Blocked
  {
    hide Evaluate;
    EvaluateStable(f, log, k);
    var front := log[..k];
    if d in Evaluate(f, front) {
      DomainIs(f, front);
      var w :| 0 <= w < k && front[w].id == d;
      PrefixAgrees(f, log, w, k);
    }
  }

  lemma DomainIs(f: StageFn, log: seq<Job>)
    requires Distinct(log)
    ensures Evaluate(f, log).Keys == Ids(log)
  {
    if log != [] { EvaluateStable(f, log, 0); }
  }

  ghost predicate SameBefore(f: StageFn, log: seq<Job>, log': seq<Job>, k: nat) {
    forall i: nat :: i < k && i < |log| ==>
      && log[i].id in Evaluate(f, log) && log[i].id in Evaluate(f, log')
      && Evaluate(f, log')[log[i].id] == Evaluate(f, log)[log[i].id]
  }

  /** The evaluation depends on the set of jobs only, as long as each order lists dependencies before dependents. */
  lemma {:induction false} OrderDoesNotMatter(f: StageFn, log: seq<Job>, log': seq<Job>, k: nat)
    requires Distinct(log) && Distinct(log') && SameJobs(log, log') && Anchored(f, log) && Anchored(f, log') &&
      k < |log|
    ensures log[k].id in Evaluate(f, log) && log[k].id in Evaluate(f, log')
    ensures Evaluate(f, log')[log[k].id] == Evaluate(f, log)[log[k].id]
    decreases k
  {
    hide Evaluate;
    assert SameBefore(f, log, log', k) by {
      forall i: nat | i < k { OrderDoesNotMatter(f, log, log', i); }
    }
    var k' := JobAt(log', log[k]);
    BlockedHeldBack(f, log, k);
    BlockedHeldBack(f, log', k');
    if HeldBack(f, log, k) {
      var i: nat :| i < k && log[i].id in log[k].deps && NotDone(f, log, log[i].id);
      NotDoneBlocks(f, log', k', log[i].id);
    } else if HeldBack(f, log', k') {
      assert false;
    } else {
      SameJudgement(f, log, k, log', k');
    }
  }

  lemma SameJudgement(f: StageFn, log: seq<Job>, k: nat, log': seq<Job>, k': nat)
    requires Distinct(log) && Distinct(log') && k < |log| && k' < |log'| && log[k] == log'[k']
    requires AllEarlier(log, k) && !HeldBack(f, log, k) && AllEarlier(log', k')
    requires SameBefore(f, log, log', k)
    ensures log[k].id in Evaluate(f, log) && log[k].id in Evaluate(f, log')
    ensures Evaluate(f, log')[log[k].id] == Evaluate(f, log)[log[k].id]
  {
    hide Evaluate;
    var inputs := DoneOutputs(Evaluate(f, log));
    forall d | d in log[k].deps
      ensures d in inputs && Evaluate(f, log)[d] == Done(inputs[d])
      ensures d in Evaluate(f, log') && Evaluate(f, log')[d] == Done(inputs[d])
    {
      var i :| 0 <= i < k && i < |log| && log[i].id == d;
    }
    JudgedByItself(f, log, k, inputs);
    JudgedByItself(f, log', k', inputs);
  }
}
