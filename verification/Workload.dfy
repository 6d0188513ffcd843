/** The submit calls of the clients, and which jobs they stand for. */
module Workload {
  import opened Tasks
  import opened Evaluation
  import opened PoolModel

  /** A call of submit. */
  datatype Call = Call(task: Task, stage: Option<Stage>)

  function CallJob(call: Call): Job {
    Job(call.task.id, call.task.deps, if call.stage.Some? then call.stage.value else 0, Admitted(call.task).demand)
  }

  function CallJobs(calls: seq<Call>): (log: seq<Job>)
    ensures |log| == |calls| && forall i :: 0 <= i < |calls| ==> log[i] == CallJob(calls[i])
  {
    seq(|calls|, i requires 0 <= i < |calls| => CallJob(calls[i]))
  }

  /** Every call has a stage and a fresh descriptor with a new, non-empty id that depends on earlier calls only. */
  ghost predicate CallsOk(calls: seq<Call>) {
    && Distinct(CallJobs(calls))
    && forall i :: 0 <= i < |calls| ==>
      && calls[i].stage.Some? && calls[i].task.id != "" && Initial(calls[i].task)
      && AllEarlier(CallJobs(calls), i)
  }

  lemma CallsOkFront(calls: seq<Call>, k: nat)
    requires CallsOk(calls) && k <= |calls|
    ensures CallsOk(calls[..k])
  {
    hide CallJob, Initial;
    var js, front := CallJobs(calls), CallJobs(calls[..k]);
    assert forall i :: 0 <= i < k ==> front[i] == js[i];
    forall i, d | 0 <= i < k && d in front[i].deps ensures Earlier(front, d, i) {
      assert AllEarlier(js, i);
      var j :| 0 <= j < i && j < |js| && js[j].id == d;
      assert front[j].id == d;
    }
  }

  // ---- Calls that name accepted dependencies ----

  predicate Admissible(cpuHard: int, log: seq<Job>, call: Call) {
    call.stage.Some? && call.task.id != "" && call.task.id !in Ids(log) && Admitted(call.task).demand.cpu <= cpuHard
  }

  /** The accepted jobs, if every call names accepted dependencies only. */
  function AdmitAll(cpuHard: int, calls: seq<Call>): seq<Job> {
    if calls == [] then []
    else
      var log, last := AdmitAll(cpuHard, calls[..|calls| - 1]), calls[|calls| - 1];
      if Admissible(cpuHard, log, last) then log + [CallJob(last)] else log
  }

  ghost predicate KnownDeps(cpuHard: int, calls: seq<Call>) {
    forall i, d :: 0 <= i < |calls| && d in calls[i].task.deps ==> d in Ids(AdmitAll(cpuHard, calls[..i]))
  }

  lemma KnownDepsFront(cpuHard: int, calls: seq<Call>)
    requires KnownDeps(cpuHard, calls) && calls != []
    ensures KnownDeps(cpuHard, calls[..|calls| - 1])
  {
    hide AdmitAll;
    var front := calls[..|calls| - 1];
    forall i, d | 0 <= i < |front| && d in front[i].task.deps ensures d in Ids(AdmitAll(cpuHard, front[..i])) {
      assert front[..i] == calls[..i] && front[i] == calls[i];
    }
  }

  ghost predicate AllFit(cpuHard: int, calls: seq<Call>) {
    forall i :: 0 <= i < |calls| ==> Admitted(calls[i].task).demand.cpu <= cpuHard
  }

  /** Acceptable calls that fit the CPU budget are all admitted. */
  lemma {:induction false} AllAdmitted(cpuHard: int, calls: seq<Call>)
    requires CallsOk(calls) && AllFit(cpuHard, calls)
    ensures AdmitAll(cpuHard, calls) == CallJobs(calls)
  {
    hide CallJob, Admitted, Initial;
    if calls != [] {
      var k, js := |calls| - 1, CallJobs(calls);
      CallsOkFront(calls, k);
      AllAdmitted(cpuHard, calls[..k]);
      var log := AdmitAll(cpuHard, calls[..k]);
      assert forall i :: 0 <= i < k ==> log[i] == js[i];
      JobId(calls[k]);
      assert calls[k].task.id !in Ids(log);
    }
  }

  /** Acceptable calls name accepted dependencies only. */
  lemma AllKnown(cpuHard: int, calls: seq<Call>)
    requires CallsOk(calls) && AllFit(cpuHard, calls)
    ensures KnownDeps(cpuHard, calls)
  {
    forall i, d | 0 <= i < |calls| && d in calls[i].task.deps ensures d in Ids(AdmitAll(cpuHard, calls[..i])) {
      CallsOkFront(calls, i);
      AllAdmitted(cpuHard, calls[..i]);
      hide AdmitAll, CallJob;
      var log, js := CallJobs(calls[..i]), CallJobs(calls);
      JobId(calls[i]);
      assert AllEarlier(js, i);
      var j :| 0 <= j < i && j < |js| && js[j].id == d;
      assert log[j].id == d;
    }
  }

  lemma JobId(call: Call)
    ensures CallJob(call).id == call.task.id && CallJob(call).deps == call.task.deps
  {
  }
}
