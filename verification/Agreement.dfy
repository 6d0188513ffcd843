/** The thread pool against the single-threaded scheduler on the same accepted tasks. */
module Agreement {
  import opened Tasks
  import opened Evaluation
  import PoolModel
  import PoolRuns
  import PoolInvariants
  import PoolDeterminacy
  import PoolSubmission
  import SimpleModel
  import opened Workload

  /**
   Take any completed clean run of the pool, and tick the single-threaded scheduler once per task on the same jobs.
   Every task that is executed ends in the same state with the same outputs, and the tasks that the pool cancels
   without having started them are exactly those that the other scheduler leaves Queued.
   */
  lemma SchedulersAgree(
      c: PoolModel.Config, f: StageFn, ss: seq<PoolRuns.System>, es: seq<PoolRuns.Event>,
      entries: seq<SimpleModel.Entry>, times: seq<nat>, i: nat)
    requires PoolModel.Normal(c) && PoolDeterminacy.CleanRun(c, f, ss, es)
    requires PoolDeterminacy.AllFinished(ss[|es|])
    requires SimpleModel.Shape(entries) && SimpleModel.EntriesAgree(f, entries)
    requires SimpleModel.JobsOf(entries) == ss[|es|].log && |times| >= |entries| && i < |entries|
    ensures |SimpleModel.Ticks(f, entries, times)| == |entries| && entries[i].task.id in ss[|es|].pool.nodes
    ensures
      var e, n := SimpleModel.Ticks(f, entries, times)[i], ss[|es|].pool.nodes[entries[i].task.id];
      && (e.task.state == Queued <==> n.task.startedAt.None?)
      && (e.task.state == Queued ==> n.task.state == Canceled)
      && (e.task.state != Queued ==> n.task.state == e.task.state)
      && n.outputs == e.outputs
  {
    hide SimpleModel.Shape, SimpleModel.EntriesAgree, SimpleModel.Ticks, Evaluate, PoolInvariants.Core, PoolRuns.Next;
    hide PoolDeterminacy.Clean;
    var y := ss[|es|];
    PoolRuns.RunKeepsInv(c, ss, es, |es|);
    assert SimpleModel.JobsOf(entries)[i].id == entries[i].task.id;
    PoolDeterminacy.LoggedNode(c, y, i);
    PoolDeterminacy.FinishedAsJudged(c, f, ss, es, |es|, entries[i].task.id);
    SimpleModel.TicksReachEvaluation(f, entries, times, i);
  }

  /**
   The same for the calls of the clients: take any completed clean run of the pool whose submit calls are acceptable,
   make the same calls to an empty single-threaded scheduler, and tick it once per task.
   */
  lemma SameCallsAgree(
      c: PoolModel.Config, f: StageFn, ss: seq<PoolRuns.System>, es: seq<PoolRuns.Event>,
      now: nat, times: seq<nat>, i: nat)
    requires PoolModel.Normal(c) && PoolDeterminacy.CleanRun(c, f, ss, es) && PoolDeterminacy.AllFinished(ss[|es|])
    requires
      var calls := PoolSubmission.CallsOf(es);
      && CallsOk(calls) && AllFit(c.cpuHard, calls)
      && |times| >= |calls| && i < |calls|
    ensures
      var calls := PoolSubmission.CallsOf(es);
      var fs, id := SimpleModel.Ticks(f, SimpleModel.SubmitAll(calls, now), times), calls[i].task.id;
      && |fs| == |calls| && id in ss[|es|].pool.nodes && ss[|es|].log == CallJobs(calls)
      && var e, n := fs[i], ss[|es|].pool.nodes[id];
         && e.task.id == id
         && (e.task.state == Queued <==> n.task.startedAt.None?)
         && (e.task.state == Queued ==> n.task.state == Canceled)
         && (e.task.state != Queued ==> n.task.state == e.task.state)
         && n.outputs == e.outputs
  {
    hide SimpleModel.Shape, SimpleModel.EntriesAgree, SimpleModel.Ticks, Evaluate, PoolDeterminacy.CleanRun, CallsOk;
    var calls := PoolSubmission.CallsOf(es);
    var entries := SimpleModel.SubmitAll(calls, now);
    AllAdmitted(c.cpuHard, calls);
    AllKnown(c.cpuHard, calls);
    assert es[..|es|] == es;
    CleanIsRun(c, f, ss, es);
    PoolSubmission.AcceptedByCalls(c, ss, es, |es|);
    SimpleModel.SubmitAllAccepted(f, calls, now);
    assert SimpleModel.JobsOf(entries)[i] == CallJobs(calls)[i];
    JobId(calls[i]);
    SchedulersAgree(c, f, ss, es, entries, times, i);
    SimpleModel.TicksReachVerdict(f, entries, times, i);
  }

  lemma CleanIsRun(c: PoolModel.Config, f: StageFn, ss: seq<PoolRuns.System>, es: seq<PoolRuns.Event>)
    requires PoolDeterminacy.CleanRun(c, f, ss, es)
    ensures PoolRuns.IsRun(c, ss, es) && |ss| == |es| + 1
  {
  }
}
