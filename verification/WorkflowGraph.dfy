/** The graph of a workflow: storyboard, images, composition; and what follows from it while the scheduler ticks. */
module WorkflowGraph {
  import opened Tasks
  import opened Evaluation
  import opened SimpleModel
  import opened WorkflowModel
  import opened WorkflowRuns

  // ---- What a start submits ----

  /** The storyboard waits for nobody, an image for the storyboard, the composition for all images in order. */
  ghost predicate DependsAsPlanned(deps: seq<Id>, a: Plan, j: nat) {
    && |a.ids| >= 3 && j < |a.ids|
    && (j == 0 ==> deps == [])
    && (0 < j < |a.ids| - 1 ==> |deps| == 1 && deps[0] == a.ids[0])
    && (j == |a.ids| - 1 ==>
          |deps| == |a.ids| - 2 && forall i :: 0 <= i < |deps| ==> deps[i] == a.ids[i + 1])
  }

  ghost predicate SubmittedAsPlanned(e: Entry, a: Plan, j: nat) {
    && PlanOk(a) && j < |a.ids| && a.stages[j].Some?
    && e.task.id == a.ids[j] && DependsAsPlanned(e.task.deps, a, j)
    && e.task.priority == (if j == 0 then 100 else if j == |a.ids| - 1 then 10 else 50)
    && e.task.token == Some(a.token) && e.task.demand == Demand(1, 256, 0)
    && e.task.state == (if j == 0 then Ready else Queued)
    && e.stage == a.stages[j].value && e.outputs == map[]
  }

  ghost predicate PlannedAt(fs: seq<Entry>, start: nat, a: Plan, j: nat) {
    start + j < |fs| && SubmittedAsPlanned(fs[start + j], a, j)
  }

  /** The first k tasks of the plan follow es. */
  ghost predicate Built(es: seq<Entry>, fs: seq<Entry>, a: Plan, k: nat) {
    && |fs| == |es| + k && fs[..|es|] == es
    && forall j: nat :: j < k ==> PlannedAt(fs, |es|, a, j)
  }

  lemma SubmitPlanned(es: seq<Entry>, a: Plan, j: nat, now: nat)
    requires PlanOk(a) && j < |a.ids| && Submit(es, PlanTask(a, j), a.stages[j], now).1.Ok?
    ensures
      var fs := Submit(es, PlanTask(a, j), a.stages[j], now).0;
      |fs| == |es| + 1 && fs[..|es|] == es && SubmittedAsPlanned(fs[|es|], a, j)
  {
  }

  lemma {:induction false} SubmittedBuilt(es: seq<Entry>, a: Plan, k: nat, now: nat)
    requires PlanOk(a) && k <= |a.ids| && forall j :: 0 <= j < k ==> Accepts(es, a, j, now)
    ensures Built(es, Submitted(es, a, k, now), a, k)
  {
    hide Submit, SubmittedAsPlanned;
    if k > 0 {
      var fs, gs := Submitted(es, a, k - 1, now), Submitted(es, a, k, now);
      SubmittedBuilt(es, a, k - 1, now);
      assert Accepts(es, a, k - 1, now);
      SubmitPlanned(fs, a, k - 1, now);
      assert gs[..|es|] == gs[..|fs|][..|es|];
      forall j: nat | j < k ensures PlannedAt(gs, |es|, a, j) {
        if j < k - 1 {
          assert PlannedAt(fs, |es|, a, j) && gs[|es| + j] == gs[..|fs|][|es| + j];
        }
      }
    }
  }

  /** An accepted start adds exactly the storyboard, the images and the composition, and registers the workflow. */
  lemma StartBuildsGraph(es: seq<Entry>, b: Board, a: Plan, now: nat)
    requires PlanOk(a) && Rejected(es, a, 0, now) == |a.ids|
    ensures Built(es, Start(es, b, a, now).0, a, |a.ids|)
    ensures
      var c := Start(es, b, a, now).1;
      && c.calls == b.calls && |c.active| == |b.active| + 1 && c.active[..|b.active|] == b.active
      && c.active[|b.active|].trace == a.trace && c.active[|b.active|].taskIds == a.ids
  {
    hide Accepts, Submitted;
    SubmittedBuilt(es, a, |a.ids|, now);
  }

  // ---- While the scheduler ticks ----

  lemma {:induction false} SubmittedKeepsShape(f: StageFn, es: seq<Entry>, a: Plan, k: nat, now: nat)
    requires PlanOk(a) && k <= |a.ids| && Shape(es) && EntriesAgree(f, es)
    ensures Shape(Submitted(es, a, k, now)) && EntriesAgree(f, Submitted(es, a, k, now))
  {
    hide Shape, EntriesAgree, Submit;
    if k > 0 {
      SubmittedKeepsShape(f, es, a, k - 1, now);
      SubmitKeeps(f, Submitted(es, a, k - 1, now), PlanTask(a, k - 1), a.stages[k - 1], now);
    }
  }

  /** The table after an accepted start and some ticks. */
  ghost function Ticked(f: StageFn, es: seq<Entry>, a: Plan, now: nat, times: seq<nat>): seq<Entry>
    requires PlanOk(a)
  {
    Ticks(f, Submitted(es, a, |a.ids|, now), times)
  }

  /** The tasks of the plan keep their places, ids, dependencies and stages. */
  lemma TickedKeeps(f: StageFn, es: seq<Entry>, a: Plan, now: nat, times: seq<nat>, j: nat)
    requires PlanOk(a) && Rejected(es, a, 0, now) == |a.ids| && Shape(es) && EntriesAgree(f, es) && j < |a.ids|
    ensures
      var gs := Ticked(f, es, a, now, times);
      && Shape(gs) && EntriesAgree(f, gs) && |gs| == |es| + |a.ids| && a.stages[j].Some?
      && gs[|es| + j].task.id == a.ids[j] && DependsAsPlanned(gs[|es| + j].task.deps, a, j)
      && gs[|es| + j].stage == a.stages[j].value
  {
    hide Shape, EntriesAgree, Accepts, Submitted, Ticks, Follows, SubmittedAsPlanned, DependsAsPlanned;
    var fs := Submitted(es, a, |a.ids|, now);
    SubmittedBuilt(es, a, |a.ids|, now);
    SubmittedKeepsShape(f, es, a, |a.ids|, now);
    TicksKeep(f, fs, times);
    assert PlannedAt(fs, |es|, a, j);
    FollowsAt(fs, Ticks(f, fs, times), |es| + j);
    PlannedParts(fs[|es| + j], a, j);
  }

  lemma FollowsAt(es: seq<Entry>, fs: seq<Entry>, i: nat)
    requires Follows(es, fs) && i < |es|
    ensures |fs| == |es| && fs[i].task.id == es[i].task.id && fs[i].task.deps == es[i].task.deps
    ensures fs[i].stage == es[i].stage
  {
  }

  lemma PlannedParts(e: Entry, a: Plan, j: nat)
    requires SubmittedAsPlanned(e, a, j)
    ensures PlanOk(a) && j < |a.ids| && a.stages[j].Some? && e.task.id == a.ids[j]
    ensures DependsAsPlanned(e.task.deps, a, j) && e.stage == a.stages[j].value
  {
  }

  lemma DependencySucceeded(es: seq<Entry>, i: nat, k: nat)
    requires Shape(es) && i < |es| && k < |es| && es[i].task.state != Queued && es[k].task.id in es[i].task.deps
    ensures es[k].task.state == Succeeded
  {
    assert SucceededIn(es, es[k].task.id);
    FindIs(es, k);
  }

  /** What the outputs of the entries are, by id. */
  lemma OutputsOfEntry(es: seq<Entry>, k: nat)
    requires Unique(es) && k < |es|
    ensures es[k].task.id in OutputsIn(es) && OutputsIn(es)[es[k].task.id] == es[k].outputs
  {
    FindIs(es, k);
  }

  /** The entry records what its stage returned. */
  predicate FinishedWith(e: Entry, outcome: Outcome) {
    match outcome
    case Success(outputs) => e.task.state == Succeeded && e.outputs == outputs
    case Failure(error) => e.task.state == if error.category == CancelError then Canceled else Failed
  }

  /** A finished task finished as its stage says on the merged outputs of its dependencies. */
  lemma FinishedOnMerge(f: StageFn, es: seq<Entry>, i: nat)
    requires Shape(es) && EntriesAgree(f, es) && i < |es| && Terminal(es[i].task.state)
    ensures FinishedWith(es[i], f(es[i].stage, Merge(OutputsIn(es), es[i].task.deps)))
  {
    hide Evaluate, Find, EntryOk, Merge;
    var js, E := JobsOf(es), Evaluate(f, JobsOf(es));
    UniqueJobs(es);
    assert EntryMatches(es[i], E[es[i].task.id]);
    forall d | d in js[i].deps
      ensures Earlier(js, d, i) && d in E && d in OutputsIn(es) && E[d] == Done(OutputsIn(es)[d])
    {
      var k :| 0 <= k < i && k < |js| && js[k].id == d;
      DependencySucceeded(es, i, k);
      OutputsOfEntry(es, k);
      assert EntryMatches(es[k], E[es[k].task.id]);
    }
    JudgedByItself(f, js, i, OutputsIn(es));
  }

  lemma ImageIsDependency(deps: seq<Id>, a: Plan, j: nat)
    requires |a.ids| >= 3 && DependsAsPlanned(deps, a, |a.ids| - 1) && 0 < j < |a.ids| - 1
    ensures a.ids[j] in deps && deps == a.ids[1..|a.ids| - 1]
  {
    assert deps[j - 1] == a.ids[j];
    assert |deps| == |a.ids[1..|a.ids| - 1]|;
  }

  /**
   After an accepted start into any table and any number of ticks: the composition has left Queued only if every image
   has Succeeded, and every image only if the storyboard has.
   */
  lemma ComposeWaitsForImages(f: StageFn, es: seq<Entry>, a: Plan, now: nat, times: seq<nat>, j: nat)
    requires PlanOk(a) && Rejected(es, a, 0, now) == |a.ids| && Shape(es) && EntriesAgree(f, es)
    requires 0 < j < |a.ids| - 1
    ensures
      var gs, n := Ticked(f, es, a, now, times), |a.ids|;
      && |gs| == |es| + n
      && (gs[|es| + n - 1].task.state != Queued ==> gs[|es| + j].task.state == Succeeded)
      && (gs[|es| + j].task.state != Queued ==> gs[|es|].task.state == Succeeded)
  {
    hide Shape, EntriesAgree, Ticked;
    var gs, n := Ticked(f, es, a, now, times), |a.ids|;
    TickedKeeps(f, es, a, now, times, 0);
    TickedKeeps(f, es, a, now, times, j);
    TickedKeeps(f, es, a, now, times, n - 1);
    ImageIsDependency(gs[|es| + n - 1].task.deps, a, j);
    if gs[|es| + n - 1].task.state != Queued { DependencySucceeded(gs, |es| + n - 1, |es| + j); }
    if gs[|es| + j].task.state != Queued { DependencySucceeded(gs, |es| + j, |es|); }
  }

  /** The composition has finished. */
  ghost predicate Composed(es: seq<Entry>, gs: seq<Entry>, a: Plan) {
    |a.ids| >= 3 && |gs| == |es| + |a.ids| && Terminal(gs[|es| + |a.ids| - 1].task.state)
  }

  /** The composition, once finished, finished as its stage says on the merged outputs of the images, in their order. */
  lemma ComposeMergesImages(f: StageFn, es: seq<Entry>, a: Plan, now: nat, times: seq<nat>)
    requires PlanOk(a) && Rejected(es, a, 0, now) == |a.ids| && Shape(es) && EntriesAgree(f, es)
    requires Composed(es, Ticked(f, es, a, now, times), a)
    ensures
      var gs, n := Ticked(f, es, a, now, times), |a.ids|;
      && a.stages[n - 1].Some?
      && FinishedWith(gs[|es| + n - 1], f(a.stages[n - 1].value, Merge(OutputsIn(gs), a.ids[1..n - 1])))
  {
    hide Shape, EntriesAgree, Ticked, Merge, OutputsIn, FinishedWith, DependsAsPlanned, Rejected;
    var gs, n := Ticked(f, es, a, now, times), |a.ids|;
    TickedKeeps(f, es, a, now, times, n - 1);
    ImageIsDependency(gs[|es| + n - 1].task.deps, a, 1);
    FinishedOnMerge(f, gs, |es| + n - 1);
  }

  ghost predicate ImageFailed(w: World, j: nat) {
    j < |w.entries| && Bad(w.entries[j].task.state)
  }

  /**
   A workflow one of whose images has failed or was canceled never composes and is never reported complete: started on
   an empty scheduler and then ticked, whatever the other stages do.
   */
  lemma FailedImageStopsWorkflow(f: StageFn, a: Plan, now: nat, ticks: seq<(nat, nat)>, j: nat)
    requires PlanOk(a) && (forall i :: 0 <= i < |a.ids| ==> Submittable([], a, i)) && 0 < j < |a.ids| - 1
    requires ImageFailed(DrivenWorld(f, a, now, ticks), j)
    ensures
      var w := DrivenWorld(f, a, now, ticks);
      && |w.entries| == |a.ids| && w.board.calls == []
      && w.entries[j].task.id == a.ids[j] && w.entries[|a.ids| - 1].task.id == a.ids[|a.ids| - 1]
      && w.entries[|a.ids| - 1].task.state == Queued
  {
    hide Submittable, DrivenWorld, Submitted, Ticks, Tracks, Shape, EntriesAgree, DependsAsPlanned, Rejected, EntriesOk;
    hide SucceededIn;
    IdleTracks();
    TracksEntries([], Board([], []));
    StartAcceptedIff([], a, now);
    DrivenState(f, a, now, ticks);
    EmptyShape(f);
    var w := DrivenWorld(f, a, now, ticks);
    TickedKeeps(f, [], a, now, Times(ticks), j);
    TickedKeeps(f, [], a, now, Times(ticks), |a.ids| - 1);
    ComposeWaitsForImages(f, [], a, now, Times(ticks), j);
    OneWorkflowCalls(w.entries, w.board, a);
    TracksEntries(w.entries, w.board);
    assert !SucceededIn(w.entries, a.ids[j]) by { NotSucceeded(w.entries, j); }
  }

  lemma NotSucceeded(es: seq<Entry>, k: nat)
    requires EntriesOk(es) && k < |es| && es[k].task.state != Succeeded
    ensures !SucceededIn(es, es[k].task.id)
  {
    FindIs(es, k);
  }
}
