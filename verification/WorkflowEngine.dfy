/** The workflow engine as the class it is, on top of the single-threaded scheduler. */
module Engine {
  import opened Tasks
  import opened Evaluation
  import opened SimpleModel
  import opened WorkflowModel
  import WorkflowRuns
  import Simple

  type Plan = WorkflowRuns.Plan

  datatype StartResult = Started(trace: string) | StartErr(error: TaskError)

  lemma {:induction false} RejectedIs(es: seq<Entry>, a: Plan, i: nat, k: nat, now: nat)
    requires WorkflowRuns.PlanOk(a) && i <= k <= |a.ids|
    requires forall j :: i <= j < k ==> WorkflowRuns.Accepts(es, a, j, now)
    requires k < |a.ids| ==> !WorkflowRuns.Accepts(es, a, k, now)
    ensures WorkflowRuns.Rejected(es, a, i, now) == k
    decreases k - i
  {
    hide WorkflowRuns.Accepts;
    if i < k { RejectedIs(es, a, i + 1, k, now); }
  }

  lemma OwnerIs(ws: seq<Workflow>, id: Id, k: nat)
    requires k <= |ws| && (forall i :: 0 <= i < k ==> id !in ws[i].taskIds) && (k < |ws| ==> id in ws[k].taskIds)
    ensures Owner(ws, id) == k
  {
  }

  class WorkflowEngine {
    const scheduler: Simple.SimpleScheduler
    var active: seq<Workflow>
    /** The calls of the completion callback so far. */
    var calls: seq<Completion>

    function View(): Board
      reads this
    {
      Board(active, calls)
    }

    constructor (s: Simple.SimpleScheduler)
      ensures scheduler == s && View() == Board([], [])
    {
      scheduler, active, calls := s, [], [];
    }

    method HandleStateChange(id: Id, state: TaskState)
      modifies this
      ensures View() == Handle(old(View()), Note(id, state))
    {
      var k := 0;
      while k < |active| && id !in active[k].taskIds
        invariant k <= |active| && View() == old(View())
        invariant forall i :: 0 <= i < k ==> id !in active[i].taskIds
      {
        k := k + 1;
      }
      OwnerIs(active, id, k);
      if k == |active| {
        return;
      }
      var w := active[k];
      if state == Succeeded {
        w := w.(completed := w.completed + 1);
      } else if state == Failed || state == Canceled {
        w := w.(failed := true);
      }
      if w.completed == w.total {
        w := w.(outputPath := OUTPUT_PATH);
        calls := calls + [Completion(w.trace, true, w.outputPath)];
      }
      active := active[k := w];
    }

    /** The scheduler's notifications reach the engine in order. */
    method Deliver(notes: seq<Note>)
      modifies this
      ensures View() == HandleAll(old(View()), notes)
    {
      hide Handle;
      var i := 0;
      while i < |notes|
        invariant i <= |notes| && View() == HandleAll(old(View()), notes[..i])
      {
        HandleStateChange(notes[i].id, notes[i].state);
        assert notes[..i + 1][..i] == notes[..i];
        i := i + 1;
      }
      assert notes[..i] == notes;
    }

    method CancelTasks(ids: seq<Id>, now: nat)
      modifies this, scheduler
      ensures (scheduler.entries, View()) == WorkflowRuns.CancelTasks(old(scheduler.entries), old(View()), ids, now)
    {
      hide Handle, Change;
      ghost var es, b := scheduler.entries, View();
      var i := 0;
      while i < |ids|
        invariant i <= |ids|
        invariant (scheduler.entries, View()) == WorkflowRuns.CancelTasks(es, b, ids[..i], now)
      {
        ghost var before := scheduler.entries;
        var r, notes := scheduler.Cancel(ids[i], now);
        Deliver(notes);
        assert ids[..i + 1][..i] == ids[..i];
        if r.Ok? { SingleNote(WorkflowRuns.CancelTasks(es, b, ids[..i], now).1, Note(ids[i], Canceled)); }
        i := i + 1;
      }
      assert ids[..i] == ids;
    }

    /** Submits the j-th task; if it is rejected, everything submitted so far is rolled back. */
    method SubmitTask(a: Plan, j: nat, now: nat, ghost es: seq<Entry>) returns (ok: bool)
      requires WorkflowRuns.PlanOk(a) && j < |a.ids| && scheduler.entries == WorkflowRuns.Submitted(es, a, j, now)
      modifies this, scheduler
      ensures ok <==> WorkflowRuns.Accepts(es, a, j, now)
      ensures ok ==> scheduler.entries == WorkflowRuns.Submitted(es, a, j + 1, now) && View() == old(View())
      ensures !ok ==>
        && var entries := WorkflowRuns.Submitted(es, a, j, now);
           (scheduler.entries, View()) == WorkflowRuns.CancelTasks(entries, old(View()), a.ids[..j + 1], now)
    {
      hide SimpleModel.Submit, WorkflowRuns.CancelTasks;
      var r := scheduler.Submit(WorkflowRuns.PlanTask(a, j), a.stages[j], now);
      if r.Err? {
        RejectionKeeps(WorkflowRuns.Submitted(es, a, j, now), WorkflowRuns.PlanTask(a, j), a.stages[j], now);
        CancelTasks(a.ids[..j + 1], now);
        return false;
      }
      return true;
    }

    method StartWorkflow(configured: bool, scenes: int, a: Plan, now: nat) returns (r: StartResult)
      requires scenes > 0 ==> |a.ids| == |a.stages| == scenes + 2
      modifies this, scheduler
      ensures !configured || scenes <= 0 ==>
        r.StartErr? && scheduler.entries == old(scheduler.entries) && View() == old(View())
      ensures configured && scenes > 0 ==>
        && (scheduler.entries, View()) == WorkflowRuns.Start(old(scheduler.entries), old(View()), a, now)
        && (r == Started(a.trace) <==> WorkflowRuns.Rejected(old(scheduler.entries), a, 0, now) == |a.ids|)
        && (r.StartErr? <==> WorkflowRuns.Rejected(old(scheduler.entries), a, 0, now) < |a.ids|)
    {
      hide WorkflowRuns.Accepts, WorkflowRuns.Submitted, WorkflowRuns.CancelTasks;
      if !configured {
        return StartErr(INTERNAL_ERROR);
      }
      if scenes <= 0 {
        return StartErr(INTERNAL_ERROR);
      }
      ghost var es := scheduler.entries;
      NothingSubmitted(es, a, now);
      var ok := SubmitTask(a, 0, now, es);
      if !ok {
        RejectedIs(es, a, 0, 0, now);
        return StartErr(INTERNAL_ERROR);
      }
      var i := 0;
      while i < scenes
        invariant 0 <= i <= scenes
        invariant scheduler.entries == WorkflowRuns.Submitted(es, a, i + 1, now) && View() == old(View())
        invariant forall j :: 0 <= j < i + 1 ==> WorkflowRuns.Accepts(es, a, j, now)
      {
        ok := SubmitTask(a, i + 1, now, es);
        if !ok {
          RejectedIs(es, a, 0, i + 1, now);
          return StartErr(INTERNAL_ERROR);
        }
        i := i + 1;
      }
      ok := SubmitTask(a, scenes + 1, now, es);
      if !ok {
        RejectedIs(es, a, 0, scenes + 1, now);
        return StartErr(INTERNAL_ERROR);
      }
      RejectedIs(es, a, 0, scenes + 2, now);
      active := active + [WorkflowRuns.NewWorkflow(a)];
      return Started(a.trace);
    }

    method CancelWorkflow(trace: string, now: nat) returns (r: Result)
      modifies this, scheduler
      ensures r.Err? <==> forall k :: 0 <= k < |old(active)| ==> old(active)[k].trace != trace
      ensures r.Err? ==> scheduler.entries == old(scheduler.entries) && View() == old(View())
      ensures r.Ok? ==> exists k ::
        && 0 <= k < |old(active)| && old(active)[k].trace == trace
        && (forall i :: 0 <= i < k ==> old(active)[i].trace != trace)
        && (scheduler.entries, View()) ==
           WorkflowRuns.CancelTasks(old(scheduler.entries), old(View()), old(active)[k].taskIds, now)
    {
      hide WorkflowRuns.CancelTasks;
      var k := 0;
      while k < |active| && active[k].trace != trace
        invariant k <= |active| && View() == old(View()) && scheduler.entries == old(scheduler.entries)
        invariant forall i :: 0 <= i < k ==> active[i].trace != trace
      {
        k := k + 1;
      }
      if k == |active| {
        return Err(INTERNAL_ERROR);
      }
      CancelTasks(active[k].taskIds, now);
      return Ok;
    }

    /** A tick of the scheduler, with the engine as its callback. */
    method Tick(run: StageFn, reports: nat, now: nat)
      modifies this, scheduler
      ensures scheduler.entries == SimpleModel.Tick(run, old(scheduler.entries), now)
      ensures View() == HandleAll(old(View()), TickNotes(run, reports, old(scheduler.entries), now))
    {
      var notes := scheduler.Tick(run, reports, now);
      Deliver(notes);
    }
  }

  lemma NothingSubmitted(es: seq<Entry>, a: Plan, now: nat)
    requires WorkflowRuns.PlanOk(a)
    ensures WorkflowRuns.Submitted(es, a, 0, now) == es
  {
  }

  lemma RejectionKeeps(es: seq<Entry>, t: Task, stage: Option<Stage>, now: nat)
    ensures SimpleModel.Submit(es, t, stage, now).1.Err? ==> SimpleModel.Submit(es, t, stage, now).0 == es
  {
  }
}
