/** Starting, canceling and driving workflows. */
module WorkflowRuns {
  import opened Tasks
  import opened Evaluation
  import opened SimpleModel
  import opened WorkflowModel
  import PoolModel

  /**
   What start_workflow draws from its surroundings: identifiers for the workflow and its tasks, and the stages the
   factory hands out for them, in submission order.
   */
  datatype Plan = Plan(trace: string, ids: seq<Id>, stages: seq<Option<Stage>>, token: Token)

  ghost predicate PlanOk(a: Plan) {
    |a.ids| >= 3 && |a.stages| == |a.ids|
  }

  /** The j-th task: the storyboard, one image for each scene, and the composition that depends on all images. */
  function PlanTask(a: Plan, j: nat): Task
    requires |a.ids| >= 3 && j < |a.ids|
  {
    var last := |a.ids| - 1;
    Task(a.ids[j], Queued, if j == 0 then 100 else if j < last then 50 else 10, Demand(1, 256, 0),
      if j == 0 then [] else if j < last then [a.ids[0]] else a.ids[1..last], None, None, None, Some(a.token), None)
  }

  ghost function Submitted(es: seq<Entry>, a: Plan, k: nat, now: nat): seq<Entry>
    requires PlanOk(a) && k <= |a.ids|
  {
    if k == 0 then es else Submit(Submitted(es, a, k - 1, now), PlanTask(a, k - 1), a.stages[k - 1], now).0
  }

  ghost predicate Accepts(es: seq<Entry>, a: Plan, j: nat, now: nat)
    requires PlanOk(a) && j < |a.ids|
  {
    Submit(Submitted(es, a, j, now), PlanTask(a, j), a.stages[j], now).1.Ok?
  }

  /** The position of the first rejected submission, or the number of tasks. */
  ghost function Rejected(es: seq<Entry>, a: Plan, j: nat, now: nat): (k: nat)
    requires PlanOk(a) && j <= |a.ids|
    ensures j <= k <= |a.ids|
    ensures forall i :: j <= i < k ==> Accepts(es, a, i, now)
    ensures k < |a.ids| ==> !Accepts(es, a, k, now)
    decreases |a.ids| - j
  {
    if j == |a.ids| || !Accepts(es, a, j, now) then j else Rejected(es, a, j + 1, now)
  }

  /** Cancel the given tasks one by one, with the engine's reactions. */
  function CancelTasks(es: seq<Entry>, b: Board, ids: seq<Id>, now: nat): (seq<Entry>, Board) {
    if ids == [] then (es, b)
    else
      var (fs, c) := CancelTasks(es, b, ids[..|ids| - 1], now);
      Attempted(fs, c, ids[|ids| - 1], Canceled, now)
  }

  function NewWorkflow(a: Plan): Workflow {
    Workflow(a.trace, a.ids, 0, |a.ids|, false, "")
  }

  ghost function Start(es: seq<Entry>, b: Board, a: Plan, now: nat): (seq<Entry>, Board)
    requires PlanOk(a)
  {
    var k := Rejected(es, a, 0, now);
    if k == |a.ids| then (Submitted(es, a, k, now), b.(active := b.active + [NewWorkflow(a)]))
    else CancelTasks(Submitted(es, a, k, now), b, a.ids[..k + 1], now)
  }

  // ---- Accepted tasks ----

  /** es followed by k unfinished tasks with the first k ids of the plan. */
  ghost predicate Extends(es: seq<Entry>, fs: seq<Entry>, a: Plan, k: nat) {
    && k <= |a.ids| && |fs| == |es| + k && fs[..|es|] == es
    && forall j :: 0 <= j < k ==>
      && fs[|es| + j].task.id == a.ids[j] && Initial(fs[|es| + j].task.(state := Queued))
      && fs[|es| + j].task.state in {Queued, Ready}
  }

  lemma SubmitOne(es: seq<Entry>, a: Plan, j: nat, now: nat)
    requires PlanOk(a) && j < |a.ids| && EntriesOk(es)
    ensures
      var (fs, r) := Submit(es, PlanTask(a, j), a.stages[j], now);
      && EntriesOk(fs) && (r.Err? ==> fs == es)
      && (r.Ok? ==>
            && |fs| == |es| + 1 && fs[..|es|] == es && !Known(es, a.ids[j])
            && fs[|es|].task.id == a.ids[j] && Initial(fs[|es|].task.(state := Queued))
            && fs[|es|].task.state in {Queued, Ready})
  {
    var (fs, r) := Submit(es, PlanTask(a, j), a.stages[j], now);
    if r.Ok? {
      forall i | 0 <= i < |es| ensures fs[i] == es[i] {}
      FreshId(es, a.ids[j]);
    }
  }

  lemma {:induction false} SubmittedExtends(es: seq<Entry>, a: Plan, k: nat, now: nat)
    requires PlanOk(a) && k <= |a.ids| && EntriesOk(es) && forall j :: 0 <= j < k ==> Accepts(es, a, j, now)
    ensures EntriesOk(Submitted(es, a, k, now)) && Extends(es, Submitted(es, a, k, now), a, k)
  {
    hide EntriesOk, Submit;
    if k > 0 {
      SubmittedExtends(es, a, k - 1, now);
      assert Accepts(es, a, k - 1, now);
      SubmitOne(Submitted(es, a, k - 1, now), a, k - 1, now);
      ExtendsMore(es, Submitted(es, a, k - 1, now), Submitted(es, a, k, now), a, k - 1);
    }
  }

  lemma ExtendsMore(es: seq<Entry>, fs: seq<Entry>, gs: seq<Entry>, a: Plan, k: nat)
    requires Extends(es, fs, a, k) && k < |a.ids| && |gs| == |fs| + 1 && gs[..|fs|] == fs
    requires gs[|fs|].task.id == a.ids[k] && Initial(gs[|fs|].task.(state := Queued)) &&
      gs[|fs|].task.state in {Queued, Ready}
    ensures Extends(es, gs, a, k + 1)
  {
    forall i | 0 <= i < |fs| ensures gs[i] == fs[i] {}
    assert gs[..|es|] == fs[..|es|];
  }

  /** The accepted ids were unknown before and are distinct. */
  lemma ExtendsFresh(es: seq<Entry>, fs: seq<Entry>, a: Plan, k: nat)
    requires Extends(es, fs, a, k) && Unique(fs)
    ensures DistinctIds(a.ids[..k])
    ensures forall j :: 0 <= j < k ==> !Known(es, a.ids[j]) && Find(fs, a.ids[j]) == |es| + j
    ensures forall x :: Known(es, x) ==> Find(fs, x) == Find(es, x)
  {
    forall i, j | 0 <= i < j < k ensures a.ids[i] != a.ids[j] {
      assert fs[|es| + i].task.id != fs[|es| + j].task.id;
    }
    forall j | 0 <= j < k ensures !Known(es, a.ids[j]) && Find(fs, a.ids[j]) == |es| + j {
      FindIs(fs, |es| + j);
      NotBefore(es, fs, a.ids[j], |es| + j);
    }
    forall x | Known(es, x) ensures Find(fs, x) == Find(es, x) { FindAppend(es, fs, x); }
  }

  lemma NotBefore(es: seq<Entry>, fs: seq<Entry>, id: Id, k: nat)
    requires |es| <= k < |fs| && fs[..|es|] == es && Find(fs, id) == k
    ensures !Known(es, id)
  {
    assert forall i :: 0 <= i < |es| ==> es[i] == fs[i];
  }

  // ---- Rollback ----

  /** The state of a rollback after m cancellations of k accepted tasks. */
  ghost predicate RolledBack(es: seq<Entry>, fs: seq<Entry>, a: Plan, k: nat, m: nat) {
    && m <= k <= |a.ids| && |fs| == |es| + k && fs[..|es|] == es && Unique(fs)
    && forall j :: 0 <= j < k ==>
      && fs[|es| + j].task.id == a.ids[j]
      && if j < m then fs[|es| + j].task.state == Canceled else fs[|es| + j].task.state in {Queued, Ready}
  }

  lemma RollOne(es: seq<Entry>, fs: seq<Entry>, a: Plan, k: nat, m: nat, now: nat)
    requires RolledBack(es, fs, a, k, m) && m < k
    ensures RolledBack(es, Change(fs, a.ids[m], Canceled, now).0, a, k, m + 1)
  {
    FindIs(fs, |es| + m);
    var gs := Change(fs, a.ids[m], Canceled, now).0;
    assert gs[..|es|] == fs[..|es|];
  }

  lemma {:induction false} RollAccepted(es: seq<Entry>, fs: seq<Entry>, b: Board, a: Plan, k: nat, m: nat, now: nat)
    requires RolledBack(es, fs, a, k, 0) && m <= k
    ensures RolledBack(es, CancelTasks(fs, b, a.ids[..m], now).0, a, k, m)
  {
    hide RolledBack, Handle, Change;
    if m > 0 {
      KBound(es, fs, a, k);
      assert a.ids[..m][..m - 1] == a.ids[..m - 1];
      RollAccepted(es, fs, b, a, k, m - 1, now);
      RollOne(es, CancelTasks(fs, b, a.ids[..m - 1], now).0, a, k, m - 1, now);
    }
  }

  lemma KBound(es: seq<Entry>, fs: seq<Entry>, a: Plan, k: nat)
    requires RolledBack(es, fs, a, k, 0)
    ensures k <= |a.ids|
  {
  }

  /** The first k tasks of the plan follow es, and all of them are Canceled. */
  ghost predicate AllCanceled(es: seq<Entry>, fs: seq<Entry>, a: Plan, k: nat) {
    && k <= |a.ids| && |fs| == |es| + k
    && forall j :: 0 <= j < k ==> fs[|es| + j].task.id == a.ids[j] && fs[|es| + j].task.state == Canceled
  }

  /** An unfinished task of somebody else already has the id of the rejected submission. */
  ghost predicate Collides(es: seq<Entry>, id: Id) {
    Known(es, id) && !Terminal(es[Find(es, id)].task.state)
  }

  /**
   A failed start cancels every task it got accepted, registers no workflow and makes no completion call. The tasks
   that were there before are unchanged exactly if the id of the rejected submission is not that of an unfinished one.
   */
  lemma FailedStartRollsBack(es: seq<Entry>, b: Board, a: Plan, now: nat)
    requires PlanOk(a) && Tracks(es, b) && Rejected(es, a, 0, now) < |a.ids|
    ensures
      var k, (fs, c) := Rejected(es, a, 0, now), Start(es, b, a, now);
      && AllCanceled(es, fs, a, k)
      && (fs[..|es|] == es <==> !Collides(es, a.ids[k]))
      && (Collides(es, a.ids[k]) ==> fs[Find(es, a.ids[k])].task.state == Canceled)
      && (forall i :: 0 <= i < |es| && es[i].task.id != a.ids[k] ==> fs[i] == es[i])
      && |c.active| == |b.active| && c.calls == b.calls && Tracks(fs, c)
  {
    hide Tracks, CancelTasks, Accepts, RolledBack, Handle;
    var k := Rejected(es, a, 0, now);
    var gs := Submitted(es, a, k, now);
    TracksEntries(es, b);
    SubmittedExtends(es, a, k, now);
    TracksExtend(es, gs, b);
    CancelTracks(gs, b, a.ids[..k + 1], now);
    assert RolledBack(es, gs, a, k, 0) by { RollStart(es, gs, a, k); }
    RollAccepted(es, gs, b, a, k, k, now);
    assert a.ids[..k + 1][..k] == a.ids[..k];
    CancelTasksStep(gs, b, a.ids[..k + 1], now);
    RollLast(es, CancelTasks(gs, b, a.ids[..k], now).0, a, k, now);
  }

  lemma CancelTasksStep(es: seq<Entry>, b: Board, ids: seq<Id>, now: nat)
    requires ids != []
    ensures CancelTasks(es, b, ids, now).0 ==
      Change(CancelTasks(es, b, ids[..|ids| - 1], now).0, ids[|ids| - 1], Canceled, now).0
  {
  }

  lemma RollStart(es: seq<Entry>, fs: seq<Entry>, a: Plan, k: nat)
    requires Extends(es, fs, a, k) && EntriesOk(fs)
    ensures RolledBack(es, fs, a, k, 0)
  {
  }

  /** Canceling an id that an older task has. */
  lemma CancelOlder(es: seq<Entry>, fs: seq<Entry>, id: Id, now: nat)
    requires |fs| >= |es| && fs[..|es|] == es && Known(es, id)
    ensures
      var gs := Change(fs, id, Canceled, now).0;
      && |gs| == |fs| && (forall i :: 0 <= i < |fs| && i != Find(es, id) ==> gs[i] == fs[i])
      && gs[Find(es, id)].task.state == (if Collides(es, id) then Canceled else es[Find(es, id)].task.state)
      && (!Collides(es, id) ==> gs == fs)
  {
    FindAppend(es, fs, id);
    assert fs[Find(es, id)] == es[Find(es, id)];
  }

  /** Canceling an id that no older task has. */
  lemma CancelNewer(es: seq<Entry>, fs: seq<Entry>, a: Plan, k: nat, id: Id, now: nat)
    requires RolledBack(es, fs, a, k, k) && !Known(es, id)
    ensures Change(fs, id, Canceled, now).0 == fs
  {
    forall i | 0 <= i < |es| ensures fs[i] == es[i] {}
    FreshId(es, id);
    var m := Find(fs, id);
    if m < |fs| {
      assert a.ids[m - |es|] == fs[m].task.id;
    }
  }

  lemma RollLast(es: seq<Entry>, fs: seq<Entry>, a: Plan, k: nat, now: nat)
    requires RolledBack(es, fs, a, k, k) && k < |a.ids|
    ensures
      var gs := Change(fs, a.ids[k], Canceled, now).0;
      && AllCanceled(es, gs, a, k)
      && (gs[..|es|] == es <==> !Collides(es, a.ids[k]))
      && (Collides(es, a.ids[k]) ==> gs[Find(es, a.ids[k])].task.state == Canceled)
      && (forall i :: 0 <= i < |es| && es[i].task.id != a.ids[k] ==> gs[i] == es[i])
  {
    var id, gs := a.ids[k], Change(fs, a.ids[k], Canceled, now).0;
    forall i | 0 <= i < |es| ensures fs[i] == es[i] {}
    if Known(es, id) {
      CancelOlder(es, fs, id, now);
      var m := Find(es, id);
      hide Change, Find, RolledBack;
      if Collides(es, id) {
        assert gs[..|es|][m] != es[m];
      }
    } else {
      CancelNewer(es, fs, a, k, id, now);
      hide Change, Find, RolledBack;
    }
    StayCanceled(es, fs, gs, a, k);
  }

  lemma StayCanceled(es: seq<Entry>, fs: seq<Entry>, gs: seq<Entry>, a: Plan, k: nat)
    requires RolledBack(es, fs, a, k, k) && |gs| == |fs| && forall i :: |es| <= i < |fs| ==> gs[i] == fs[i]
    ensures AllCanceled(es, gs, a, k)
  {
    forall j | 0 <= j < k ensures gs[|es| + j].task.id == a.ids[j] && gs[|es| + j].task.state == Canceled {
      assert a.ids[j] == fs[|es| + j].task.id;
    }
  }

  /** New entries do not disturb what is tracked. */
  lemma TracksExtend(es: seq<Entry>, fs: seq<Entry>, b: Board)
    requires Tracks(es, b) && EntriesOk(fs) && |fs| >= |es| && fs[..|es|] == es
    ensures Tracks(fs, b)
  {
    hide Tracks, EntriesOk;
    forall id | Known(es, id) ensures Known(fs, id) && (SucceededIn(es, id) <==> SucceededIn(fs, id)) {
      FindAppend(es, fs, id);
      assert fs[Find(es, id)] == es[Find(es, id)];
    }
    TracksCarry(es, fs, b);
  }

  lemma {:induction false} CancelTracks(es: seq<Entry>, b: Board, ids: seq<Id>, now: nat)
    requires Tracks(es, b)
    ensures Tracks(CancelTasks(es, b, ids, now).0, CancelTasks(es, b, ids, now).1)
    ensures CancelTasks(es, b, ids, now).1.calls == b.calls
    ensures |CancelTasks(es, b, ids, now).1.active| == |b.active|
  {
    hide Tracks, Attempted;
    if ids != [] {
      CancelTracks(es, b, ids[..|ids| - 1], now);
      var (fs, c) := CancelTasks(es, b, ids[..|ids| - 1], now);
      AttemptTracks(fs, c, ids[|ids| - 1], Canceled, now);
    }
  }

  // ---- A successful start ----

  lemma {:induction false} NoneSucceeded(es: seq<Entry>, ids: seq<Id>)
    requires forall id :: id in ids ==> !SucceededIn(es, id)
    ensures SucceededCount(es, ids) == 0
  {
    if ids != [] { NoneSucceeded(es, ids[..|ids| - 1]); }
  }

  lemma StartTracks(es: seq<Entry>, b: Board, a: Plan, now: nat)
    requires PlanOk(a) && Tracks(es, b)
    ensures Tracks(Start(es, b, a, now).0, Start(es, b, a, now).1)
  {
    hide Tracks, Accepts, Submitted, EntriesOk, Unique, DistinctIds, Find;
    if Rejected(es, a, 0, now) < |a.ids| {
      FailedStartRollsBack(es, b, a, now);
    } else {
      var fs := Submitted(es, a, |a.ids|, now);
      TracksEntries(es, b);
      SubmittedExtends(es, a, |a.ids|, now);
      TracksExtend(es, fs, b);
      EntriesUnique(fs);
      ExtendsFresh(es, fs, a, |a.ids|);
      assert a.ids[..|a.ids|] == a.ids;
      AddWorkflow(es, fs, b, a);
    }
  }

  lemma AddWorkflow(es: seq<Entry>, fs: seq<Entry>, b: Board, a: Plan)
    requires PlanOk(a) && Tracks(es, b) && Tracks(fs, b) && Extends(es, fs, a, |a.ids|) && DistinctIds(a.ids)
    requires forall j :: 0 <= j < |a.ids| ==> !Known(es, a.ids[j]) && Find(fs, a.ids[j]) == |es| + j
    ensures Tracks(fs, b.(active := b.active + [NewWorkflow(a)]))
  {
    hide Known, SucceededCount, CallCount, CompleteCount, EntriesOk;
    var w, c := NewWorkflow(a), b.(active := b.active + [NewWorkflow(a)]);
    forall id | id in a.ids ensures Known(fs, id) && !SucceededIn(fs, id) && !Known(es, id) {
      var j :| 0 <= j < |a.ids| && a.ids[j] == id;
      KnownNew(fs, id, |es| + j);
    }
    NoneSucceeded(fs, a.ids);
    forall trace ensures CompleteCount(c.active, trace) == CompleteCount(b.active, trace) {
      CompleteAppend(b.active, w, trace);
    }
    assert WorkflowOk(fs, w);
    forall k | 0 <= k < |c.active| ensures WorkflowOk(fs, c.active[k]) {
      if k < |b.active| { assert c.active[k] == b.active[k]; }
    }
    forall k | 0 <= k < |b.active| ensures forall id :: id in b.active[k].taskIds ==> id !in a.ids {
      assert WorkflowOk(es, b.active[k]);
    }
    assert CallsKnown(c) by { CallsWiden(b, c); }
  }

  lemma KnownNew(fs: seq<Entry>, id: Id, k: nat)
    requires Find(fs, id) == k < |fs| && fs[k].task.state in {Queued, Ready}
    ensures Known(fs, id) && !SucceededIn(fs, id)
  {
  }

  lemma CallsWiden(b: Board, c: Board)
    requires CallsKnown(b) && c.calls == b.calls && |c.active| >= |b.active| && c.active[..|b.active|] == b.active
    ensures CallsKnown(c)
  {
    forall k | 0 <= k < |c.calls|
      ensures c.calls[k].success && c.calls[k].outputPath == OUTPUT_PATH
      ensures exists i :: 0 <= i < |c.active| && c.active[i].trace == c.calls[k].trace
    {
      var i :| 0 <= i < |b.active| && b.active[i].trace == b.calls[k].trace;
      assert c.active[i] == b.active[i];
    }
  }

  // ---- Runs of the engine ----

  datatype Op =
    | TickOp(f: StageFn, reports: nat, now: nat)
    | CancelOp(id: Id, now: nat)
    | PauseOp(id: Id, now: nat)
    | ResumeOp(id: Id, now: nat)
    | StartOp(plan: Plan, now: nat)
    | CancelWorkflowOp(ids: seq<Id>, now: nat)

  datatype World = World(entries: seq<Entry>, board: Board)

  ghost function Perform(w: World, op: Op): World {
    var (es, b) :=
      match op
      case TickOp(f, reports, now) =>
        (Tick(f, w.entries, now), HandleAll(w.board, TickNotes(f, reports, w.entries, now)))
      case CancelOp(id, now) => Attempted(w.entries, w.board, id, Canceled, now)
      case PauseOp(id, now) => Attempted(w.entries, w.board, id, Paused, now)
      case ResumeOp(id, now) =>
        if Known(w.entries, id) then
          Attempted(w.entries, w.board, id, PoolModel.ResumeTarget(w.entries[Find(w.entries, id)].task), now)
        else (w.entries, w.board)
      case StartOp(plan, now) => if PlanOk(plan) then Start(w.entries, w.board, plan, now) else (w.entries, w.board)
      case CancelWorkflowOp(ids, now) => CancelTasks(w.entries, w.board, ids, now);
    World(es, b)
  }

  const IDLE := World([], Board([], []))

  ghost function After(ops: seq<Op>): World {
    if ops == [] then IDLE else Perform(After(ops[..|ops| - 1]), ops[|ops| - 1])
  }

  lemma PerformTracks(w: World, op: Op)
    requires Tracks(w.entries, w.board)
    ensures Tracks(Perform(w, op).entries, Perform(w, op).board)
  {
    hide Tracks, Tick, TickNotes, Attempted, Start, Find, PlanOk;
    match op
    case TickOp(f, reports, now) => TickTracks(f, reports, w.entries, w.board, now);
    case CancelOp(id, now) => AttemptTracks(w.entries, w.board, id, Canceled, now);
    case PauseOp(id, now) => AttemptTracks(w.entries, w.board, id, Paused, now);
    case ResumeOp(id, now) =>
      if Known(w.entries, id) {
        TracksEntries(w.entries, w.board);
        EntriesLifecycle(w.entries, Find(w.entries, id));
        AttemptTracks(w.entries, w.board, id, PoolModel.ResumeTarget(w.entries[Find(w.entries, id)].task), now);
      }
    case StartOp(plan, now) => if PlanOk(plan) { StartTracks(w.entries, w.board, plan, now); }
    case CancelWorkflowOp(ids, now) => CancelTracks(w.entries, w.board, ids, now);
  }

  lemma {:induction false} AlwaysTracks(ops: seq<Op>)
    ensures Tracks(After(ops).entries, After(ops).board)
  {
    hide Tracks, Perform;
    if ops == [] {
      IdleTracks();
    } else {
      var front := ops[..|ops| - 1];
      AlwaysTracks(front);
      PerformTracks(After(front), ops[|ops| - 1]);
    }
  }

  lemma IdleTracks()
    ensures Tracks(IDLE.entries, IDLE.board)
  {
  }

  ghost predicate AllIn(es: seq<Entry>, ids: seq<Id>) {
    forall id :: id in ids ==> SucceededIn(es, id)
  }

  /** How many workflows with the given trace have all their tasks Succeeded. */
  ghost function DoneCount(es: seq<Entry>, ws: seq<Workflow>, trace: string): nat {
    if ws == [] then 0
    else
      var last := ws[|ws| - 1];
      DoneCount(es, ws[..|ws| - 1], trace) + if last.trace == trace && AllIn(es, last.taskIds) then 1 else 0
  }

  lemma {:induction false} DoneIsComplete(es: seq<Entry>, ws: seq<Workflow>, trace: string)
    requires forall k :: 0 <= k < |ws| ==> WorkflowOk(es, ws[k])
    ensures DoneCount(es, ws, trace) == CompleteCount(ws, trace)
  {
    if ws != [] {
      DoneIsComplete(es, ws[..|ws| - 1], trace);
      CountBound(es, ws[|ws| - 1].taskIds);
    }
  }

  lemma {:induction false} DoneOnce(es: seq<Entry>, ws: seq<Workflow>, k: nat)
    requires k < |ws| && forall i :: 0 <= i < |ws| && i != k ==> ws[i].trace != ws[k].trace
    ensures DoneCount(es, ws, ws[k].trace) == if AllIn(es, ws[k].taskIds) then 1 else 0
  {
    hide AllIn;
    var front := ws[..|ws| - 1];
    if k < |front| { DoneOnce(es, front, k); } else { DoneNever(es, front, ws[k].trace); }
  }

  lemma {:induction false} DoneNever(es: seq<Entry>, ws: seq<Workflow>, trace: string)
    requires forall i :: 0 <= i < |ws| ==> ws[i].trace != trace
    ensures DoneCount(es, ws, trace) == 0
  {
    if ws != [] { DoneNever(es, ws[..|ws| - 1], trace); }
  }

  /**
   Whatever sequence of starts, ticks, pauses, resumes and cancels was performed: every workflow counts its succeeded
   tasks, and the completion calls with a trace number the workflows of that trace all of whose tasks have succeeded. A
   workflow that shares its trace with no other is thus reported exactly once if all its tasks have succeeded, and
   never otherwise.
   */
  lemma CompletionExactlyOnce(ops: seq<Op>, k: nat)
    requires k < |After(ops).board.active|
    ensures
      var b, es := After(ops).board, After(ops).entries;
      var w := b.active[k];
      && w.completed == SucceededCount(es, w.taskIds) && w.total == |w.taskIds|
      && (forall trace :: CallCount(b.calls, trace) == DoneCount(es, b.active, trace))
      && ((forall i :: 0 <= i < |b.active| && i != k ==> b.active[i].trace != w.trace) ==>
            CallCount(b.calls, w.trace) == if AllIn(es, w.taskIds) then 1 else 0)
  {
    AlwaysTracks(ops);
    var b, es := After(ops).board, After(ops).entries;
    assert WorkflowOk(es, b.active[k]);
    hide After, CallCount, DoneCount, CompleteCount, WorkflowOk, AllIn;
    forall trace ensures CallCount(b.calls, trace) == DoneCount(es, b.active, trace) {
      DoneIsComplete(es, b.active, trace);
    }
    if forall i :: 0 <= i < |b.active| && i != k ==> b.active[i].trace != b.active[k].trace {
      DoneOnce(es, b.active, k);
    }
  }

  // ---- When a start is accepted ----

  /** The j-th submission has a stage and an id that is neither empty nor taken. */
  ghost predicate Submittable(es: seq<Entry>, a: Plan, j: nat)
    requires PlanOk(a) && j < |a.ids|
  {
    && a.stages[j].Some? && a.ids[j] != "" && !Known(es, a.ids[j])
    && forall i :: 0 <= i < j ==> a.ids[i] != a.ids[j]
  }

  lemma KnownAfter(es: seq<Entry>, fs: seq<Entry>, a: Plan, j: nat, id: Id)
    requires Extends(es, fs, a, j) && Unique(fs)
    ensures Known(fs, id) <==> Known(es, id) || exists i :: 0 <= i < j && a.ids[i] == id
  {
    ExtendsFresh(es, fs, a, j);
    if Known(fs, id) && !Known(es, id) {
      var m := Find(fs, id);
      FreshId(es, id);
      assert forall i :: 0 <= i < |es| ==> fs[i] == es[i];
      assert a.ids[m - |es|] == id;
    }
    if Known(es, id) { FindAppend(es, fs, id); }
  }

  lemma AcceptsIff(es: seq<Entry>, a: Plan, j: nat, now: nat)
    requires PlanOk(a) && j < |a.ids| && EntriesOk(es) && forall i :: 0 <= i < j ==> Accepts(es, a, i, now)
    ensures Accepts(es, a, j, now) <==> Submittable(es, a, j)
  {
    hide Submitted, Find, EntriesOk;
    var fs := Submitted(es, a, j, now);
    SubmittedExtends(es, a, j, now);
    EntriesUnique(fs);
    forall id ensures Known(fs, id) <==> Known(es, id) || exists i :: 0 <= i < j && a.ids[i] == id {
      KnownAfter(es, fs, a, j, id);
    }
    forall d | d in PlanTask(a, j).deps ensures exists i :: 0 <= i < j && a.ids[i] == d {
      PlanDeps(a, j, d);
    }
  }

  lemma PlanDeps(a: Plan, j: nat, d: Id)
    requires |a.ids| >= 3 && j < |a.ids| && d in PlanTask(a, j).deps
    ensures exists i :: 0 <= i < j && a.ids[i] == d
  {
    var last := |a.ids| - 1;
    if j == last {
      var i :| 0 <= i < |a.ids[1..last]| && a.ids[1..last][i] == d;
      assert a.ids[i + 1] == d;
    }
  }

  /** A start goes through exactly if every factory call yields a stage and the ids are new, distinct and not empty. */
  lemma StartAcceptedIff(es: seq<Entry>, a: Plan, now: nat)
    requires PlanOk(a) && EntriesOk(es)
    ensures Rejected(es, a, 0, now) == |a.ids| <==> forall j :: 0 <= j < |a.ids| ==> Submittable(es, a, j)
  {
    hide Submittable, Accepts;
    var k := Rejected(es, a, 0, now);
    forall j | 0 <= j < |a.ids| && j <= k ensures Accepts(es, a, j, now) <==> Submittable(es, a, j) {
      AcceptsIff(es, a, j, now);
    }
  }

  // ---- One workflow, all stages succeeding ----

  lemma {:induction false} SubmittedShape(f: StageFn, a: Plan, k: nat, now: nat)
    requires PlanOk(a) && k <= |a.ids|
    ensures Shape(Submitted([], a, k, now)) && EntriesAgree(f, Submitted([], a, k, now))
  {
    hide Shape, EntriesAgree, Submit;
    if k == 0 {
      EmptyShape(f);
    } else {
      SubmittedShape(f, a, k - 1, now);
      SubmitKeeps(f, Submitted([], a, k - 1, now), PlanTask(a, k - 1), a.stages[k - 1], now);
    }
  }

  lemma {:induction false} OpenAll(es: seq<Entry>)
    requires forall i :: 0 <= i < |es| ==> !Terminal(es[i].task.state)
    ensures Open(es) == |es|
  {
    if es != [] { OpenAll(es[..|es| - 1]); }
  }

  function TickOps(f: StageFn, ticks: seq<(nat, nat)>): seq<Op> {
    seq(|ticks|, i requires 0 <= i < |ticks| => TickOp(f, ticks[i].0, ticks[i].1))
  }

  function Times(ticks: seq<(nat, nat)>): seq<nat> {
    seq(|ticks|, i requires 0 <= i < |ticks| => ticks[i].1)
  }

  /** A run that starts one workflow and then only ticks; each tick has its number of progress reports and its time. */
  ghost function DrivenWorld(f: StageFn, a: Plan, now: nat, ticks: seq<(nat, nat)>): World {
    After([StartOp(a, now)] + TickOps(f, ticks))
  }

  lemma DrivenStart(f: StageFn, a: Plan, now: nat)
    requires PlanOk(a)
    ensures DrivenWorld(f, a, now, []) == World(Start([], Board([], []), a, now).0, Start([], Board([], []), a, now).1)
  {
    var ops := [StartOp(a, now)] + TickOps(f, []);
    assert ops == [StartOp(a, now)] && ops[..|ops| - 1] == [];
    hide Start;
    assert After(ops) == Perform(After(ops[..|ops| - 1]), ops[|ops| - 1]);
    assert After(ops[..|ops| - 1]) == IDLE;
  }

  lemma DrivenStep(f: StageFn, a: Plan, now: nat, ticks: seq<(nat, nat)>)
    requires ticks != []
    ensures DrivenWorld(f, a, now, ticks) ==
      Perform(DrivenWorld(f, a, now, ticks[..|ticks| - 1]), TickOp(f, ticks[|ticks| - 1].0, ticks[|ticks| - 1].1))
  {
    var front, ops := ticks[..|ticks| - 1], [StartOp(a, now)] + TickOps(f, ticks);
    assert ops[..|ops| - 1] == [StartOp(a, now)] + TickOps(f, front);
  }

  ghost predicate OnlyWorkflow(b: Board, a: Plan) {
    |b.active| == 1 && b.active[0].trace == a.trace && b.active[0].taskIds == a.ids
  }

  lemma {:induction false} HandleKeepsShape(b: Board, notes: seq<Note>, a: Plan)
    requires OnlyWorkflow(b, a)
    ensures OnlyWorkflow(HandleAll(b, notes), a)
  {
    if notes != [] { HandleKeepsShape(b, notes[..|notes| - 1], a); }
  }

  lemma {:induction false} DrivenState(f: StageFn, a: Plan, now: nat, ticks: seq<(nat, nat)>)
    requires PlanOk(a) && Rejected([], a, 0, now) == |a.ids|
    ensures DrivenWorld(f, a, now, ticks).entries == Ticks(f, Submitted([], a, |a.ids|, now), Times(ticks))
    ensures OnlyWorkflow(DrivenWorld(f, a, now, ticks).board, a)
    ensures Tracks(DrivenWorld(f, a, now, ticks).entries, DrivenWorld(f, a, now, ticks).board)
  {
    hide Tracks, Tick, TickNotes, DrivenWorld, Submitted;
    if ticks == [] {
      DrivenStart(f, a, now);
      IdleTracks();
      StartTracks([], Board([], []), a, now);
    } else {
      var front, last := ticks[..|ticks| - 1], ticks[|ticks| - 1];
      DrivenState(f, a, now, front);
      DrivenStep(f, a, now, ticks);
      var w := DrivenWorld(f, a, now, front);
      TickTracks(f, last.0, w.entries, w.board, last.1);
      HandleKeepsShape(w.board, TickNotes(f, last.0, w.entries, last.1), a);
      assert Times(ticks)[..|ticks| - 1] == Times(front);
    }
  }

  lemma {:induction false} AllCallsCount(calls: seq<Completion>, trace: string)
    requires forall k :: 0 <= k < |calls| ==> calls[k].trace == trace
    ensures CallCount(calls, trace) == |calls|
  {
    if calls != [] { AllCallsCount(calls[..|calls| - 1], trace); }
  }

  lemma OneWorkflowCalls(es: seq<Entry>, b: Board, a: Plan)
    requires Tracks(es, b) && OnlyWorkflow(b, a)
    ensures b.calls == if AllIn(es, a.ids) then [Completion(a.trace, true, OUTPUT_PATH)] else []
  {
    hide SucceededCount, CallCount, EntriesOk, SucceededIn, Known;
    forall k | 0 <= k < |b.calls| ensures b.calls[k].trace == a.trace {}
    AllCallsCount(b.calls, a.trace);
    CountBound(es, a.ids);
    assert WorkflowOk(es, b.active[0]);
    assert b.active == [] + [b.active[0]];
    CompleteAppend([], b.active[0], a.trace);
  }

  lemma OpenMeansUnsucceeded(es: seq<Entry>, ids: seq<Id>)
    requires EntriesOk(es) && |es| == |ids| && forall i :: 0 <= i < |es| ==> es[i].task.id == ids[i]
    requires forall i :: 0 <= i < |es| ==> es[i].task.state != Failed && es[i].task.state != Canceled
    ensures Open(es) == 0 <==> forall id :: id in ids ==> SucceededIn(es, id)
  {
    hide Find, Open;
    forall i | 0 <= i < |es| ensures SucceededIn(es, ids[i]) <==> es[i].task.state == Succeeded { FindIs(es, i); }
    if Open(es) == 0 {
      forall i | 0 <= i < |es| ensures SucceededIn(es, ids[i]) { OpenZero(es, i); }
    }
    if forall id :: id in ids ==> SucceededIn(es, id) {
      forall i | 0 <= i < |es| ensures Terminal(es[i].task.state) { assert ids[i] in ids; }
      NoneOpen(es);
    }
  }

  lemma NothingBad(f: StageFn, es: seq<Entry>, i: nat)
    requires Shape(es) && EntriesAgree(f, es) && i < |es| && forall stage, inputs :: f(stage, inputs).Success?
    ensures es[i].task.state != Failed && es[i].task.state != Canceled
  {
    hide Evaluate, Shape;
    NothingFails(f, es, i);
    assert EntryMatches(es[i], Evaluate(f, JobsOf(es))[es[i].task.id]);
  }

  /**
   If all stages succeed, a workflow of N images finishes in exactly N + 2 ticks: its completion is reported, once, by
   the tick that runs its last task, and not earlier.
   */
  lemma FinishesInExactlyNPlus2Ticks(f: StageFn, a: Plan, now: nat, ticks: seq<(nat, nat)>)
    requires PlanOk(a) && (forall j :: 0 <= j < |a.ids| ==> Submittable([], a, j))
    requires forall stage, inputs :: f(stage, inputs).Success?
    ensures DrivenWorld(f, a, now, ticks).board.calls ==
      if |ticks| >= |a.ids| then [Completion(a.trace, true, OUTPUT_PATH)] else []
  {
    hide Submittable, DrivenWorld, Submitted, Ticks, Tracks;
    IdleTracks();
    TracksEntries([], Board([], []));
    StartAcceptedIff([], a, now);
    DrivenState(f, a, now, ticks);
    var w := DrivenWorld(f, a, now, ticks);
    TracksEntries(w.entries, w.board);
    AllDoneAfter(f, a, now, Times(ticks));
    OneWorkflowCalls(w.entries, w.board, a);
  }

  lemma AllDoneAfter(f: StageFn, a: Plan, now: nat, times: seq<nat>)
    requires PlanOk(a) && Rejected([], a, 0, now) == |a.ids| &&
      EntriesOk(Ticks(f, Submitted([], a, |a.ids|, now), times))
    requires forall stage, inputs :: f(stage, inputs).Success?
    ensures (forall id :: id in a.ids ==> SucceededIn(Ticks(f, Submitted([], a, |a.ids|, now), times), id)) <==>
      |times| >= |a.ids|
  {
    hide Submitted, Ticks, Shape, EntriesAgree, SucceededIn, Accepts, EntriesOk, Open;
    var es := Submitted([], a, |a.ids|, now);
    var fs := Ticks(f, es, times);
    assert EntriesOk([]) by { IdleTracks(); TracksEntries([], Board([], [])); }
    SubmittedShape(f, a, |a.ids|, now);
    SubmittedExtends([], a, |a.ids|, now);
    ExtendsOpen(es, a);
    EveryTickCounts(f, es, times);
    TicksKeep(f, es, times);
    forall i | 0 <= i < |fs| ensures fs[i].task.state != Failed && fs[i].task.state != Canceled {
      NothingBad(f, fs, i);
    }
    OpenMeansUnsucceeded(fs, a.ids);
  }

  lemma ExtendsOpen(es: seq<Entry>, a: Plan)
    requires Extends([], es, a, |a.ids|)
    ensures Open(es) == |a.ids| == |es| && forall i :: 0 <= i < |es| ==> es[i].task.id == a.ids[i]
  {
    forall i | 0 <= i < |es| ensures es[i].task.id == a.ids[i] && !Terminal(es[i].task.state) {
      assert a.ids[i] == es[0 + i].task.id;
    }
    OpenAll(es);
  }

  // ---- A rollback that cancels an older task ----

  function OlderTask(): Task {
    Task("x", Queued, 0, Demand(1, 256, 0), [], None, None, None, None, None)
  }

  /** The second task of the plan draws the id of an older task. */
  function CollidingPlan(): Plan {
    Plan("w", ["s", "x", "c"], [Some(0), Some(0), Some(0)], Given(0))
  }

  lemma OlderFacts()
    ensures
      var es, a := Submit([], OlderTask(), Some(0), 0).0, CollidingPlan();
      && |es| == 1 && es[0].task.id == "x" && es[0].task.state == Ready
      && PlanOk(a) && a.ids[1] == "x" && Tracks(es, Board([], [])) && EntriesOk(es)
      && Submittable(es, a, 0) && !Submittable(es, a, 1)
  {
  }

  /** The start fails at its second task, and its rollback cancels the older task, which nobody asked to cancel. */
  lemma RollbackCancelsOlderTask()
    ensures
      var es, a := Submit([], OlderTask(), Some(0), 0).0, CollidingPlan();
      && |es| == 1 && es[0].task.id == "x" && es[0].task.state == Ready
      && PlanOk(a) && Rejected(es, a, 0, 0) == 1
      && var fs := Start(es, Board([], []), a, 0).0;
         |fs| == 2 && fs[0].task.state == Canceled
  {
    OlderFacts();
    hide Submit, OlderTask, CollidingPlan, Start, Submitted, Submittable, Tracks, EntriesOk, Accepts, Rejected;
    var es, a := Submit([], OlderTask(), Some(0), 0).0, CollidingPlan();
    AcceptsIff(es, a, 0, 0);
    AcceptsIff(es, a, 1, 0);
    RejectedAt(es, a);
    FailedStartRollsBack(es, Board([], []), a, 0);
    assert Find(es, "x") == 0;
  }

  lemma RejectedAt(es: seq<Entry>, a: Plan)
    requires PlanOk(a) && Accepts(es, a, 0, 0) && !Accepts(es, a, 1, 0)
    ensures Rejected(es, a, 0, 0) == 1
  {
    hide Accepts;
  }
}
