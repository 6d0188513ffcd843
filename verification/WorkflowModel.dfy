/** Workflows over the single-threaded scheduler: counting completions and rolling back (core/src/orchestrator.cpp). */
module WorkflowModel {
  import opened Tasks
  import opened Evaluation
  import opened SimpleModel

  datatype Workflow = Workflow(trace: string, taskIds: seq<Id>, completed: int, total: int, failed: bool,
    outputPath: string)

  /** One call of the completion callback. */
  datatype Completion = Completion(trace: string, success: bool, outputPath: string)

  /** The engine's workflows and the completion calls it has made. */
  datatype Board = Board(active: seq<Workflow>, calls: seq<Completion>)

  const OUTPUT_PATH := "/tmp/stv_mock/final_output.mp4"

  // ---- Reacting to notifications ----

  /** Position of the first workflow that has the task, or the number of workflows. */
  function Owner(ws: seq<Workflow>, id: Id): (k: nat)
    ensures k <= |ws| && (k < |ws| ==> id in ws[k].taskIds) && forall i :: 0 <= i < k ==> id !in ws[i].taskIds
  {
    if ws == [] || id in ws[0].taskIds then 0 else 1 + Owner(ws[1..], id)
  }

  function Noted(w: Workflow, s: TaskState): Workflow {
    if s == Succeeded then w.(completed := w.completed + 1)
    else if Bad(s) then w.(failed := true)
    else w
  }

  function Handle(b: Board, n: Note): Board {
    var k := Owner(b.active, n.id);
    if k == |b.active| then b
    else
      var w := Noted(b.active[k], n.state);
      if w.completed == w.total then
        Board(b.active[k := w.(outputPath := OUTPUT_PATH)], b.calls + [Completion(w.trace, true, OUTPUT_PATH)])
      else b.(active := b.active[k := w])
  }

  function HandleAll(b: Board, notes: seq<Note>): Board {
    if notes == [] then b else Handle(HandleAll(b, notes[..|notes| - 1]), notes[|notes| - 1])
  }

  lemma {:induction false} HandleAppend(b: Board, xs: seq<Note>, ys: seq<Note>)
    ensures HandleAll(b, xs + ys) == HandleAll(HandleAll(b, xs), ys)
  {
    if ys == [] {
      assert xs + ys == xs;
    } else {
      assert (xs + ys)[..|xs + ys| - 1] == xs + ys[..|ys| - 1];
      HandleAppend(b, xs, ys[..|ys| - 1]);
    }
  }

  // ---- What the counters mean ----

  function SucceededCount(es: seq<Entry>, ids: seq<Id>): nat {
    if ids == [] then 0
    else SucceededCount(es, ids[..|ids| - 1]) + if SucceededIn(es, ids[|ids| - 1]) then 1 else 0
  }

  function CallCount(calls: seq<Completion>, trace: string): nat {
    if calls == [] then 0
    else CallCount(calls[..|calls| - 1], trace) + if calls[|calls| - 1].trace == trace then 1 else 0
  }

  function Complete(w: Workflow, trace: string): nat {
    if w.trace == trace && w.completed == w.total then 1 else 0
  }

  /** How many workflows with the given trace have counted all their tasks. */
  function CompleteCount(ws: seq<Workflow>, trace: string): nat {
    if ws == [] then 0 else CompleteCount(ws[..|ws| - 1], trace) + Complete(ws[|ws| - 1], trace)
  }

  ghost predicate DistinctIds(ids: seq<Id>) {
    forall i, j :: 0 <= i < j < |ids| ==> ids[i] != ids[j]
  }

  ghost predicate EntriesOk(es: seq<Entry>) {
    Unique(es) && forall i :: 0 <= i < |es| ==> Lifecycle(es[i].task)
  }

  /** A workflow counts its succeeded tasks. */
  ghost predicate WorkflowOk(es: seq<Entry>, w: Workflow) {
    && w.taskIds != [] && DistinctIds(w.taskIds) && w.total == |w.taskIds|
    && (forall id :: id in w.taskIds ==> Known(es, id))
    && w.completed == SucceededCount(es, w.taskIds)
  }

  ghost predicate Separate(ws: seq<Workflow>) {
    forall i, j :: 0 <= i < j < |ws| ==> forall id :: id in ws[i].taskIds ==> id !in ws[j].taskIds
  }

  /** Every completed workflow was reported, and once only. */
  ghost predicate CallsMatch(b: Board) {
    forall trace :: CallCount(b.calls, trace) == CompleteCount(b.active, trace)
  }

  ghost predicate CallsKnown(b: Board) {
    forall k :: 0 <= k < |b.calls| ==>
      b.calls[k].success && b.calls[k].outputPath == OUTPUT_PATH &&
      exists i :: 0 <= i < |b.active| && b.active[i].trace == b.calls[k].trace
  }

  ghost predicate Tracks(es: seq<Entry>, b: Board) {
    && EntriesOk(es) && Separate(b.active) && CallsKnown(b) && CallsMatch(b)
    && forall k :: 0 <= k < |b.active| ==> WorkflowOk(es, b.active[k])
  }

  lemma {:induction false} CountBound(es: seq<Entry>, ids: seq<Id>)
    ensures SucceededCount(es, ids) <= |ids|
    ensures SucceededCount(es, ids) == |ids| <==> forall id :: id in ids ==> SucceededIn(es, id)
  {
    if ids != [] {
      var front, last := ids[..|ids| - 1], ids[|ids| - 1];
      assert ids == front + [last];
      CountBound(es, front);
    }
  }

  lemma {:induction false} CountSame(es: seq<Entry>, fs: seq<Entry>, ids: seq<Id>)
    requires forall id :: id in ids ==> (SucceededIn(es, id) <==> SucceededIn(fs, id))
    ensures SucceededCount(es, ids) == SucceededCount(fs, ids)
  {
    if ids != [] { CountSame(es, fs, ids[..|ids| - 1]); }
  }

  lemma {:induction false} CountOneMore(es: seq<Entry>, fs: seq<Entry>, ids: seq<Id>, id: Id)
    requires DistinctIds(ids) && !SucceededIn(es, id) && SucceededIn(fs, id)
    requires forall x :: x in ids && x != id ==> (SucceededIn(es, x) <==> SucceededIn(fs, x))
    ensures SucceededCount(fs, ids) == SucceededCount(es, ids) + if id in ids then 1 else 0
  {
    if ids != [] {
      var front, last := ids[..|ids| - 1], ids[|ids| - 1];
      assert ids == front + [last];
      if last == id {
        CountSame(es, fs, front);
      } else {
        CountOneMore(es, fs, front, id);
      }
    }
  }

  lemma {:induction false} CallsAppend(calls: seq<Completion>, call: Completion, trace: string)
    ensures CallCount(calls + [call], trace) == CallCount(calls, trace) + if call.trace == trace then 1 else 0
  {
    assert (calls + [call])[..|calls|] == calls;
  }

  lemma {:induction false} CompleteUpdate(ws: seq<Workflow>, k: nat, w: Workflow, trace: string)
    requires k < |ws|
    ensures CompleteCount(ws[k := w], trace) + Complete(ws[k], trace) == CompleteCount(ws, trace) + Complete(w, trace)
  {
    hide Complete;
    var front, vs := ws[..|ws| - 1], ws[k := w];
    if k == |ws| - 1 {
      assert vs[..|vs| - 1] == front;
    } else {
      CompleteUpdate(front, k, w, trace);
      assert vs[..|vs| - 1] == front[k := w];
    }
  }

  lemma CompleteAppend(ws: seq<Workflow>, w: Workflow, trace: string)
    ensures CompleteCount(ws + [w], trace) == CompleteCount(ws, trace) + Complete(w, trace)
  {
    assert (ws + [w])[..|ws|] == ws;
  }

  // ---- Notifications about tasks that have not succeeded ----

  lemma Incomplete(es: seq<Entry>, b: Board, k: nat, id: Id)
    requires Tracks(es, b) && k < |b.active| && id in b.active[k].taskIds && !SucceededIn(es, id)
    ensures b.active[k].completed < b.active[k].total
  {
    CountBound(es, b.active[k].taskIds);
  }

  /** A notification that is not a success leaves counters and calls alone. */
  lemma HandleOther(es: seq<Entry>, b: Board, n: Note)
    requires Tracks(es, b) && n.state != Succeeded && !SucceededIn(es, n.id)
    ensures Tracks(es, Handle(b, n)) && Handle(b, n).calls == b.calls
    ensures !Bad(n.state) ==> Handle(b, n) == b
    ensures |Handle(b, n).active| == |b.active|
    ensures forall k :: 0 <= k < |b.active| ==>
      Handle(b, n).active[k].taskIds == b.active[k].taskIds && Handle(b, n).active[k].trace == b.active[k].trace
  {
    hide SucceededCount, CallCount, CompleteCount, Known, SucceededIn;
    var k := Owner(b.active, n.id);
    if k < |b.active| {
      Incomplete(es, b, k, n.id);
      assert b.active[k := b.active[k]] == b.active;
      assert forall i :: 0 <= i < |b.active| ==> WorkflowOk(es, Handle(b, n).active[i]);
      CallsStay(b, Handle(b, n), k);
      forall trace ensures CompleteCount(Handle(b, n).active, trace) == CompleteCount(b.active, trace) {
        CompleteUpdate(b.active, k, Noted(b.active[k], n.state), trace);
      }
    }
  }

  lemma {:induction false} HandleQuiet(es: seq<Entry>, b: Board, notes: seq<Note>)
    requires Tracks(es, b)
    requires forall i :: 0 <= i < |notes| ==> !Terminal(notes[i].state) && !SucceededIn(es, notes[i].id)
    ensures HandleAll(b, notes) == b
  {
    hide Tracks;
    if notes != [] {
      HandleQuiet(es, b, notes[..|notes| - 1]);
      HandleOther(es, b, notes[|notes| - 1]);
    }
  }

  /** The entries change but no task enters or leaves Succeeded. */
  lemma TracksCarry(es: seq<Entry>, fs: seq<Entry>, b: Board)
    requires Tracks(es, b) && EntriesOk(fs)
    requires forall id :: Known(es, id) ==> Known(fs, id) && (SucceededIn(es, id) <==> SucceededIn(fs, id))
    ensures Tracks(fs, b)
  {
    hide CallCount, CompleteCount, Known, SucceededIn;
    forall k | 0 <= k < |b.active| ensures WorkflowOk(fs, b.active[k]) {
      CountSame(es, fs, b.active[k].taskIds);
    }
  }

  /** A success is counted, and reported exactly when it is the last one of its workflow. */
  lemma HandleSuccess(es: seq<Entry>, fs: seq<Entry>, b: Board, id: Id)
    requires Tracks(es, b) && EntriesOk(fs) && !SucceededIn(es, id) && SucceededIn(fs, id)
    requires forall x :: Known(es, x) ==> Known(fs, x) && (x != id ==> (SucceededIn(es, x) <==> SucceededIn(fs, x)))
    ensures Tracks(fs, Handle(b, Note(id, Succeeded)))
  {
    hide CallCount, CompleteCount, Known, SucceededIn, SucceededCount;
    var c, k := Handle(b, Note(id, Succeeded)), Owner(b.active, id);
    forall i | 0 <= i < |b.active|
      ensures SucceededCount(fs, b.active[i].taskIds) ==
        SucceededCount(es, b.active[i].taskIds) + if i == k then 1 else 0
    {
      CountOneMore(es, fs, b.active[i].taskIds, id);
    }
    if k < |b.active| {
      Incomplete(es, b, k, id);
      var w := Noted(b.active[k], Succeeded);
      assert forall i :: 0 <= i < |b.active| ==> WorkflowOk(fs, c.active[i]);
      forall trace ensures CallCount(c.calls, trace) == CompleteCount(c.active, trace) {
        CompleteUpdate(b.active, k, c.active[k], trace);
        if w.completed == w.total { CallsAppend(b.calls, c.calls[|b.calls|], trace); }
      }
      assert CallsKnown(c) by { CallsStay(b, c, k); }
    }
  }

  lemma CallsStay(b: Board, c: Board, k: nat)
    requires CallsKnown(b) && k < |b.active| && |c.active| == |b.active|
    requires forall i :: 0 <= i < |b.active| ==> c.active[i].trace == b.active[i].trace
    requires c.calls == b.calls || c.calls == b.calls + [Completion(b.active[k].trace, true, OUTPUT_PATH)]
    ensures CallsKnown(c)
  {
    forall m | 0 <= m < |c.calls|
      ensures c.calls[m].success && c.calls[m].outputPath == OUTPUT_PATH
      ensures exists i :: 0 <= i < |c.active| && c.active[i].trace == c.calls[m].trace
    {
      if m < |b.calls| {
        var i :| 0 <= i < |b.active| && b.active[i].trace == b.calls[m].trace;
        assert c.active[i].trace == c.calls[m].trace;
      } else {
        assert c.active[k].trace == c.calls[m].trace;
      }
    }
  }

  // ---- Operations ----

  /** A legal transition of one task together with its notification. */
  function Attempted(es: seq<Entry>, b: Board, id: Id, to: TaskState, now: nat): (seq<Entry>, Board) {
    var (fs, r) := Change(es, id, to, now);
    (fs, if r.Ok? then Handle(b, Note(id, to)) else b)
  }

  lemma AttemptEntry(es: seq<Entry>, id: Id, to: TaskState, now: nat)
    requires EntriesOk(es) && to != Succeeded
    ensures
      var (fs, r) := Change(es, id, to, now);
      && EntriesOk(fs)
      && (r.Ok? ==> Known(es, id) && !SucceededIn(es, id))
      && forall x :: (Known(es, x) <==> Known(fs, x)) && (SucceededIn(es, x) <==> SucceededIn(fs, x))
  {
    var (fs, r) := Change(es, id, to, now);
    if r.Ok? {
      var k := Find(es, id);
      TransitionOk(es[k].task, to, now);
      forall x ensures Find(fs, x) == Find(es, x) { FindSameIds(es, fs, x); }
    }
  }

  lemma TransitionOk(t: Task, to: TaskState, now: nat)
    requires Lifecycle(t)
    ensures Lifecycle(Transition(t, to, now)) && Transition(t, to, now).id == t.id
  {
  }

  /** Cancel, pause and resume between ticks never disturb the counting. */
  lemma AttemptTracks(es: seq<Entry>, b: Board, id: Id, to: TaskState, now: nat)
    requires Tracks(es, b) && to != Succeeded
    ensures Tracks(Attempted(es, b, id, to, now).0, Attempted(es, b, id, to, now).1)
    ensures Attempted(es, b, id, to, now).1.calls == b.calls
    ensures |Attempted(es, b, id, to, now).1.active| == |b.active|
  {
    hide Change, Tracks, Known, SucceededIn, Handle;
    var (fs, r) := Change(es, id, to, now);
    assert EntriesOk(es) by { TracksEntries(es, b); }
    AttemptEntry(es, id, to, now);
    if r.Ok? {
      HandleOther(es, b, Note(id, to));
      TracksCarry(es, fs, Handle(b, Note(id, to)));
    } else {
      TracksCarry(es, fs, b);
    }
  }

  lemma TracksEntries(es: seq<Entry>, b: Board)
    requires Tracks(es, b)
    ensures EntriesOk(es)
  {
  }

  lemma PromoteEntries(es: seq<Entry>, now: nat)
    requires EntriesOk(es)
    ensures EntriesOk(Promote(es, now))
    ensures forall x :: Known(es, x) <==> Known(Promote(es, now), x)
    ensures forall x :: SucceededIn(es, x) <==> SucceededIn(Promote(es, now), x)
  {
    hide Promotable, Find;
    var ps := Promote(es, now);
    forall x ensures Find(ps, x) == Find(es, x) { FindSameIds(es, ps, x); }
    forall i | 0 <= i < |es|
      ensures Lifecycle(ps[i].task) && (ps[i].task.state == Succeeded <==> es[i].task.state == Succeeded)
    {
      TransitionOk(es[i].task, Ready, now);
      if Promotable(es, es[i]) { PromotedNotDone(es, i); }
    }
  }

  lemma PromotedNotDone(es: seq<Entry>, i: nat)
    requires i < |es| && Promotable(es, es[i])
    ensures es[i].task.state == Queued
  {
  }

  lemma {:induction false} PromotionNotes(es: seq<Entry>, k: nat)
    requires Unique(es) && k <= |es|
    ensures forall i :: 0 <= i < |Promotions(es, k)| ==>
      Promotions(es, k)[i].state == Ready && !SucceededIn(es, Promotions(es, k)[i].id)
  {
    if k > 0 {
      PromotionNotes(es, k - 1);
      FindIs(es, k - 1);
    }
  }

  lemma RanEntryFate(e: Entry, outcome: Outcome, now: nat)
    requires Lifecycle(e.task) && e.task.state == Ready
    ensures
      var r := RanEntry(e, outcome, now);
      && Lifecycle(r.task) && r.task.state == OutcomeState(outcome) && r.task.id == e.task.id
      && Terminal(OutcomeState(outcome)) && (OutcomeState(outcome) == Succeeded <==> outcome.Success?)
  {
  }

  /** Running the chosen task: only its own success can change. */
  lemma RunEntries(es: seq<Entry>, b: nat, outcome: Outcome, now: nat)
    requires EntriesOk(es) && IsReady(es, b)
    ensures
      var fs, id := es[b := RanEntry(es[b], outcome, now)], es[b].task.id;
      && EntriesOk(fs) && !SucceededIn(es, id)
      && (SucceededIn(fs, id) <==> OutcomeState(outcome) == Succeeded)
      && forall x :: (Known(es, x) <==> Known(fs, x)) && (x != id ==> (SucceededIn(es, x) <==> SucceededIn(fs, x)))
  {
    hide RanEntry, OutcomeState;
    var fs := es[b := RanEntry(es[b], outcome, now)];
    RanEntryFate(es[b], outcome, now);
    FindIs(es, b);
    forall x ensures Find(fs, x) == Find(es, x) { FindSameIds(es, fs, x); }
  }

  /** A tick and the engine's reactions to its notifications keep every counter right, whatever the stage returns. */
  lemma TickTracks(f: StageFn, reports: nat, es: seq<Entry>, bd: Board, now: nat)
    requires Tracks(es, bd)
    ensures Tracks(Tick(f, es, now), HandleAll(bd, TickNotes(f, reports, es, now)))
  {
    hide Tracks, Promote, RunOutcome, Find, Known, SucceededIn, RanEntry, OutcomeState;
    var ps := Promote(es, now);
    TracksEntries(es, bd);
    PromoteEntries(es, now);
    TracksCarry(es, ps, bd);
    var promotions := Promotions(es, |es|);
    EntriesUnique(es);
    PromotionNotes(es, |es|);
    HandleQuiet(es, bd, promotions);
    var best := BestOf(ps, |ps|);
    if best.None? {
      assert promotions + [] == promotions;
    } else {
      var b, id := best.value, ps[best.value].task.id;
      var outcome := RunOutcome(f, ps, b);
      var runs, last := Repeat(Note(id, Running), reports + 1), Note(id, OutcomeState(outcome));
      assert TickNotes(f, reports, es, now) == promotions + (runs + [last]);
      HandleAppend(bd, promotions, runs + [last]);
      HandleAppend(bd, runs, [last]);
      RunEntries(ps, b, outcome, now);
      HandleQuiet(ps, bd, runs);
      EntriesLifecycle(ps, b);
      RanEntryFate(ps[b], outcome, now);
      SingleNote(bd, last);
      if OutcomeState(outcome) == Succeeded {
        HandleSuccess(ps, Tick(f, es, now), bd, id);
      } else {
        HandleOther(ps, bd, last);
        TracksCarry(ps, Tick(f, es, now), Handle(bd, last));
      }
    }
  }

  lemma SingleNote(b: Board, n: Note)
    ensures HandleAll(b, [n]) == Handle(b, n)
  {
    assert [n][..0] == [];
  }

  lemma EntriesUnique(es: seq<Entry>)
    requires EntriesOk(es)
    ensures Unique(es)
  {
  }

  lemma EntriesLifecycle(es: seq<Entry>, i: nat)
    requires EntriesOk(es) && i < |es|
    ensures Lifecycle(es[i].task)
  {
  }
}
