/** What the engine records about a workflow besides its counter, and what canceling a workflow does. */
module WorkflowOutcomes {
  import opened Tasks
  import opened Evaluation
  import opened SimpleModel
  import opened WorkflowModel
  import opened WorkflowRuns
  import PoolModel

  // ---- Canceling a workflow ----

  /** Every listed task ends Canceled unless it had finished; nothing else changes. */
  lemma {:induction false} CancelTasksEffect(es: seq<Entry>, b: Board, ids: seq<Id>, now: nat, i: nat)
    requires EntriesOk(es) && i < |es|
    ensures
      var fs := CancelTasks(es, b, ids, now).0;
      && |fs| == |es| && EntriesOk(fs) && fs[i].task.id == es[i].task.id && fs[i].task.deps == es[i].task.deps
      && fs[i].task.state ==
         (if es[i].task.id in ids && !Terminal(es[i].task.state) then Canceled else es[i].task.state)
      && (fs[i].task.state == es[i].task.state ==> fs[i] == es[i])
  {
    hide EntriesOk, Change, Handle;
    if ids != [] {
      var front, last := ids[..|ids| - 1], ids[|ids| - 1];
      assert ids == front + [last];
      CancelTasksEffect(es, b, front, now, i);
      var fs := CancelTasks(es, b, front, now).0;
      CancelTasksStep(es, b, ids, now);
      ChangeOne(fs, last, now, i);
      AttemptEntry(fs, last, Canceled, now);
    }
  }

  lemma ChangeOne(es: seq<Entry>, id: Id, now: nat, i: nat)
    requires EntriesOk(es) && i < |es|
    ensures
      var fs := Change(es, id, Canceled, now).0;
      && |fs| == |es| && fs[i].task.id == es[i].task.id && fs[i].task.deps == es[i].task.deps
      && fs[i].task.state == (if es[i].task.id == id && !Terminal(es[i].task.state) then Canceled else es[i].task.state)
      && (es[i].task.id != id || Terminal(es[i].task.state) ==> fs[i] == es[i])
  {
    FindIs(es, i);
  }

  // ---- The failure flag and the output path ----

  ghost predicate BadIn(es: seq<Entry>, id: Id) {
    Known(es, id) && Bad(es[Find(es, id)].task.state)
  }

  ghost predicate RecordOk(es: seq<Entry>, w: Workflow) {
    && (w.failed <==> exists id :: id in w.taskIds && BadIn(es, id))
    && w.outputPath == if w.completed == w.total then OUTPUT_PATH else ""
  }

  ghost predicate Records(es: seq<Entry>, b: Board) {
    forall k :: 0 <= k < |b.active| ==> RecordOk(es, b.active[k])
  }

  /** Only the task id may become Failed or Canceled, and nobody recovers. */
  ghost predicate BadOnly(es: seq<Entry>, fs: seq<Entry>, id: Id, bad: bool) {
    forall x :: BadIn(fs, x) <==> BadIn(es, x) || (x == id && bad)
  }

  lemma RecordCarry(es: seq<Entry>, fs: seq<Entry>, w: Workflow, id: Id, bad: bool)
    requires RecordOk(es, w) && BadOnly(es, fs, id, bad) && (bad ==> id !in w.taskIds)
    ensures RecordOk(fs, w)
  {
    hide BadIn;
    if w.failed {
      var x :| x in w.taskIds && BadIn(es, x);
      assert BadIn(fs, x);
    }
  }

  /** A notification that reports the new state of its task keeps the records right. */
  lemma HandleRecords(es: seq<Entry>, fs: seq<Entry>, b: Board, n: Note)
    requires Tracks(es, b) && Records(es, b) && !SucceededIn(es, n.id) && BadOnly(es, fs, n.id, Bad(n.state))
    ensures Records(fs, Handle(b, n))
  {
    hide BadIn, BadOnly, SucceededIn, SucceededCount, CallCount, CompleteCount, CallsKnown, CallsMatch, EntriesOk;
    var c, k := Handle(b, n), Owner(b.active, n.id);
    if k < |b.active| { Incomplete(es, b, k, n.id); }
    forall i | 0 <= i < |c.active| ensures RecordOk(fs, c.active[i]) {
      if i != k {
        OwnerOnly(b.active, n.id, i);
        RecordCarry(es, fs, b.active[i], n.id, Bad(n.state));
      } else {
        OwnRecord(es, fs, b.active[k], n);
      }
    }
  }

  lemma OwnerOnly(ws: seq<Workflow>, id: Id, i: nat)
    requires Separate(ws) && i < |ws| && i != Owner(ws, id)
    ensures id !in ws[i].taskIds
  {
  }

  lemma OwnRecord(es: seq<Entry>, fs: seq<Entry>, w: Workflow, n: Note)
    requires RecordOk(es, w) && w.completed < w.total && n.id in w.taskIds && BadOnly(es, fs, n.id, Bad(n.state))
    ensures
      var v := Noted(w, n.state);
      RecordOk(fs, if v.completed == v.total then v.(outputPath := OUTPUT_PATH) else v)
  {
    hide BadIn;
    if Bad(n.state) {
      assert BadIn(fs, n.id);
    } else if w.failed {
      var x :| x in w.taskIds && BadIn(es, x);
      assert BadIn(fs, x);
    }
  }

  lemma RecordsCarry(es: seq<Entry>, fs: seq<Entry>, b: Board)
    requires Records(es, b) && forall x :: BadIn(fs, x) <==> BadIn(es, x)
    ensures Records(fs, b)
  {
    hide BadIn;
    forall k | 0 <= k < |b.active| ensures RecordOk(fs, b.active[k]) {
      RecordCarry(es, fs, b.active[k], "", false);
    }
  }

  // ---- Operations ----

  /** A legal change of one task that is not finished. */
  lemma ChangeBad(es: seq<Entry>, id: Id, to: TaskState, now: nat)
    requires EntriesOk(es) && (to == Queued ==> Known(es, id) && es[Find(es, id)].task.state == Paused)
    ensures
      var (fs, r) := Change(es, id, to, now);
      && (r.Ok? ==> BadOnly(es, fs, id, Bad(to)))
      && (r.Err? ==> fs == es)
  {
    var (fs, r) := Change(es, id, to, now);
    if r.Ok? {
      forall x ensures Find(fs, x) == Find(es, x) { FindSameIds(es, fs, x); }
      forall x ensures BadIn(fs, x) <==> BadIn(es, x) || (x == id && Bad(to)) {
        if Known(es, x) && x != id { assert Find(es, x) != Find(es, id); }
      }
    }
  }

  lemma AttemptRecords(es: seq<Entry>, b: Board, id: Id, to: TaskState, now: nat)
    requires Tracks(es, b) && Records(es, b) && to != Succeeded
    requires to == Queued ==> Known(es, id) && es[Find(es, id)].task.state == Paused
    ensures Records(Attempted(es, b, id, to, now).0, Attempted(es, b, id, to, now).1)
  {
    hide Change, Tracks, Records, Handle, BadOnly, SucceededIn, Find;
    TracksEntries(es, b);
    ChangeBad(es, id, to, now);
    AttemptEntry(es, id, to, now);
    var (fs, r) := Change(es, id, to, now);
    if r.Ok? { HandleRecords(es, fs, b, Note(id, to)); }
  }

  lemma {:induction false} CancelRecords(es: seq<Entry>, b: Board, ids: seq<Id>, now: nat)
    requires Tracks(es, b) && Records(es, b)
    ensures Records(CancelTasks(es, b, ids, now).0, CancelTasks(es, b, ids, now).1)
  {
    hide Tracks, Records, Attempted;
    if ids != [] {
      var front := ids[..|ids| - 1];
      CancelRecords(es, b, front, now);
      CancelTracks(es, b, front, now);
      var (fs, c) := CancelTasks(es, b, front, now);
      AttemptRecords(fs, c, ids[|ids| - 1], Canceled, now);
    }
  }

  lemma PromoteBad(es: seq<Entry>, now: nat)
    requires EntriesOk(es)
    ensures forall x :: BadIn(Promote(es, now), x) <==> BadIn(es, x)
  {
    hide Promotable, Find;
    var ps := Promote(es, now);
    forall x ensures Find(ps, x) == Find(es, x) { FindSameIds(es, ps, x); }
    forall i | 0 <= i < |es| ensures Bad(ps[i].task.state) <==> Bad(es[i].task.state) {
      if Promotable(es, es[i]) { PromotableQueued(es, i); }
    }
  }

  lemma RunBad(es: seq<Entry>, b: nat, outcome: Outcome, now: nat)
    requires EntriesOk(es) && IsReady(es, b)
    ensures BadOnly(es, es[b := RanEntry(es[b], outcome, now)], es[b].task.id, Bad(OutcomeState(outcome)))
  {
    hide RanEntry, OutcomeState, Find;
    var fs := es[b := RanEntry(es[b], outcome, now)];
    RanState(es[b], outcome, now);
    FindIs(es, b);
    forall x ensures Find(fs, x) == Find(es, x) { FindSameIds(es, fs, x); }
    forall x | Known(es, x) && x != es[b].task.id ensures Find(es, x) != b { FindId(es, x); }
  }

  lemma FindId(es: seq<Entry>, x: Id)
    requires Known(es, x)
    ensures es[Find(es, x)].task.id == x
  {
  }

  lemma TickRecords(f: StageFn, reports: nat, es: seq<Entry>, bd: Board, now: nat)
    requires Tracks(es, bd) && Records(es, bd)
    ensures Records(Tick(f, es, now), HandleAll(bd, TickNotes(f, reports, es, now)))
  {
    hide Tracks, Records, Promote, RunOutcome, Find, Known, SucceededIn, RanEntry, OutcomeState, BadIn, BadOnly, Handle;
    var ps := Promote(es, now);
    TracksEntries(es, bd);
    PromoteEntries(es, now);
    PromoteBad(es, now);
    TracksCarry(es, ps, bd);
    RecordsCarry(es, ps, bd);
    var promotions := Promotions(es, |es|);
    EntriesUnique(es);
    PromotionNotes(es, |es|);
    HandleQuiet(es, bd, promotions);
    var best := BestOf(ps, |ps|);
    if best.None? {
      assert promotions + [] == promotions;
    } else {
      var b, id := best.value, ps[best.value].task.id;
      var outcome := RunOutcome(f, ps, b);
      var runs, last := Repeat(Note(id, Running), reports + 1), Note(id, OutcomeState(outcome));
      assert TickNotes(f, reports, es, now) == promotions + (runs + [last]);
      HandleAppend(bd, promotions, runs + [last]);
      HandleAppend(bd, runs, [last]);
      RunEntries(ps, b, outcome, now);
      HandleQuiet(ps, bd, runs);
      RunBad(ps, b, outcome, now);
      SingleNote(bd, last);
      HandleRecords(ps, Tick(f, es, now), bd, last);
    }
  }

  lemma ExtendBad(es: seq<Entry>, fs: seq<Entry>, a: Plan, k: nat)
    requires Extends(es, fs, a, k) && Unique(fs)
    ensures forall x :: BadIn(fs, x) <==> BadIn(es, x)
  {
    ExtendsFresh(es, fs, a, k);
    forall x ensures BadIn(fs, x) <==> BadIn(es, x) {
      KnownAfter(es, fs, a, k, x);
      if Known(es, x) {
        FindAppend(es, fs, x);
        assert fs[Find(es, x)] == fs[..|es|][Find(es, x)];
      } else if Known(fs, x) {
        var j: nat :| j < k && a.ids[j] == x;
        assert Find(fs, x) == |es| + j && fs[|es| + j].task.state in {Queued, Ready};
      }
    }
  }

  lemma StartRecords(es: seq<Entry>, b: Board, a: Plan, now: nat)
    requires PlanOk(a) && Tracks(es, b) && Records(es, b)
    ensures Records(Start(es, b, a, now).0, Start(es, b, a, now).1)
  {
    hide Tracks, Accepts, Submitted, EntriesOk, BadIn, CancelTasks;
    var k := Rejected(es, a, 0, now);
    var fs := Submitted(es, a, k, now);
    TracksEntries(es, b);
    SubmittedExtends(es, a, k, now);
    EntriesUnique(fs);
    ExtendBad(es, fs, a, k);
    RecordsCarry(es, fs, b);
    if k < |a.ids| {
      TracksExtend(es, fs, b);
      CancelRecords(fs, b, a.ids[..k + 1], now);
    } else {
      forall id | id in a.ids ensures !BadIn(fs, id) { FreshNotBad(es, fs, a, id); }
      assert RecordOk(fs, NewWorkflow(a));
    }
  }

  lemma FreshNotBad(es: seq<Entry>, fs: seq<Entry>, a: Plan, id: Id)
    requires Extends(es, fs, a, |a.ids|) && Unique(fs) && id in a.ids
    ensures !BadIn(fs, id)
  {
    ExtendsFresh(es, fs, a, |a.ids|);
    var j: nat :| j < |a.ids| && a.ids[j] == id;
    assert Find(fs, id) == |es| + j && fs[|es| + j].task.state in {Queued, Ready};
  }

  lemma PerformRecords(w: World, op: Op)
    requires Tracks(w.entries, w.board) && Records(w.entries, w.board)
    ensures Records(Perform(w, op).entries, Perform(w, op).board)
  {
    hide Tracks, Records, Tick, TickNotes, Attempted, Start, Find, PlanOk;
    match op
    case TickOp(f, reports, now) => TickRecords(f, reports, w.entries, w.board, now);
    case CancelOp(id, now) => AttemptRecords(w.entries, w.board, id, Canceled, now);
    case PauseOp(id, now) => AttemptRecords(w.entries, w.board, id, Paused, now);
    case ResumeOp(id, now) =>
      if Known(w.entries, id) {
        TracksEntries(w.entries, w.board);
        EntriesLifecycle(w.entries, Find(w.entries, id));
        AttemptRecords(w.entries, w.board, id, PoolModel.ResumeTarget(w.entries[Find(w.entries, id)].task), now);
      }
    case StartOp(plan, now) => if PlanOk(plan) { StartRecords(w.entries, w.board, plan, now); }
    case CancelWorkflowOp(ids, now) => CancelRecords(w.entries, w.board, ids, now);
  }

  lemma {:induction false} AlwaysRecords(ops: seq<Op>)
    ensures Records(After(ops).entries, After(ops).board)
  {
    hide Tracks, Records, Perform;
    if ops == [] {
      NothingRecorded();
    } else {
      AlwaysRecords(ops[..|ops| - 1]);
      AlwaysTracks(ops[..|ops| - 1]);
      PerformRecords(After(ops[..|ops| - 1]), ops[|ops| - 1]);
    }
  }

  lemma NothingRecorded()
    ensures Records(IDLE.entries, IDLE.board)
  {
  }

  /**
   After any sequence of starts, ticks, pauses, resumes and cancels a workflow is marked as failed exactly if one of its
   tasks is Failed or Canceled, and it has its output path exactly if all of its tasks have Succeeded.
   */
  lemma RecordsTellOutcome(ops: seq<Op>, k: nat)
    requires k < |After(ops).board.active|
    ensures
      var w, es := After(ops).board.active[k], After(ops).entries;
      && (w.failed <==> exists id :: id in w.taskIds && BadIn(es, id))
      && w.outputPath == (if forall id :: id in w.taskIds ==> SucceededIn(es, id) then OUTPUT_PATH else "")
  {
    AlwaysRecords(ops);
    CompletionExactlyOnce(ops, k);
    assert RecordOk(After(ops).entries, After(ops).board.active[k]);
    CountBound(After(ops).entries, After(ops).board.active[k].taskIds);
    hide After, CallCount, DoneCount, BadIn, SucceededIn, SucceededCount;
  }
}
