/** The single-threaded scheduler as a list of entries, and what its ticks achieve (core/src/scheduler.cpp). */
module SimpleModel {
  import opened Tasks
  import opened Evaluation
  import PoolModel
  import opened Workload

  datatype Entry = Entry(task: Task, stage: Stage, outputs: Outputs)

  /** A notification to the registered callbacks. */
  datatype Note = Note(id: Id, state: TaskState)

  /** Position of the first entry with the given id, or the number of entries. */
  function Find(es: seq<Entry>, id: Id): (k: nat)
    ensures k <= |es|
    ensures k < |es| ==> es[k].task.id == id
    ensures forall i :: 0 <= i < k ==> es[i].task.id != id
  {
    if es == [] || es[0].task.id == id then 0 else 1 + Find(es[1..], id)
  }

  predicate Known(es: seq<Entry>, id: Id) {
    Find(es, id) < |es|
  }

  predicate SucceededIn(es: seq<Entry>, id: Id) {
    Known(es, id) && es[Find(es, id)].task.state == Succeeded
  }

  // ---- Submit and control ----

  function Submit(es: seq<Entry>, t: Task, stage: Option<Stage>, now: nat): (seq<Entry>, Result) {
    if stage.None? || t.id == "" || Known(es, t.id) then (es, Err(INTERNAL_ERROR))
    else if exists d :: d in t.deps && (d == t.id || !Known(es, d)) then (es, Err(INTERNAL_ERROR))
    else if t.deps == [] && !Legal(t.state, Ready) then (es, Err(INTERNAL_ERROR))
    else (es + [Entry(if t.deps == [] then Transition(t, Ready, now) else t, stage.value, map[])], Ok)
  }

  function Change(es: seq<Entry>, id: Id, to: TaskState, now: nat): (seq<Entry>, Result) {
    var k := Find(es, id);
    if k < |es| && Legal(es[k].task.state, to) then
      (es[k := es[k].(task := Transition(es[k].task, to, now))], Ok)
    else (es, Err(INTERNAL_ERROR))
  }

  function Cancel(es: seq<Entry>, id: Id, now: nat): (seq<Entry>, Result) {
    Change(es, id, Canceled, now)
  }

  function Pause(es: seq<Entry>, id: Id, now: nat): (seq<Entry>, Result) {
    Change(es, id, Paused, now)
  }

  function Resume(es: seq<Entry>, id: Id, now: nat): (seq<Entry>, Result) {
    if Known(es, id) then Change(es, id, PoolModel.ResumeTarget(es[Find(es, id)].task), now)
    else (es, Err(INTERNAL_ERROR))
  }

  // ---- Tick ----

  predicate Promotable(es: seq<Entry>, e: Entry) {
    e.task.state == Queued && e.task.deps != [] && forall d :: d in e.task.deps ==> SucceededIn(es, d)
  }

  function Promote(es: seq<Entry>, now: nat): (r: seq<Entry>)
    ensures |r| == |es|
    ensures forall i :: 0 <= i < |es| ==>
      r[i] == if Promotable(es, es[i]) then es[i].(task := Transition(es[i].task, Ready, now)) else es[i]
  {
    seq(|es|, i requires 0 <= i < |es| =>
      if Promotable(es, es[i]) then es[i].(task := Transition(es[i].task, Ready, now)) else es[i])
  }

  /** The promoted ids, in order. */
  function Promotions(es: seq<Entry>, k: nat): seq<Note>
    requires k <= |es|
  {
    if k == 0 then []
    else if Promotable(es, es[k - 1]) then Promotions(es, k - 1) + [Note(es[k - 1].task.id, Ready)]
    else Promotions(es, k - 1)
  }

  predicate IsReady(es: seq<Entry>, i: nat) {
    i < |es| && es[i].task.state == Ready
  }

  /** r is the earliest of the Ready entries with the highest priority among the first k. */
  ghost predicate IsBest(es: seq<Entry>, k: nat, r: Option<nat>) {
    match r
    case None => forall i :: 0 <= i < k ==> !IsReady(es, i)
    case Some(b) =>
      && b < k && IsReady(es, b)
      && (forall i :: 0 <= i < k && IsReady(es, i) ==> es[i].task.priority <= es[b].task.priority)
      && (forall i :: 0 <= i < b && IsReady(es, i) ==> es[i].task.priority < es[b].task.priority)
  }

  function BestOf(es: seq<Entry>, k: nat): (r: Option<nat>)
    requires k <= |es|
    ensures IsBest(es, k, r)
  {
    if k == 0 then None
    else
      var b := BestOf(es, k - 1);
      if es[k - 1].task.state == Ready && (b.None? || es[k - 1].task.priority > es[b.value].task.priority)
      then Some(k - 1) else b
  }

  function OutputsIn(es: seq<Entry>): map<Id, Outputs> {
    map i | 0 <= i < |es| && Find(es, es[i].task.id) == i :: es[i].task.id := es[i].outputs
  }

  function RunOutcome(f: StageFn, es: seq<Entry>, b: nat): Outcome
    requires b < |es|
  {
    f(es[b].stage, Merge(OutputsIn(es), es[b].task.deps))
  }

  function OutcomeState(outcome: Outcome): TaskState {
    match outcome
    case Success(_) => Succeeded
    case Failure(error) => if error.category == CancelError then Canceled else Failed
  }

  function RanEntry(e: Entry, outcome: Outcome, now: nat): Entry {
    var started := Transition(e.task, Running, now);
    match outcome
    case Success(outputs) => Entry(Transition(started, Succeeded, now), e.stage, outputs)
    case Failure(error) => e.(task := Transition(started.(error := Some(error)), OutcomeState(outcome), now))
  }

  function Tick(f: StageFn, es: seq<Entry>, now: nat): (r: seq<Entry>)
    ensures |r| == |es|
  {
    var ps := Promote(es, now);
    var b := BestOf(ps, |ps|);
    if b.None? then ps else ps[b.value := RanEntry(ps[b.value], RunOutcome(f, ps, b.value), now)]
  }

  function Repeat(n: Note, k: nat): seq<Note> {
    seq(k, _ => n)
  }

  /** The notifications of a tick whose stage reports progress the given number of times. */
  function TickNotes(f: StageFn, reports: nat, es: seq<Entry>, now: nat): seq<Note> {
    var ps := Promote(es, now);
    var b := BestOf(ps, |ps|);
    Promotions(es, |es|) +
    if b.None? then []
    else
      var id := ps[b.value].task.id;
      Repeat(Note(id, Running), reports + 1) + [Note(id, OutcomeState(RunOutcome(f, ps, b.value)))]
  }

  // ---- What a tick notifies ----

  /** The state in the last notification about a task. */
  function LastNote(notes: seq<Note>, id: Id): Option<TaskState> {
    if notes == [] then None
    else
      var last := notes[|notes| - 1];
      if last.id == id then Some(last.state) else LastNote(notes[..|notes| - 1], id)
  }

  lemma {:induction false} LastNoteAppend(xs: seq<Note>, ys: seq<Note>, id: Id)
    ensures LastNote(xs + ys, id) == if LastNote(ys, id).Some? then LastNote(ys, id) else LastNote(xs, id)
  {
    if ys == [] {
      assert xs + ys == xs;
    } else {
      assert (xs + ys)[..|xs + ys| - 1] == xs + ys[..|ys| - 1];
      LastNoteAppend(xs, ys[..|ys| - 1], id);
    }
  }

  lemma {:induction false} LastPromotion(es: seq<Entry>, k: nat, i: nat)
    requires Unique(es) && k <= |es| && i < |es|
    ensures LastNote(Promotions(es, k), es[i].task.id) == if i < k && Promotable(es, es[i]) then Some(Ready) else None
  {
    hide Promotable, LastNote;
    if k == 0 {
      NoNote(es[i].task.id);
    } else {
      LastPromotion(es, k - 1, i);
      OneMoreNote(Promotions(es, k - 1), Note(es[k - 1].task.id, Ready), es[i].task.id);
      SameEntry(es, i, k - 1);
    }
  }

  lemma NoNote(id: Id)
    ensures LastNote([], id) == None
  {
  }

  lemma OneMoreNote(notes: seq<Note>, n: Note, id: Id)
    ensures LastNote(notes + [n], id) == if id == n.id then Some(n.state) else LastNote(notes, id)
  {
    assert (notes + [n])[..|notes|] == notes;
  }

  lemma SameEntry(es: seq<Entry>, i: nat, k: nat)
    requires Unique(es) && i < |es| && k < |es|
    ensures es[i].task.id == es[k].task.id <==> i == k
  {
  }

  lemma {:induction false} LastRepeat(n: Note, k: nat, id: Id)
    ensures LastNote(Repeat(n, k), id) == if k > 0 && id == n.id then Some(n.state) else None
  {
    if k > 0 {
      assert Repeat(n, k)[..k - 1] == Repeat(n, k - 1);
      LastRepeat(n, k - 1, id);
    }
  }

  lemma LastRun(n: Note, m: Note, k: nat, id: Id)
    requires n.id == m.id && k > 0
    ensures LastNote(Repeat(n, k) + [m], id) == if id == m.id then Some(m.state) else None
  {
    LastRepeat(n, k, id);
    OneMoreNote(Repeat(n, k), m, id);
    hide Repeat, LastNote;
  }

  lemma RanState(e: Entry, outcome: Outcome, now: nat)
    requires e.task.state == Ready
    ensures
      var r := RanEntry(e, outcome, now);
      && r.task.id == e.task.id && r.task.state == OutcomeState(outcome) && Terminal(OutcomeState(outcome))
      && r.task.error == (if outcome.Failure? then Some(outcome.error) else e.task.error)
      && r.task.finishedAt == Some(now)
  {
  }

  /**
   A tick tells about every task whose state it changes, and about no other; what it tells last is the new state.
   */
  lemma TickTells(f: StageFn, reports: nat, es: seq<Entry>, now: nat, i: nat)
    requires Unique(es) && i < |es|
    ensures
      var before, after := es[i].task.state, Tick(f, es, now)[i].task.state;
      LastNote(TickNotes(f, reports, es, now), es[i].task.id) == if after == before then None else Some(after)
  {
    hide Promotable, Repeat, RanEntry, RunOutcome, OutcomeState;
    var ps, id := Promote(es, now), es[i].task.id;
    LastPromotion(es, |es|, i);
    if Promotable(es, es[i]) { PromotableQueued(es, i); }
    var b := BestOf(ps, |ps|);
    if b.None? {
      LastNoteAppend(Promotions(es, |es|), [], id);
    } else {
      var rid, outcome := ps[b.value].task.id, RunOutcome(f, ps, b.value);
      var run := Repeat(Note(rid, Running), reports + 1) + [Note(rid, OutcomeState(outcome))];
      LastNoteAppend(Promotions(es, |es|), run, id);
      LastRun(Note(rid, Running), Note(rid, OutcomeState(outcome)), reports + 1, id);
      RanState(ps[b.value], outcome, now);
    }
  }

  lemma PromotableQueued(es: seq<Entry>, i: nat)
    requires i < |es| && Promotable(es, es[i])
    ensures es[i].task.state == Queued
  {
  }

  // ---- Invariant of submissions and ticks ----

  function JobsOf(es: seq<Entry>): (r: seq<Job>)
    ensures |r| == |es|
    ensures forall i :: 0 <= i < |es| ==>
      r[i] == Job(es[i].task.id, es[i].task.deps, es[i].stage, PoolModel.Admitted(es[i].task).demand)
  {
    seq(|es|, i requires 0 <= i < |es| =>
      Job(es[i].task.id, es[i].task.deps, es[i].stage, PoolModel.Admitted(es[i].task).demand))
  }

  predicate EntryOk(e: Entry) {
    && Lifecycle(e.task)
    && e.task.state != Running && e.task.state != Paused
    && (e.task.state == Queued ==> e.task.deps != [])
    && (e.task.state != Succeeded ==> e.outputs == map[])
    && (e.task.startedAt.Some? <==> Terminal(e.task.state))
  }

  predicate EntryMatches(e: Entry, v: Verdict) {
    match e.task.state
    case Succeeded => v == Done(e.outputs)
    case Failed => v == FailedHere
    case Canceled => v == CanceledHere
    case _ => true
  }

  ghost predicate Unique(es: seq<Entry>) {
    forall i, j :: 0 <= i < j < |es| ==> es[i].task.id != es[j].task.id
  }

  /** Distinct ids, dependencies listed earlier, and only tasks whose dependencies all succeeded are past Queued. */
  ghost predicate Shape(es: seq<Entry>) {
    && Unique(es)
    && (forall i :: 0 <= i < |es| ==> EntryOk(es[i]))
    && (forall i, d :: 0 <= i < |es| && d in es[i].task.deps ==> Earlier(JobsOf(es), d, i))
    && (forall i, d :: 0 <= i < |es| && es[i].task.state != Queued && d in es[i].task.deps ==> SucceededIn(es, d))
  }

  ghost predicate EntriesAgree(f: StageFn, es: seq<Entry>) {
    forall i :: 0 <= i < |es| ==>
      es[i].task.id in Evaluate(f, JobsOf(es)) && EntryMatches(es[i], Evaluate(f, JobsOf(es))[es[i].task.id])
  }

  lemma UniqueJobs(es: seq<Entry>)
    ensures Distinct(JobsOf(es)) <==> Unique(es)
  {
    assert forall i :: 0 <= i < |es| ==> JobsOf(es)[i].id == es[i].task.id;
  }

  lemma FindIs(es: seq<Entry>, i: nat)
    requires Unique(es) && i < |es|
    ensures Find(es, es[i].task.id) == i
  {
  }

  lemma FindSameIds(es: seq<Entry>, fs: seq<Entry>, id: Id)
    requires |es| == |fs| && forall i :: 0 <= i < |es| ==> es[i].task.id == fs[i].task.id
    ensures Find(es, id) == Find(fs, id)
  {
    var k, m := Find(es, id), Find(fs, id);
    if k < |es| { assert fs[k].task.id == id; }
    if m < |fs| { assert es[m].task.id == id; }
  }

  /** fs has the same tasks, and no task has left Succeeded. */
  ghost predicate Follows(es: seq<Entry>, fs: seq<Entry>) {
    && |fs| == |es|
    && forall i :: 0 <= i < |es| ==>
      && fs[i].task.id == es[i].task.id && fs[i].task.deps == es[i].task.deps && fs[i].stage == es[i].stage
      && fs[i].task.demand == es[i].task.demand
      && (es[i].task.state == Succeeded ==> fs[i] == es[i])
  }

  lemma FollowsJobs(es: seq<Entry>, fs: seq<Entry>)
    requires Follows(es, fs)
    ensures JobsOf(fs) == JobsOf(es)
    ensures forall d :: SucceededIn(es, d) ==> SucceededIn(fs, d)
  {
    forall d ensures Find(fs, d) == Find(es, d) { FindSameIds(es, fs, d); }
  }

  // ---- A tick keeps the invariant ----

  lemma PromoteKeeps(f: StageFn, es: seq<Entry>, now: nat)
    requires Shape(es) && EntriesAgree(f, es)
    ensures Shape(Promote(es, now)) && EntriesAgree(f, Promote(es, now)) && Follows(es, Promote(es, now))
    ensures forall i :: 0 <= i < |es| ==> Terminal(Promote(es, now)[i].task.state) == Terminal(es[i].task.state)
  {
    hide Evaluate, Find;
    var ps := Promote(es, now);
    forall i | 0 <= i < |es| ensures EntryOk(ps[i]) && ps[i].task.deps == es[i].task.deps
      ensures ps[i].task.state != Queued ==> es[i].task.state != Queued || Promotable(es, es[i])
      ensures Terminal(ps[i].task.state) ==> ps[i] == es[i]
    {
    }
    assert Follows(es, ps);
    FollowsJobs(es, ps);
  }

  lemma RanEntryOk(e: Entry, outcome: Outcome, now: nat)
    requires EntryOk(e) && e.task.state == Ready
    ensures
      var r := RanEntry(e, outcome, now);
      && EntryOk(r) && Terminal(r.task.state) && r.task.state == OutcomeState(outcome)
      && r.task.id == e.task.id && r.task.deps == e.task.deps && r.stage == e.stage && r.task.demand == e.task.demand
      && r.outputs == if outcome.Success? then outcome.outputs else map[]
  {
  }

  lemma RunMatches(f: StageFn, es: seq<Entry>, b: nat, now: nat)
    requires Shape(es) && EntriesAgree(f, es) && IsReady(es, b)
    ensures es[b].task.id in Evaluate(f, JobsOf(es))
    ensures EntryMatches(RanEntry(es[b], RunOutcome(f, es, b), now), Evaluate(f, JobsOf(es))[es[b].task.id])
  {
    hide Evaluate, Find, Merge;
    forall d | d in es[b].task.deps
      ensures Earlier(JobsOf(es), d, b) && d in OutputsIn(es) && d in Evaluate(f, JobsOf(es))
      ensures Evaluate(f, JobsOf(es))[d] == Done(OutputsIn(es)[d])
    {
      assert SucceededIn(es, d);
      var k := Find(es, d);
      assert EntryMatches(es[k], Evaluate(f, JobsOf(es))[es[k].task.id]);
    }
    UniqueJobs(es);
    JudgedByItself(f, JobsOf(es), b, OutputsIn(es));
    RanEntryOk(es[b], RunOutcome(f, es, b), now);
  }

  lemma RunKeeps(f: StageFn, es: seq<Entry>, b: nat, now: nat)
    requires Shape(es) && EntriesAgree(f, es) && IsReady(es, b)
    ensures
      var fs := es[b := RanEntry(es[b], RunOutcome(f, es, b), now)];
      Shape(fs) && EntriesAgree(f, fs) && Follows(es, fs) && Terminal(fs[b].task.state)
  {
    hide Evaluate, Find, RunOutcome;
    var fs := es[b := RanEntry(es[b], RunOutcome(f, es, b), now)];
    RanEntryOk(es[b], RunOutcome(f, es, b), now);
    RunMatches(f, es, b, now);
    FollowsJobs(es, fs);
  }

  lemma TickKeeps(f: StageFn, es: seq<Entry>, now: nat)
    requires Shape(es) && EntriesAgree(f, es)
    ensures Shape(Tick(f, es, now)) && EntriesAgree(f, Tick(f, es, now)) && Follows(es, Tick(f, es, now))
  {
    hide Shape, EntriesAgree, RanEntry, RunOutcome;
    var ps := Promote(es, now);
    PromoteKeeps(f, es, now);
    var b := BestOf(ps, |ps|);
    if b.Some? {
      RunKeeps(f, ps, b.value, now);
    }
  }

  lemma SubmitForms(es: seq<Entry>, t: Task, stage: Option<Stage>, now: nat)
    requires Initial(t)
    ensures
      var (fs, r) := Submit(es, t, stage, now);
      && (r.Err? ==> fs == es)
      && (r.Ok? ==>
            && stage.Some? && !Known(es, t.id) && t.id != "" && (forall d :: d in t.deps ==> Known(es, d) && d != t.id)
            && |fs| == |es| + 1 && fs[..|es|] == es
            && var e := fs[|es|];
               && EntryOk(e) && !Terminal(e.task.state) && e.task.id == t.id && e.task.deps == t.deps
               && e.task.demand == t.demand && stage == Some(e.stage)
               && (e.task.state == Ready <==> t.deps == []))
  {
  }

  /** What an accepted submission stores: the descriptor as it was handed in, Ready if it depends on nobody. */
  lemma SubmitStores(es: seq<Entry>, t: Task, stage: Option<Stage>, now: nat)
    requires Initial(t) && Submit(es, t, stage, now).1.Ok?
    ensures
      var fs := Submit(es, t, stage, now).0;
      && |fs| == |es| + 1 && fs[..|es|] == es
      && var e := fs[|es|];
         && e.task == t.(state := if t.deps == [] then Ready else Queued)
         && stage == Some(e.stage) && e.outputs == map[]
  {
  }

  /** A submission is accepted exactly if it has a stage and a new, non-empty id, and depends on known tasks only. */
  lemma SubmitAcceptedIff(es: seq<Entry>, t: Task, stage: Option<Stage>, now: nat)
    requires Initial(t)
    ensures Submit(es, t, stage, now).1 == Ok <==>
      && stage.Some? && t.id != "" && (forall i :: 0 <= i < |es| ==> es[i].task.id != t.id)
      && forall d :: d in t.deps ==> d != t.id && exists i :: 0 <= i < |es| && es[i].task.id == d
    ensures Submit(es, t, stage, now).1 != Ok ==> Submit(es, t, stage, now) == (es, Err(TaskError(InternalError, 4)))
  {
    KnownIff(es, t.id);
    forall d ensures Known(es, d) <==> exists i :: 0 <= i < |es| && es[i].task.id == d { KnownIff(es, d); }
    hide Find;
  }

  lemma KnownIff(es: seq<Entry>, id: Id)
    ensures Known(es, id) <==> exists i :: 0 <= i < |es| && es[i].task.id == id
  {
    if Known(es, id) { assert es[Find(es, id)].task.id == id; }
  }

  lemma AppendKeepsEvaluation(f: StageFn, es: seq<Entry>, fs: seq<Entry>)
    requires |fs| == |es| + 1 && fs[..|es|] == es && Distinct(JobsOf(fs))
    ensures forall i :: 0 <= i < |fs| ==> fs[i].task.id in Evaluate(f, JobsOf(fs))
    ensures forall i :: 0 <= i < |es| ==>
      && es[i].task.id in Evaluate(f, JobsOf(es))
      && Evaluate(f, JobsOf(fs))[es[i].task.id] == Evaluate(f, JobsOf(es))[es[i].task.id]
  {
    hide Evaluate;
    var js := JobsOf(fs);
    assert js[..|es|] == JobsOf(es);
    forall i | 0 <= i < |es| ensures fs[i] == es[i] {}
    forall i | 0 <= i < |es| ensures es[i].task.id in Evaluate(f, JobsOf(es)) && es[i].task.id in Evaluate(f, js) &&
      Evaluate(f, js)[es[i].task.id] == Evaluate(f, JobsOf(es))[es[i].task.id]
    {
      PrefixAgrees(f, js, i, |es|);
      assert js[i].id == es[i].task.id;
    }
    EvaluateStable(f, js, |es|);
  }

  lemma AppendKeepsShape(es: seq<Entry>, fs: seq<Entry>)
    requires Shape(es) && |fs| == |es| + 1 && fs[..|es|] == es
    requires var e := fs[|es|];
      && EntryOk(e) && !Known(es, e.task.id) && (e.task.state == Queued || e.task.deps == [])
      && forall d :: d in e.task.deps ==> Known(es, d)
    ensures Shape(fs)
  {
    hide Find, EntryOk;
    var js := JobsOf(fs);
    forall i | 0 <= i < |es| ensures fs[i] == es[i] && js[i] == JobsOf(es)[i] {}
    assert Unique(fs) by { FreshId(es, fs[|es|].task.id); }
    forall i, d | 0 <= i < |fs| && d in fs[i].task.deps ensures Earlier(js, d, i) {
      if i < |es| {
        var k :| 0 <= k < i && k < |JobsOf(es)| && JobsOf(es)[k].id == d;
        assert js[k].id == d;
      } else {
        var k := KnownAt(es, d);
        assert js[k].id == d;
      }
    }
    forall i, d | 0 <= i < |fs| && fs[i].task.state != Queued && d in fs[i].task.deps ensures SucceededIn(fs, d) {
      if i < |es| { assert SucceededIn(es, d); }
      FindAppend(es, fs, d);
    }
  }

  lemma KnownAt(es: seq<Entry>, id: Id) returns (k: nat)
    requires Known(es, id)
    ensures k < |es| && es[k].task.id == id
  {
    k := Find(es, id);
  }

  lemma SubmitKeeps(f: StageFn, es: seq<Entry>, t: Task, stage: Option<Stage>, now: nat)
    requires Shape(es) && EntriesAgree(f, es) && Initial(t)
    ensures Shape(Submit(es, t, stage, now).0) && EntriesAgree(f, Submit(es, t, stage, now).0)
    ensures
      var (fs, r) := Submit(es, t, stage, now);
      && |fs| == |es| + (if r.Ok? then 1 else 0) && fs[..|es|] == es
      && (r.Ok? ==> fs[|es|].task.id == t.id && fs[|es|].task.deps == t.deps && stage == Some(fs[|es|].stage))
  {
    hide Evaluate, Find, Submit, Shape, EntryOk;
    var fs := Submit(es, t, stage, now).0;
    SubmitForms(es, t, stage, now);
    if Submit(es, t, stage, now).1.Ok? {
      AppendKeepsShape(es, fs);
      ShapeDistinct(fs);
      AppendKeepsEvaluation(f, es, fs);
      forall i | 0 <= i < |es| ensures fs[i] == es[i] {}
    }
  }

  lemma EmptyShape(f: StageFn)
    ensures Shape([]) && EntriesAgree(f, [])
  {
  }

  // ---- Submitting a whole workload ----

  function SubmitAll(calls: seq<Call>, now: nat): seq<Entry> {
    if calls == [] then []
    else
      var last := calls[|calls| - 1];
      Submit(SubmitAll(calls[..|calls| - 1], now), last.task, last.stage, now).0
  }

  /** The single-threaded scheduler accepts all of these calls: it then holds exactly their jobs, in order. */
  lemma {:induction false} SubmitAllAccepted(f: StageFn, calls: seq<Call>, now: nat)
    requires CallsOk(calls)
    ensures Shape(SubmitAll(calls, now)) && EntriesAgree(f, SubmitAll(calls, now))
    ensures JobsOf(SubmitAll(calls, now)) == CallJobs(calls)
  {
    hide Shape, EntriesAgree, Submit, CallsOk, CallJob;
    if calls == [] {
      EmptyShape(f);
    } else {
      var k := |calls| - 1;
      CallsOkFront(calls, k);
      SubmitAllAccepted(f, calls[..k], now);
      var es := SubmitAll(calls[..k], now);
      assert forall i :: 0 <= i < k ==> JobsOf(es)[i] == CallJobs(calls)[i];
      NextAccepted(f, es, calls, k, now);
      SubmitKeeps(f, es, calls[k].task, calls[k].stage, now);
    }
  }

  lemma NextAccepted(f: StageFn, es: seq<Entry>, calls: seq<Call>, k: nat, now: nat)
    requires CallsOk(calls) && k < |calls| && |es| == k
    requires forall i :: 0 <= i < k ==> JobsOf(es)[i] == CallJobs(calls)[i]
    ensures
      var (fs, r) := Submit(es, calls[k].task, calls[k].stage, now);
      r == Ok && |fs| == k + 1 && fs[..k] == es && JobsOf(fs)[k] == CallJobs(calls)[k]
      && Initial(calls[k].task)
  {
    var call, js := calls[k], CallJobs(calls);
    assert forall i :: 0 <= i < k ==> es[i].task.id == js[i].id;
    assert !Known(es, call.task.id);
    assert AllEarlier(js, k);
    forall d | d in call.task.deps ensures Known(es, d) && d != call.task.id {
      assert d in js[k].deps;
      var j :| 0 <= j < k && j < |js| && js[j].id == d;
      assert es[j].task.id == d;
    }
  }

  lemma ShapeDistinct(es: seq<Entry>)
    requires Shape(es)
    ensures Distinct(JobsOf(es))
  {
    UniqueJobs(es);
  }

  lemma FreshId(es: seq<Entry>, id: Id)
    requires !Known(es, id)
    ensures forall i :: 0 <= i < |es| ==> es[i].task.id != id
  {
  }

  lemma FindAppend(es: seq<Entry>, fs: seq<Entry>, id: Id)
    requires |fs| >= |es| && fs[..|es|] == es && Known(es, id)
    ensures Find(fs, id) == Find(es, id)
  {
    assert forall i :: 0 <= i < |es| ==> fs[i] == es[i];
  }

  // ---- Progress ----

  function Open(es: seq<Entry>): nat {
    if es == [] then 0 else Open(es[..|es| - 1]) + if Terminal(es[|es| - 1].task.state) then 0 else 1
  }

  lemma {:induction false} OpenChange(es: seq<Entry>, fs: seq<Entry>, b: nat)
    requires |es| == |fs| && b < |es|
    requires forall i :: 0 <= i < |es| && i != b ==> Terminal(es[i].task.state) == Terminal(fs[i].task.state)
    ensures Open(fs) + (if Terminal(es[b].task.state) then 0 else 1) ==
      Open(es) + if Terminal(fs[b].task.state) then 0 else 1
  {
    if b < |es| - 1 {
      OpenChange(es[..|es| - 1], fs[..|fs| - 1], b);
    } else if |es| > 1 {
      OpenSame(es[..|es| - 1], fs[..|fs| - 1]);
    }
  }

  lemma {:induction false} OpenSame(es: seq<Entry>, fs: seq<Entry>)
    requires |es| == |fs| && forall i :: 0 <= i < |es| ==> Terminal(es[i].task.state) == Terminal(fs[i].task.state)
    ensures Open(fs) == Open(es)
  {
    if es != [] { OpenSame(es[..|es| - 1], fs[..|fs| - 1]); }
  }

  lemma {:induction false} OpenZero(es: seq<Entry>, i: nat)
    requires Open(es) == 0 && i < |es|
    ensures Terminal(es[i].task.state)
  {
    if i < |es| - 1 { OpenZero(es[..|es| - 1], i); }
  }

  lemma {:induction false} OpenBound(es: seq<Entry>)
    ensures Open(es) <= |es|
  {
    if es != [] { OpenBound(es[..|es| - 1]); }
  }

  /** Nothing is Ready and nothing can be promoted. */
  ghost predicate Quiet(es: seq<Entry>) {
    forall i :: 0 <= i < |es| ==> !IsReady(es, i) && !Promotable(es, es[i])
  }

  lemma QuietStays(f: StageFn, es: seq<Entry>, now: nat)
    requires Quiet(es)
    ensures Tick(f, es, now) == es
  {
    hide Promotable, RanEntry, RunOutcome;
    assert Promote(es, now) == es;
  }

  /** A tick either finishes exactly one task, or finds nothing to do and changes nothing. */
  lemma TickWorksOrRests(f: StageFn, es: seq<Entry>, now: nat)
    requires Shape(es) && EntriesAgree(f, es)
    ensures if Quiet(es) then Tick(f, es, now) == es else Open(Tick(f, es, now)) == Open(es) - 1
  {
    hide Shape, EntriesAgree, RanEntry, RunOutcome, Promotable;
    if Quiet(es) {
      QuietStays(f, es, now);
    } else {
      var ps := Promote(es, now);
      PromoteKeeps(f, es, now);
      OpenSame(es, ps);
      var b := BestOf(ps, |ps|);
      var i :| 0 <= i < |es| && (IsReady(es, i) || Promotable(es, es[i]));
      PromotedReady(es, i, now);
      assert IsReady(ps, i);
      RunKeeps(f, ps, b.value, now);
      OpenChange(ps, Tick(f, es, now), b.value);
    }
  }

  lemma PromotedReady(es: seq<Entry>, i: nat, now: nat)
    requires i < |es| && (IsReady(es, i) || Promotable(es, es[i]))
    ensures IsReady(Promote(es, now), i)
  {
  }

  function Ticks(f: StageFn, es: seq<Entry>, times: seq<nat>): seq<Entry> {
    if times == [] then es else Tick(f, Ticks(f, es, times[..|times| - 1]), times[|times| - 1])
  }

  lemma {:induction false} TicksKeep(f: StageFn, es: seq<Entry>, times: seq<nat>)
    requires Shape(es) && EntriesAgree(f, es)
    ensures Shape(Ticks(f, es, times)) && EntriesAgree(f, Ticks(f, es, times)) && Follows(es, Ticks(f, es, times))
    ensures Open(Ticks(f, es, times)) + |times| >= Open(es)
    ensures Open(Ticks(f, es, times)) + |times| == Open(es) || Quiet(Ticks(f, es, times))
  {
    hide Shape, EntriesAgree, Tick, Quiet;
    if times != [] {
      var front, last := times[..|times| - 1], times[|times| - 1];
      TicksKeep(f, es, front);
      var mid := Ticks(f, es, front);
      TickKeeps(f, mid, last);
      TickWorksOrRests(f, mid, last);
    }
  }

  lemma EnoughTicks(f: StageFn, es: seq<Entry>, times: seq<nat>)
    requires Shape(es) && EntriesAgree(f, es) && |times| >= Open(es)
    ensures Quiet(Ticks(f, es, times))
  {
    hide Shape, EntriesAgree, Tick, Ticks, Promotable;
    TicksKeep(f, es, times);
    var fs := Ticks(f, es, times);
    if Open(fs) == 0 {
      forall i | 0 <= i < |fs| ensures !IsReady(fs, i) && !Promotable(fs, fs[i]) {
        OpenZero(fs, i);
        TerminalNotPromotable(fs, i);
      }
    }
  }

  lemma TerminalNotPromotable(es: seq<Entry>, i: nat)
    requires i < |es| && Terminal(es[i].task.state)
    ensures !Promotable(es, es[i])
  {
  }

  /** A verdict as the state in which this scheduler leaves the task: what is blocked stays Queued. */
  function FinalState(v: Verdict): TaskState {
    match v
    case Done(_) => Succeeded
    case FailedHere => Failed
    case CanceledHere => Canceled
    case Blocked => Queued
  }

  lemma WaitsFor(es: seq<Entry>, i: nat) returns (k: nat)
    requires Shape(es) && Quiet(es) && i < |es| && !Terminal(es[i].task.state)
    ensures k < i && es[k].task.id in es[i].task.deps && es[k].task.state != Succeeded
  {
    hide Find;
    assert !IsReady(es, i) && !Promotable(es, es[i]);
    var d :| d in es[i].task.deps && !SucceededIn(es, d);
    assert Earlier(JobsOf(es), d, i);
    k :| 0 <= k < i && k < |JobsOf(es)| && JobsOf(es)[k].id == d;
    FindIs(es, k);
  }

  lemma {:induction false} QuietIsFinal(f: StageFn, es: seq<Entry>, i: nat)
    requires Shape(es) && EntriesAgree(f, es) && Quiet(es) && i < |es|
    ensures es[i].task.id in Evaluate(f, JobsOf(es))
    ensures es[i].task.state == FinalState(Evaluate(f, JobsOf(es))[es[i].task.id])
    decreases i
  {
    hide Evaluate, Find;
    var E := Evaluate(f, JobsOf(es));
    assert EntryMatches(es[i], E[es[i].task.id]);
    if !Terminal(es[i].task.state) {
      var k := WaitsFor(es, i);
      QuietIsFinal(f, es, k);
      hide Shape;
      UniqueJobs(es);
      BlockedBy(f, JobsOf(es), k, i);
    }
  }

  lemma TicksReachVerdict(f: StageFn, es: seq<Entry>, times: seq<nat>, i: nat)
    requires Shape(es) && EntriesAgree(f, es) && |times| >= |es| && i < |es|
    ensures |Ticks(f, es, times)| == |es| && es[i].task.id in Evaluate(f, JobsOf(es))
    ensures
      var e, v := Ticks(f, es, times)[i], Evaluate(f, JobsOf(es))[es[i].task.id];
      && e.task.id == es[i].task.id && e.task.state == FinalState(v)
      && e.outputs == (if v.Done? then v.outputs else map[])
      && (e.task.startedAt.Some? <==> v != Blocked)
  {
    hide Evaluate, Find, Ticks, Quiet;
    OpenBound(es);
    TicksKeep(f, es, times);
    EnoughTicks(f, es, times);
    var fs := Ticks(f, es, times);
    FollowsJobs(es, fs);
    QuietIsFinal(f, fs, i);
    assert EntryOk(fs[i]) && EntryMatches(fs[i], Evaluate(f, JobsOf(fs))[fs[i].task.id]);
  }

  lemma ShapeAnchored(f: StageFn, es: seq<Entry>)
    requires Shape(es)
    ensures Distinct(JobsOf(es)) && Anchored(f, JobsOf(es))
  {
    hide EntryOk;
    UniqueJobs(es);
    forall k: nat | k < |es| ensures AllEarlier(JobsOf(es), k) {
      assert JobsOf(es)[k].deps == es[k].task.deps;
    }
  }

  /**
   After as many ticks as tasks, every task is where the evaluation in submission order puts it: executed with that
   result and those outputs, or left Queued. The tasks left Queued are exactly those with a Failed or Canceled ancestor.
   */
  lemma TicksReachEvaluation(f: StageFn, es: seq<Entry>, times: seq<nat>, i: nat)
    requires Shape(es) && EntriesAgree(f, es) && |times| >= |es| && i < |es|
    ensures |Ticks(f, es, times)| == |es| && es[i].task.id in Evaluate(f, JobsOf(es))
    ensures
      var e, v := Ticks(f, es, times)[i], Evaluate(f, JobsOf(es))[es[i].task.id];
      && e.task.id == es[i].task.id && e.task.state == FinalState(v)
      && e.outputs == (if v.Done? then v.outputs else map[])
      && (e.task.startedAt.Some? <==> v != Blocked)
    ensures !Terminal(Ticks(f, es, times)[i].task.state) <==> BadAncestor(JobsOf(es), Ticks(f, es, times), i)
  {
    hide Evaluate, Ticks, Shape, EntriesAgree, FailedAncestor;
    var js, fs := JobsOf(es), Ticks(f, es, times);
    forall a: nat | a < |es|
      ensures |fs| == |es| && js[a].id in Evaluate(f, js)
      ensures Bad(fs[a].task.state) <==> FailsItself(f, js, a)
      ensures Terminal(fs[a].task.state) <==> Evaluate(f, js)[js[a].id] != Blocked
    {
      TicksReachVerdict(f, es, times, a);
    }
    TicksReachVerdict(f, es, times, i);
    ShapeAnchored(f, es);
    BlockedIff(f, js, i);
    BadIsFailed(f, js, fs, i);
  }

  /** Some ancestor of task i is Failed or Canceled. */
  ghost predicate BadAncestor(log: seq<Job>, es: seq<Entry>, i: nat) {
    exists a: nat :: a < |es| && Ancestor(log, a, i) && Bad(es[a].task.state)
  }

  lemma BadIsFailed(f: StageFn, log: seq<Job>, es: seq<Entry>, i: nat)
    requires |log| == |es| && forall a: nat :: a < |es| ==> (Bad(es[a].task.state) <==> FailsItself(f, log, a))
    ensures BadAncestor(log, es, i) <==> FailedAncestor(f, log, i)
  {
    hide Ancestor;
    if FailedAncestor(f, log, i) {
      var a: nat :| Ancestor(log, a, i) && FailsItself(f, log, a);
      assert a < |log| by { assert FailsItself(f, log, a); }
    }
  }

  /** If no stage ever fails, every verdict is Done. */
  lemma {:induction false} NothingFails(f: StageFn, es: seq<Entry>, i: nat)
    requires Shape(es) && i < |es| && forall stage, inputs :: f(stage, inputs).Success?
    ensures es[i].task.id in Evaluate(f, JobsOf(es)) && Evaluate(f, JobsOf(es))[es[i].task.id].Done?
    decreases i
  {
    hide Evaluate, Find, EntryOk;
    var js, E := JobsOf(es), Evaluate(f, JobsOf(es));
    UniqueJobs(es);
    forall d | d in js[i].deps
      ensures Earlier(js, d, i) && d in E && d in DoneOutputs(E) && E[d] == Done(DoneOutputs(E)[d])
    {
      var k :| 0 <= k < i && k < |js| && js[k].id == d;
      NothingFails(f, es, k);
    }
    JudgedByItself(f, js, i, DoneOutputs(E));
  }

  /** If no stage ever fails, each tick finishes one more task until all have succeeded. */
  lemma {:induction false} EveryTickCounts(f: StageFn, es: seq<Entry>, times: seq<nat>)
    requires Shape(es) && EntriesAgree(f, es) && forall stage, inputs :: f(stage, inputs).Success?
    ensures Open(Ticks(f, es, times)) == if |times| <= Open(es) then Open(es) - |times| else 0
  {
    hide Shape, EntriesAgree, Ticks, Tick, Evaluate;
    TicksKeep(f, es, times);
    var fs := Ticks(f, es, times);
    if Quiet(fs) {
      forall i | 0 <= i < |fs| ensures Terminal(fs[i].task.state) {
        QuietIsFinal(f, fs, i);
        NothingFails(f, fs, i);
      }
      NoneOpen(fs);
    }
  }

  lemma {:induction false} NoneOpen(es: seq<Entry>)
    requires forall i :: 0 <= i < |es| ==> Terminal(es[i].task.state)
    ensures Open(es) == 0
  {
    if es != [] { NoneOpen(es[..|es| - 1]); }
  }

  /** Each tick runs a highest-priority Ready task, the earliest on ties, whose dependencies have all succeeded. */
  lemma TickRunsTheBest(f: StageFn, es: seq<Entry>, now: nat, i: nat)
    requires Shape(es) && EntriesAgree(f, es) && i < |es|
    requires Terminal(Tick(f, es, now)[i].task.state) && !Terminal(es[i].task.state)
    ensures IsReady(es, i) || Promotable(es, es[i])
    ensures forall d :: d in es[i].task.deps ==> SucceededIn(es, d)
    ensures forall j :: 0 <= j < |es| && (IsReady(es, j) || Promotable(es, es[j])) ==>
      es[j].task.priority <= es[i].task.priority && (j < i ==> es[j].task.priority < es[i].task.priority)
    ensures forall j :: 0 <= j < |es| && j != i ==>
      Terminal(Tick(f, es, now)[j].task.state) == Terminal(es[j].task.state)
  {
    hide RanEntry, RunOutcome, Find, Evaluate;
    var ps := Promote(es, now);
    PromoteKeeps(f, es, now);
    var b := BestOf(ps, |ps|);
    assert b == Some(i);
    forall j | 0 <= j < |es| && (IsReady(es, j) || Promotable(es, es[j])) ensures IsReady(ps, j) {
      PromotedReady(es, j, now);
    }
  }

  // ---- Resume on a task that is not paused ----

  /**
   Resume is meant for paused tasks. On a task that is not paused it is refused, except for a Ready one, which it
   moves to Running although no tick will ever execute it.
   */
  lemma ResumeOfUnpausedIff(es: seq<Entry>, id: Id, now: nat)
    requires Known(es, id) && Lifecycle(es[Find(es, id)].task) && es[Find(es, id)].task.state != Paused
    ensures Resume(es, id, now).1 == Ok <==> es[Find(es, id)].task.state == Ready
    ensures Resume(es, id, now).1 == Ok ==> Resume(es, id, now).0[Find(es, id)].task.state == Running
  {
  }

  /** A task that a tick finds Running is never touched by any tick again. */
  lemma {:induction false} RunningIsStranded(f: StageFn, es: seq<Entry>, times: seq<nat>, i: nat)
    requires i < |es| && es[i].task.state == Running
    ensures |Ticks(f, es, times)| == |es| && Ticks(f, es, times)[i] == es[i]
  {
    hide Find;
    if times != [] {
      RunningIsStranded(f, es, times[..|times| - 1], i);
    }
  }

  /** A root task, resumed before its first tick, is accepted by no tick: it stays Running for ever. */
  lemma FreshRootIsStranded(f: StageFn, t: Task, stage: Stage, now: nat, times: seq<nat>)
    requires Initial(t) && t.id != "" && t.deps == []
    ensures
      var (es, r) := Submit([], t, Some(stage), now);
      var (fs, s) := Resume(es, t.id, now);
      && r == Ok && |es| == 1 && es[0].task.state == Ready
      && s == Ok && |fs| == 1 && fs[0].task.state == Running && Ticks(f, fs, times) == fs
  {
    var es := Submit([], t, Some(stage), now).0;
    assert Find(es, t.id) == 0;
    var fs := Resume(es, t.id, now).0;
    RunningIsStranded(f, fs, times, 0);
  }

  /** On a paused task resume does restore the state. */
  lemma PauseResumeRestores(es: seq<Entry>, id: Id, now: nat, later: nat)
    requires Known(es, id) && Lifecycle(es[Find(es, id)].task)
    ensures Pause(es, id, now).1 == Ok <==> Legal(es[Find(es, id)].task.state, Paused)
    ensures Pause(es, id, now).1 == Ok ==> Resume(Pause(es, id, now).0, id, later) == (es, Ok)
  {
    var k := Find(es, id);
    if Legal(es[k].task.state, Paused) {
      var ps := Pause(es, id, now).0;
      FindSameIds(es, ps, id);
      PauseThenRestore(es[k].task, now, later);
      assert ps[k := es[k]] == es;
    }
  }
}
