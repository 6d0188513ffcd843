/** The single-threaded scheduler as the class it is, proved against SimpleModel. */
module Simple {
  import opened Tasks
  import opened Evaluation
  import opened SimpleModel
  import PoolModel

  /** es with the promotions of its first k entries applied. */
  ghost function PromotedUpTo(es: seq<Entry>, k: nat, now: nat): seq<Entry>
    requires k <= |es|
  {
    Promote(es, now)[..k] + es[k..]
  }

  lemma PromotedSucceeds(es: seq<Entry>, k: nat, now: nat, d: Id)
    requires k <= |es|
    ensures Find(PromotedUpTo(es, k, now), d) == Find(es, d)
    ensures SucceededIn(PromotedUpTo(es, k, now), d) <==> SucceededIn(es, d)
  {
    var ps := PromotedUpTo(es, k, now);
    forall i | 0 <= i < |es|
      ensures ps[i].task.id == es[i].task.id && (ps[i].task.state == Succeeded <==> es[i].task.state == Succeeded)
    {
    }
    FindSameIds(es, ps, d);
  }

  lemma FindFrom(es: seq<Entry>, id: Id, k: nat)
    requires k <= |es| && (forall i :: 0 <= i < k ==> es[i].task.id != id) && (k < |es| ==> es[k].task.id == id)
    ensures Find(es, id) == k
  {
  }

  class SimpleScheduler {
    var entries: seq<Entry>
    /** The cancel tokens on which cancellation was requested; the scheduler itself never looks at them. */
    var tokens: set<Token>

    constructor ()
      ensures entries == [] && tokens == {}
    {
      entries, tokens := [], {};
    }

    method FindEntry(id: Id) returns (k: nat)
      ensures k == Find(entries, id)
    {
      k := 0;
      while k < |entries| && entries[k].task.id != id
        invariant k <= |entries| && forall i :: 0 <= i < k ==> entries[i].task.id != id
      {
        k := k + 1;
      }
      FindFrom(entries, id, k);
    }

    method Submit(t: Task, stage: Option<Stage>, now: nat) returns (r: Result)
      modifies this`entries
      ensures (entries, r) == SimpleModel.Submit(old(entries), t, stage, now)
    {
      if stage.None? {
        return Err(INTERNAL_ERROR);
      }
      if t.id == "" {
        return Err(INTERNAL_ERROR);
      }
      var k := FindEntry(t.id);
      if k < |entries| {
        return Err(INTERNAL_ERROR);
      }
      var i := 0;
      while i < |t.deps|
        invariant i <= |t.deps| && entries == old(entries)
        invariant forall j :: 0 <= j < i ==> t.deps[j] != t.id && Known(entries, t.deps[j])
      {
        assert t.deps[i] in t.deps;
        if t.deps[i] == t.id {
          return Err(INTERNAL_ERROR);
        }
        var d := FindEntry(t.deps[i]);
        if d == |entries| {
          return Err(INTERNAL_ERROR);
        }
        i := i + 1;
      }
      assert forall d :: d in t.deps ==> d != t.id && Known(entries, d);
      if t.deps == [] && !Legal(t.state, Ready) {
        return Err(INTERNAL_ERROR);
      }
      entries := entries + [Entry(if t.deps == [] then Transition(t, Ready, now) else t, stage.value, map[])];
      return Ok;
    }

    /** An attempted transition of one task, notified if it was legal. */
    method Change(id: Id, to: TaskState, now: nat) returns (r: Result, notes: seq<Note>)
      modifies this`entries
      ensures (entries, r) == SimpleModel.Change(old(entries), id, to, now)
      ensures notes == if r.Ok? then [Note(id, to)] else []
    {
      var k := FindEntry(id);
      if k == |entries| || !Legal(entries[k].task.state, to) {
        return Err(INTERNAL_ERROR), [];
      }
      entries := entries[k := entries[k].(task := Transition(entries[k].task, to, now))];
      return Ok, [Note(id, to)];
    }

    /** Cancellation is requested on the token of a known task even if its transition is refused. */
    method Cancel(id: Id, now: nat) returns (r: Result, notes: seq<Note>)
      modifies this
      ensures (entries, r) == SimpleModel.Cancel(old(entries), id, now)
      ensures notes == if r.Ok? then [Note(id, Canceled)] else []
      ensures tokens == old(tokens) +
        if Known(old(entries), id) && old(entries)[Find(old(entries), id)].task.token.Some?
        then {old(entries)[Find(old(entries), id)].task.token.value} else {}
    {
      var k := FindEntry(id);
      if k < |entries| && entries[k].task.token.Some? {
        tokens := tokens + {entries[k].task.token.value};
      }
      r, notes := Change(id, Canceled, now);
    }

    method Pause(id: Id, now: nat) returns (r: Result, notes: seq<Note>)
      modifies this`entries
      ensures (entries, r) == SimpleModel.Pause(old(entries), id, now)
      ensures notes == if r.Ok? then [Note(id, Paused)] else []
    {
      r, notes := Change(id, Paused, now);
    }

    method Resume(id: Id, now: nat) returns (r: Result, notes: seq<Note>)
      modifies this`entries
      ensures (entries, r) == SimpleModel.Resume(old(entries), id, now)
      ensures r.Err? ==> notes == []
      ensures r.Ok? ==>
        && Known(old(entries), id)
        && notes == [Note(id, PoolModel.ResumeTarget(old(entries)[Find(old(entries), id)].task))]
    {
      var k := FindEntry(id);
      if k == |entries| {
        return Err(INTERNAL_ERROR), [];
      }
      r, notes := Change(id, PoolModel.ResumeTarget(entries[k].task), now);
    }

    method DependenciesMet(deps: seq<Id>) returns (met: bool)
      ensures met <==> forall d :: d in deps ==> SucceededIn(entries, d)
    {
      var i := 0;
      while i < |deps|
        invariant i <= |deps| && forall j :: 0 <= j < i ==> SucceededIn(entries, deps[j])
      {
        var k := FindEntry(deps[i]);
        if k == |entries| || entries[k].task.state != Succeeded {
          assert !SucceededIn(entries, deps[i]);
          return false;
        }
        i := i + 1;
      }
      return true;
    }

    method PromoteReady(now: nat) returns (notes: seq<Note>)
      modifies this`entries
      ensures entries == Promote(old(entries), now)
      ensures notes == Promotions(old(entries), |old(entries)|)
    {
      hide Promote, PromotedUpTo, SucceededIn;
      ghost var es := entries;
      notes := [];
      var i := 0;
      PromotedEnds(es, now);
      while i < |entries|
        invariant i <= |es| == |entries|
        invariant entries == PromotedUpTo(es, i, now)
        invariant notes == Promotions(es, i)
      {
        PromotedNext(es, i, now);
        var e := entries[i];
        var promote := false;
        if e.task.state == Queued && e.task.deps != [] {
          PromotedMet(es, i, now, e.task.deps);
          promote := DependenciesMet(e.task.deps);
        }
        assert promote == Promotable(es, e);
        if promote {
          entries := entries[i := e.(task := Transition(e.task, Ready, now))];
          notes := notes + [Note(e.task.id, Ready)];
        } else {
          assert entries[i := e] == entries;
        }
        i := i + 1;
      }
    }

    method PickBest() returns (best: Option<nat>)
      ensures best == BestOf(entries, |entries|)
    {
      best := None;
      var i := 0;
      while i < |entries|
        invariant i <= |entries| && best == BestOf(entries, i)
      {
        if entries[i].task.state == Ready &&
          (best.None? || entries[i].task.priority > entries[best.value].task.priority) {
          best := Some(i);
        }
        i := i + 1;
      }
    }

    method CollectInputs(deps: seq<Id>) returns (inputs: Outputs)
      ensures inputs == Merge(OutputsIn(entries), deps)
    {
      hide OutputsIn, Find;
      inputs := map[];
      var i := 0;
      while i < |deps|
        invariant i <= |deps| && inputs == Merge(OutputsIn(entries), deps[..i])
      {
        var k := FindEntry(deps[i]);
        assert deps[..i + 1][..i] == deps[..i];
        OutputsAt(entries, deps[i]);
        if k < |entries| {
          inputs := inputs + entries[k].outputs;
        } else {
          assert inputs + map[] == inputs;
        }
        i := i + 1;
      }
      assert deps[..i] == deps;
    }

    /** One tick; the stage is run to its end and reports progress any number of times. */
    method Tick(run: StageFn, reports: nat, now: nat) returns (notes: seq<Note>)
      modifies this`entries
      ensures entries == SimpleModel.Tick(run, old(entries), now)
      ensures notes == TickNotes(run, reports, old(entries), now)
    {
      hide Promote, Merge, OutputsIn;
      notes := PromoteReady(now);
      ghost var ps := entries;
      var best := PickBest();
      if best.None? {
        return notes + [];
      }
      var b := best.value;
      var inputs := CollectInputs(entries[b].task.deps);
      var id := entries[b].task.id;
      entries := entries[b := entries[b].(task := Transition(entries[b].task, Running, now))];
      var i := 0;
      ghost var promoted := notes;
      while i < reports + 1
        invariant i <= reports + 1 && notes == promoted + Repeat(Note(id, Running), i)
      {
        notes := notes + [Note(id, Running)];
        i := i + 1;
      }
      var outcome := run(entries[b].stage, inputs);
      assert outcome == RunOutcome(run, ps, b);
      var t := entries[b].task;
      match outcome {
        case Success(outputs) =>
          entries := entries[b := Entry(Transition(t, Succeeded, now), entries[b].stage, outputs)];
          notes := notes + [Note(id, Succeeded)];
        case Failure(error) =>
          var to := if error.category == CancelError then Canceled else Failed;
          entries := entries[b := entries[b].(task := Transition(t.(error := Some(error)), to, now))];
          notes := notes + [Note(id, to)];
      }
    }

    method HasPendingTasks() returns (b: bool)
      ensures b <==> exists i :: 0 <= i < |entries| && !Terminal(entries[i].task.state)
    {
      var i := 0;
      while i < |entries|
        invariant i <= |entries| && forall j :: 0 <= j < i ==> Terminal(entries[j].task.state)
      {
        if !Terminal(entries[i].task.state) {
          return true;
        }
        i := i + 1;
      }
      return false;
    }
  }

  lemma PromotedNext(es: seq<Entry>, k: nat, now: nat)
    requires k < |es|
    ensures |PromotedUpTo(es, k, now)| == |es| && PromotedUpTo(es, k, now)[k] == es[k]
    ensures PromotedUpTo(es, k + 1, now) == PromotedUpTo(es, k, now)[k :=
      if Promotable(es, es[k]) then es[k].(task := Transition(es[k].task, Ready, now)) else es[k]]
  {
    hide Promotable;
  }

  lemma PromotedEnds(es: seq<Entry>, now: nat)
    ensures PromotedUpTo(es, 0, now) == es && PromotedUpTo(es, |es|, now) == Promote(es, now)
  {
    hide Promotable;
  }

  lemma PromotedMet(es: seq<Entry>, k: nat, now: nat, deps: seq<Id>)
    requires k <= |es|
    ensures (forall d :: d in deps ==> SucceededIn(PromotedUpTo(es, k, now), d)) <==>
      (forall d :: d in deps ==> SucceededIn(es, d))
  {
    hide SucceededIn, PromotedUpTo;
    forall d ensures SucceededIn(PromotedUpTo(es, k, now), d) <==> SucceededIn(es, d) {
      PromotedSucceeds(es, k, now, d);
    }
  }

  lemma OutputsAt(es: seq<Entry>, id: Id)
    ensures id in OutputsIn(es) <==> Known(es, id)
    ensures Known(es, id) ==> OutputsIn(es)[id] == es[Find(es, id)].outputs
  {
    if Known(es, id) {
      var k := Find(es, id);
      assert Find(es, es[k].task.id) == k;
    }
  }
}
