/** What the return of a stage does, task by task. */
module PoolEffects {
  import opened Tasks
  import opened Graphs
  import opened Evaluation
  import opened PoolModel

  function TokenOf(n: Node): Option<Token> {
    n.task.token
  }

  function SettledNode(n: Node, to: TaskState, error: Option<TaskError>, now: nat): Node {
    n.(running := false, task := Transition(n.task.(error := error), to, now))
  }

  lemma SuccessForm(p: Pool, id: Id, outputs: Outputs, now: nat) returns (q: Pool)
    requires Has(p, id, Running)
    ensures
      var n := SettledNode(p.nodes[id], Succeeded, p.nodes[id].task.error, now);
      q.nodes == p.nodes[id := n.(outputs := outputs)]
    ensures q.succs == p.succs && q.tokens == p.tokens && q.ready == p.ready
    ensures q.running == Returned(p, id).running && q.inUse == Returned(p, id).inUse
    ensures Finalize(p, id, Success(outputs), now) == Wake(q, Succ(p.succs, id), now)
  {
    hide Wake, Propagate;
    var s := Settle(Returned(p, id), id, Succeeded, p.nodes[id].task.error, now);
    q := s.(nodes := s.nodes[id := s.nodes[id].(outputs := outputs)]);
  }

  /**
   A success: the task itself is done and gives back what it held, every other task is decremented once per edge, and
   those that became Ready join the ready set.
   */
  lemma SuccessEffect(p: Pool, id: Id, outputs: Outputs, now: nat, x: Id)
    requires Has(p, id, Running) && x in p.nodes
    ensures
      var q := Finalize(p, id, Success(outputs), now);
      && q.nodes.Keys == p.nodes.Keys && q.succs == p.succs && q.tokens == p.tokens
      && q.running == Returned(p, id).running && q.inUse == Returned(p, id).inUse
      && (x in q.ready <==> x in p.ready || (x != id && Has(p, x, Queued) && Has(q, x, Ready)))
      && q.nodes[x] ==
         if x == id then SettledNode(p.nodes[id], Succeeded, p.nodes[id].task.error, now).(outputs := outputs)
         else WakeNode(p.nodes[x], Edge(p.succs, id, x), now)
  {
    hide Finalize;
    var q := SuccessForm(p, id, outputs, now);
  }

  lemma DoneGrows(p: Pool, id: Id, outputs: Outputs, now: nat)
    requires Has(p, id, Running)
    ensures id !in DoneSet(p.nodes)
    ensures DoneSet(Finalize(p, id, Success(outputs), now).nodes) == DoneSet(p.nodes) + {id}
  {
    hide Finalize;
    var q := Finalize(p, id, Success(outputs), now);
    SuccessEffect(p, id, outputs, now, id);
    forall x | x in p.nodes ensures x in DoneSet(q.nodes) <==> x in DoneSet(p.nodes) + {id} {
      SuccessEffect(p, id, outputs, now, x);
    }
  }

  ghost predicate CutAt(p: Pool, id: Id, x: Id) {
    x in p.nodes && x != id && Below(p.succs, id, x) && !Terminal(p.nodes[x].task.state)
  }

  /** The state in which a failing stage, or a stage whose task was canceled meanwhile, leaves its task. */
  ghost function EndState(p: Pool, id: Id, outcome: Outcome): TaskState
    requires id in p.nodes
  {
    if Has(p, id, Canceled) then Canceled
    else
      match outcome
      case Success(_) => Succeeded
      case Failure(error) => if CountsAsCanceled(p, id, error) then Canceled else Failed
  }

  ghost predicate EndsBadly(p: Pool, id: Id, outcome: Outcome) {
    Has(p, id, Canceled) || (Has(p, id, Running) && outcome.Failure?)
  }

  lemma FailureForm(p: Pool, id: Id, outcome: Outcome, now: nat) returns (q: Pool)
    requires EndsBadly(p, id, outcome)
    ensures id in q.nodes && q.nodes == p.nodes[id := q.nodes[id]] && q.succs == p.succs && q.tokens == p.tokens
    ensures q.ready == p.ready && q.running == Returned(p, id).running && q.inUse == Returned(p, id).inUse
    ensures q.nodes[id].task.state == EndState(p, id, outcome) && Bad(q.nodes[id].task.state)
    ensures q.nodes[id] == SettledNode(p.nodes[id], q.nodes[id].task.state, q.nodes[id].task.error, now)
    ensures Finalize(p, id, outcome, now) == Propagate(q, id, now)
  {
    hide Wake, Propagate;
    var r := Returned(p, id);
    if Has(p, id, Canceled) {
      q := r;
    } else {
      q := Settle(r, id, if CountsAsCanceled(r, id, outcome.error) then Canceled else Failed, Some(outcome.error), now);
    }
  }

  /** A failure or cancellation: exactly the unfinished tasks below it are canceled with it. */
  lemma FailureEffect(p: Pool, id: Id, outcome: Outcome, now: nat, x: Id)
    requires EndsBadly(p, id, outcome) && x in p.nodes
    ensures
      var q := Finalize(p, id, outcome, now);
      && q.nodes.Keys == p.nodes.Keys && q.succs == p.succs
      && q.running == Returned(p, id).running && q.inUse == Returned(p, id).inUse
      && (x in q.ready <==> x in p.ready && !(CutAt(p, id, x) && Has(p, x, Ready)))
      && (x != id ==> q.nodes[x] == if CutAt(p, id, x) then CutNode(p.nodes[x], now) else p.nodes[x])
      && q.nodes[id].task.state == EndState(p, id, outcome)
      && q.nodes[id] == SettledNode(p.nodes[id], q.nodes[id].task.state, q.nodes[id].task.error, now)
  {
    hide Finalize, Below, SettledNode, CutNode;
    var q := FailureForm(p, id, outcome, now);
  }

  lemma FailureTokens(p: Pool, id: Id, outcome: Outcome, now: nat, k: Token)
    requires EndsBadly(p, id, outcome)
    ensures k in Finalize(p, id, outcome, now).tokens ==>
      k in p.tokens || exists x :: CutAt(p, id, x) && TokenOf(p.nodes[x]) == Some(k)
  {
    hide Finalize, Below;
    var q := FailureForm(p, id, outcome, now);
    if k in Finalize(p, id, outcome, now).tokens && k !in p.tokens {
      var x :| x in CutSet(q, id) && x in q.nodes && q.nodes[x].task.token == Some(k);
      assert CutAt(p, id, x) && TokenOf(p.nodes[x]) == Some(k);
    }
  }
}
