/** Task descriptors and their seven-state life cycle (core/include/core/task.h, core/src/task.cpp). */
module Tasks {
  type Id = string

  datatype Option<+T> = None | Some(value: T)

  datatype TaskState = Queued | Ready | Running | Paused | Canceled | Failed | Succeeded

  datatype ErrorCategory =
    | NetworkError | TimeoutError | ResourceError | PipelineError
    | CancelError | InternalError | UnknownError

  /** Message texts and detail maps are not modelled: category and numeric code only. */
  datatype TaskError = TaskError(category: ErrorCategory, code: nat)

  const CANCELED_ERROR := TaskError(CancelError, 1)
  const INTERNAL_ERROR := TaskError(InternalError, 4)

  datatype Result = Ok | Err(error: TaskError)

  datatype Demand = Demand(cpu: int, ram: int, vram: int)

  /** A cancel token: one handed in by the caller (possibly shared), or one the scheduler made for a task. */
  datatype Token = Private(owner: Id) | Given(handle: nat)

  /** Values passed between stages are opaque to the schedulers. */
  type Outputs = map<string, int>

  datatype Task = Task(
    id: Id,
    state: TaskState,
    priority: int,
    demand: Demand,
    deps: seq<Id>,
    startedAt: Option<nat>,
    finishedAt: Option<nat>,
    error: Option<TaskError>,
    token: Option<Token>,
    pausedFrom: Option<TaskState>)

  predicate Terminal(s: TaskState) {
    s == Canceled || s == Failed || s == Succeeded
  }

  predicate Bad(s: TaskState) {
    s == Canceled || s == Failed
  }

  predicate Legal(from: TaskState, to: TaskState) {
    match from
    case Queued => to == Ready || to == Paused || to == Canceled
    case Ready => to == Running || to == Paused || to == Canceled
    case Running => to == Paused || to == Succeeded || to == Failed || to == Canceled
    case Paused => to == Queued || to == Ready || to == Running || to == Canceled
    case Failed => to == Queued
    case Canceled => false
    case Succeeded => false
  }

  /** The descriptor after an attempted transition; an illegal attempt leaves it as it was. */
  function Transition(t: Task, to: TaskState, now: nat): Task {
    if !Legal(t.state, to) then t
    else if t.state == Failed then
      t.(state := to, error := None, startedAt := None, finishedAt := None, pausedFrom := None)
    else
      t.(state := to,
         pausedFrom := if to == Paused then Some(t.state) else if t.state == Paused then None else t.pausedFrom,
         startedAt := if to == Running && t.startedAt.None? then Some(now) else t.startedAt,
         finishedAt := if Terminal(to) then Some(now) else t.finishedAt)
  }

  /** What a descriptor handed to a scheduler for the first time looks like. */
  predicate Initial(t: Task) {
    t.state == Queued && t.pausedFrom.None? && t.startedAt.None? && t.finishedAt.None?
  }

  /** Queued, or paused while queued: the task still waits for dependencies. */
  predicate Waiting(t: Task) {
    t.state == Queued || (t.state == Paused && t.pausedFrom == Some(Queued))
  }

  /** Running, or paused while running: a stage invocation belongs to the task. */
  predicate Executing(t: Task) {
    t.state == Running || (t.state == Paused && t.pausedFrom == Some(Running))
  }

  predicate Lifecycle(t: Task) {
    && (t.pausedFrom.Some? <==> t.state == Paused)
    && (t.pausedFrom.Some? ==> t.pausedFrom.value in {Queued, Ready, Running})
    && (t.finishedAt.Some? <==> Terminal(t.state))
    && (Executing(t) || t.state == Failed || t.state == Succeeded ==> t.startedAt.Some?)
  }

  datatype Attempt = Attempt(to: TaskState, now: nat)

  function Attempts(t: Task, calls: seq<Attempt>): Task {
    if calls == [] then t
    else
      var last := calls[|calls| - 1];
      Transition(Attempts(t, calls[..|calls| - 1]), last.to, last.now)
  }

  /** The bookkeeping fields match the state after every sequence of transition attempts. */
  lemma {:induction false} AttemptsKeepLifecycle(t: Task, calls: seq<Attempt>)
    requires Initial(t)
    ensures Lifecycle(Attempts(t, calls))
    ensures Attempts(t, calls).id == t.id && Attempts(t, calls).deps == t.deps
  {
    if calls != [] {
      AttemptsKeepLifecycle(t, calls[..|calls| - 1]);
    }
  }

  /** The legal transitions, state by state. */
  const LEGAL_TRANSITIONS: set<(TaskState, TaskState)> := {
    (Queued, Ready), (Queued, Paused), (Queued, Canceled),
    (Ready, Running), (Ready, Paused), (Ready, Canceled),
    (Running, Paused), (Running, Succeeded), (Running, Failed), (Running, Canceled),
    (Paused, Queued), (Paused, Ready), (Paused, Running), (Paused, Canceled),
    (Failed, Queued)
  }

  /** A transition does what it says exactly if it is listed: it sets the state, and nothing else but bookkeeping. */
  lemma TransitionIff(t: Task, to: TaskState, now: nat)
    ensures Transition(t, to, now) != t <==> (t.state, to) in LEGAL_TRANSITIONS
    ensures (t.state, to) in LEGAL_TRANSITIONS ==>
      var u := Transition(t, to, now);
      && u.state == to
      && u.id == t.id && u.deps == t.deps && u.priority == t.priority && u.demand == t.demand && u.token == t.token
      && (t.state != Failed ==> u.error == t.error)
  {
  }

  /** When a task was started first and when it finished; a retry forgets both, and the error. */
  lemma TransitionTimes(t: Task, to: TaskState, now: nat)
    requires (t.state, to) in LEGAL_TRANSITIONS
    ensures
      var u := Transition(t, to, now);
      && (t.state == Failed ==> u.startedAt.None? && u.finishedAt.None? && u.error.None?)
      && (t.state != Failed && to == Running ==>
            u.startedAt == Some(if t.startedAt.Some? then t.startedAt.value else now))
      && (t.state != Failed && to != Running ==> u.startedAt == t.startedAt)
      && (to in {Canceled, Failed, Succeeded} ==> u.finishedAt == Some(now))
      && (t.state != Failed && to !in {Canceled, Failed, Succeeded} ==> u.finishedAt == t.finishedAt)
  {
  }

  /** Pausing from anywhere it is legal and going back to pausedFrom gives back the very same descriptor. */
  lemma PauseThenRestore(t: Task, now: nat, later: nat)
    requires Lifecycle(t) && Legal(t.state, Paused)
    ensures
      var paused := Transition(t, Paused, now);
      && paused.pausedFrom == Some(t.state)
      && Legal(Paused, t.state)
      && Transition(paused, t.state, later) == t
  {
  }

  /** From a terminal state the only step ever taken is the retry of a failed task. */
  lemma {:induction false} TerminalUnlessRetried(t: Task, calls: seq<Attempt>)
    requires Terminal(t.state)
    requires forall i :: 0 <= i < |calls| ==> t.state == Failed ==> calls[i].to != Queued
    ensures Attempts(t, calls) == t
  {
    if calls != [] {
      TerminalUnlessRetried(t, calls[..|calls| - 1]);
    }
  }

  class TaskDescriptor {
    const id: Id
    const priority: int
    const demand: Demand
    const deps: seq<Id>
    const token: Option<Token>
    var state: TaskState
    var startedAt: Option<nat>
    var finishedAt: Option<nat>
    var error: Option<TaskError>
    var pausedFrom: Option<TaskState>

    function View(): Task
      reads this
    {
      Task(id, state, priority, demand, deps, startedAt, finishedAt, error, token, pausedFrom)
    }

    constructor (id: Id, priority: int, demand: Demand, deps: seq<Id>, token: Option<Token>)
      ensures Initial(View()) && View().error.None?
      ensures View().id == id && View().priority == priority && View().demand == demand
      ensures View().deps == deps && View().token == token
    {
      this.id, this.priority, this.demand, this.deps, this.token := id, priority, demand, deps, token;
      state := Queued;
      startedAt, finishedAt, error, pausedFrom := None, None, None, None;
    }

    method TransitionTo(to: TaskState, now: nat) returns (r: Result)
      modifies this
      ensures View() == Transition(old(View()), to, now)
      ensures r == Ok <==> Legal(old(state), to)
      ensures old(Lifecycle(View())) ==> Lifecycle(View())
    {
      if !Legal(state, to) {
        return Err(INTERNAL_ERROR);
      }
      var from := state;
      state := to;
      if to == Paused {
        pausedFrom := Some(from);
      } else if from == Paused {
        pausedFrom := None;
      }
      if to == Running && startedAt.None? {
        startedAt := Some(now);
      }
      if Terminal(to) {
        finishedAt := Some(now);
      }
      if from == Failed && to == Queued {
        error, startedAt, finishedAt, pausedFrom := None, None, None, None;
      }
      return Ok;
    }
  }
}
