/**
 The thread-pool scheduler as a value: its shared fields, and one function for each section of code
 that runs under the scheduler's mutex (core/src/thread_pool_scheduler.cpp).
 */
module PoolModel {
  import opened Tasks
  import opened Graphs
  import opened Evaluation

  datatype Config = Config(
    workers: int,
    cpuHard: int,
    ramSoft: int,
    vramSoft: int,
    intervalMs: int,
    boost: int,
    pauseTimeoutMs: int)

  /** Clock ticks of the steady clock per millisecond. */
  const TICKS_PER_MS: nat := 1_000_000

  function Max(a: int, b: int): int {
    if a >= b then a else b
  }

  function AutoWorkers(hardwareThreads: int): int {
    if hardwareThreads <= 0 then 4
    else if hardwareThreads - 1 < 2 then 2
    else if hardwareThreads - 1 > 8 then 8
    else hardwareThreads - 1
  }

  ghost predicate Normal(c: Config) {
    && c.workers >= 1 && c.cpuHard >= 1 && c.ramSoft >= 0 && c.vramSoft >= 0
    && c.intervalMs >= 1 && c.boost >= 1 && c.pauseTimeoutMs >= 1
  }

  function Normalize(c: Config, hardwareThreads: int): (r: Config)
    ensures Normal(r)
    ensures Normal(c) ==> r == c
  {
    var workers := if c.workers <= 0 then AutoWorkers(hardwareThreads) else c.workers;
    Config(
      workers,
      if c.cpuHard <= 0 then workers else c.cpuHard,
      Max(0, c.ramSoft),
      Max(0, c.vramSoft),
      if c.intervalMs <= 0 then 500 else c.intervalMs,
      if c.boost <= 0 then 1 else c.boost,
      if c.pauseTimeoutMs <= 0 then 1500 else c.pauseTimeoutMs)
  }

  /**
   Positive settings are kept. Of the others, the worker count follows the hardware, one thread spared, within 2 and 8
   (4 if the hardware is unknown); there are as many CPU slots as workers; negative memory limits are switched off.
   */
  lemma NormalizeDefaults(c: Config, hardwareThreads: int)
    ensures
      var r := Normalize(c, hardwareThreads);
      && (c.workers > 0 ==> r.workers == c.workers)
      && (c.workers <= 0 && hardwareThreads <= 0 ==> r.workers == 4)
      && (c.workers <= 0 && hardwareThreads > 0 ==> 2 <= r.workers <= 8)
      && (c.workers <= 0 && 3 <= hardwareThreads <= 9 ==> r.workers + 1 == hardwareThreads)
      && (c.workers <= 0 && 0 < hardwareThreads < 3 ==> r.workers == 2)
      && (c.workers <= 0 && hardwareThreads > 9 ==> r.workers == 8)
      && r.cpuHard == (if c.cpuHard > 0 then c.cpuHard else r.workers)
      && (r.ramSoft, r.vramSoft) == (if c.ramSoft > 0 then c.ramSoft else 0, if c.vramSoft > 0 then c.vramSoft else 0)
      && r.intervalMs == (if c.intervalMs > 0 then c.intervalMs else 500)
      && r.boost == (if c.boost > 0 then c.boost else 1)
      && r.pauseTimeoutMs == (if c.pauseTimeoutMs > 0 then c.pauseTimeoutMs else 1500)
  {
  }

  datatype Node = Node(
    task: Task,
    stage: Stage,
    outputs: Outputs,
    unmet: nat,
    since: nat,
    running: bool,
    pauseRequested: bool,
    pauseDeadline: Option<nat>)

  /** tokens holds the cancel tokens on which cancellation was requested. */
  datatype Pool = Pool(
    nodes: map<Id, Node>,
    succs: Graph,
    ready: set<Id>,
    running: set<Id>,
    inUse: Demand,
    tokens: set<Token>)

  const EMPTY_POOL := Pool(map[], map[], {}, {}, Demand(0, 0, 0), {})

  function Plus(a: Demand, b: Demand): Demand {
    Demand(a.cpu + b.cpu, a.ram + b.ram, a.vram + b.vram)
  }

  function Release(a: Demand, b: Demand): Demand {
    Demand(Max(0, a.cpu - b.cpu), Max(0, a.ram - b.ram), Max(0, a.vram - b.vram))
  }

  function Has(p: Pool, id: Id, s: TaskState): bool {
    id in p.nodes && p.nodes[id].task.state == s
  }

  // ---- Choosing the next task ----

  predicate WithinSoft(c: Config, u: Demand) {
    && (c.ramSoft <= 0 || u.ram <= c.ramSoft)
    && (c.vramSoft <= 0 || u.vram <= c.vramSoft)
  }

  predicate FitsCpu(c: Config, p: Pool, d: Demand) {
    p.inUse.cpu + d.cpu <= c.cpuHard
  }

  predicate FitsSoft(c: Config, p: Pool, d: Demand) {
    WithinSoft(c, Plus(p.inUse, d))
  }

  /** Integer division that truncates toward zero. */
  function Quotient(a: int, b: int): int
    requires b > 0
  {
    if a >= 0 then a / b else -((-a) / b)
  }

  function Score(c: Config, n: Node, now: nat): int {
    n.task.priority + Quotient(Quotient(now - n.since, TICKS_PER_MS), Max(1, c.intervalMs)) * c.boost
  }

  /** Lexicographic order of ids. */
  predicate Less(a: Id, b: Id) {
    if b == "" then false
    else if a == "" then true
    else if a[0] != b[0] then a[0] < b[0]
    else Less(a[1..], b[1..])
  }

  predicate Better(c: Config, p: Pool, now: nat, a: Id, b: Id)
    requires a in p.nodes && b in p.nodes
  {
    var m, n := p.nodes[a], p.nodes[b];
    if Score(c, m, now) != Score(c, n, now) then Score(c, m, now) > Score(c, n, now)
    else if m.since != n.since then m.since < n.since
    else Less(a, b)
  }

  predicate Runnable(c: Config, p: Pool, id: Id) {
    id in p.ready && Has(p, id, Ready) && FitsCpu(c, p, p.nodes[id].task.demand)
  }

  /** The runnable tasks that fit the soft budgets, and those that do not. */
  function Candidates(c: Config, p: Pool, fits: bool): set<Id> {
    set id | id in p.ready && Runnable(c, p, id) && FitsSoft(c, p, p.nodes[id].task.demand) == fits
  }

  ghost predicate Best(c: Config, p: Pool, now: nat, S: set<Id>, id: Id) {
    && id in S
    && S <= p.nodes.Keys
    && forall other :: other in S && other != id ==> Better(c, p, now, id, other)
  }

  /** What a choice must satisfy: nothing here depends on the order in which tasks are looked at. */
  ghost predicate IsPick(c: Config, p: Pool, now: nat, r: Option<Id>) {
    var fits, overs := Candidates(c, p, true), Candidates(c, p, false);
    match r
    case None => fits == {} && (p.running != {} || overs == {})
    case Some(id) =>
      if fits != {} then Best(c, p, now, fits, id)
      else p.running == {} && Best(c, p, now, overs, id)
  }

  // ---- Waking and cutting off successors ----

  /** The effect on one node of m decrements, each of which only touches a task that is still Queued. */
  function WakeNode(n: Node, m: nat, now: nat): Node {
    if m == 0 || n.task.state != Queued || n.unmet == 0 then n
    else if n.unmet > m then n.(unmet := n.unmet - m)
    else n.(unmet := 0, task := Transition(n.task, Ready, now), since := now)
  }

  ghost function Wake(p: Pool, list: seq<Id>, now: nat): Pool {
    var nodes := map x | x in p.nodes :: WakeNode(p.nodes[x], multiset(list)[x], now);
    p.(nodes := nodes,
       ready := p.ready + (set x | x in nodes && nodes[x] != p.nodes[x] && nodes[x].task.state == Ready))
  }

  function CutNode(n: Node, now: nat): Node {
    n.(task := Transition(n.task.(error := Some(TaskError(CancelError, 3004))), Canceled, now))
  }

  ghost predicate Cut(p: Pool, root: Id, x: Id) {
    x in p.nodes && !Terminal(p.nodes[x].task.state) && Below(p.succs, root, x)
  }

  ghost function CutSet(p: Pool, root: Id): set<Id> {
    set x | x in p.nodes && Cut(p, root, x)
  }

  /** Cancel the given tasks because of an ancestor. */
  ghost function CutAll(p: Pool, S: set<Id>, now: nat): Pool {
    p.(nodes := map x | x in p.nodes :: if x in S then CutNode(p.nodes[x], now) else p.nodes[x],
       ready := p.ready - (set x | x in S && Has(p, x, Ready)),
       tokens := p.tokens +
         (set x | x in S && x in p.nodes && p.nodes[x].task.token.Some? :: p.nodes[x].task.token.value))
  }

  ghost function Propagate(p: Pool, root: Id, now: nat): Pool {
    CutAll(p, CutSet(p, root), now)
  }

  // ---- Submission ----

  function Admitted(t: Task): Task {
    t.(demand := Demand(if t.demand.cpu <= 0 then 1 else t.demand.cpu, Max(0, t.demand.ram), Max(0, t.demand.vram)),
       token := if t.token.None? then Some(Private(t.id)) else t.token)
  }

  ghost predicate CreatesCycle(g: Graph, id: Id, deps: seq<Id>) {
    exists d :: d in deps && Reach(g, d, id)
  }

  /** The dependency loop stops at the first dependency that is the task itself, unknown, Failed or Canceled. */
  predicate Stops(nodes: map<Id, Node>, id: Id, d: Id) {
    d == id || d !in nodes || Bad(nodes[d].task.state)
  }

  function StopAt(nodes: map<Id, Node>, id: Id, deps: seq<Id>): (k: nat)
    ensures k <= |deps|
    ensures forall i :: 0 <= i < k ==> !Stops(nodes, id, deps[i])
    ensures k < |deps| ==> Stops(nodes, id, deps[k])
  {
    if deps == [] || Stops(nodes, id, deps[0]) then 0 else 1 + StopAt(nodes, id, deps[1..])
  }

  function DoneSet(nodes: map<Id, Node>): set<Id> {
    set d | d in nodes && nodes[d].task.state == Succeeded
  }

  /** How many of the dependencies, counted with multiplicity, are not yet done. */
  function Missing(done: set<Id>, deps: seq<Id>): nat {
    if deps == [] then 0
    else Missing(done, deps[..|deps| - 1]) + (if deps[|deps| - 1] in done then 0 else 1)
  }

  function NewNode(t: Task, stage: Stage, unmet: nat, now: nat): Node {
    Node(t, stage, map[], unmet, now, false, false, None)
  }

  function BlockedNode(t: Task, stage: Stage, unmet: nat, now: nat): Node {
    NewNode(Transition(t.(error := Some(TaskError(CancelError, 3002))), Canceled, now), stage, unmet, now)
  }

  ghost function Submit(c: Config, p: Pool, t0: Task, stage: Option<Stage>, now: nat): (Pool, Result) {
    var t := Admitted(t0);
    if stage.None? || t.id == "" || t.id in p.nodes then (p, Err(INTERNAL_ERROR))
    else if t.demand.cpu > c.cpuHard then (p, Err(TaskError(ResourceError, 3001)))
    else if CreatesCycle(p.succs, t.id, t.deps) then (p, Err(INTERNAL_ERROR))
    else
      var k := StopAt(p.nodes, t.id, t.deps);
      var unmet := Missing(DoneSet(p.nodes), t.deps[..k]);
      if k < |t.deps| then
        if t.deps[k] == t.id || t.deps[k] !in p.nodes then
          (p.(succs := PushEdges(p.succs, t.deps[..k], t.id)), Err(INTERNAL_ERROR))
        else
          (p.(succs := PushEdges(p.succs, t.deps[..k + 1], t.id),
              nodes := p.nodes[t.id := BlockedNode(t, stage.value, unmet, now)]), Ok)
      else
        var q := p.(succs := PushEdges(p.succs, t.deps, t.id));
        if unmet > 0 then
          (q.(nodes := p.nodes[t.id := NewNode(t, stage.value, unmet, now)]), Ok)
        else if !Legal(t.state, Ready) then
          (q, Err(INTERNAL_ERROR))
        else
          (q.(nodes := p.nodes[t.id := NewNode(Transition(t, Ready, now), stage.value, 0, now)],
              ready := p.ready + {t.id}), Ok)
  }

  // ---- Control ----

  function RequestCancel(p: Pool, id: Id): Pool {
    if id in p.nodes && p.nodes[id].task.token.Some?
    then p.(tokens := p.tokens + {p.nodes[id].task.token.value})
    else p
  }

  /** The node of a task that is being canceled by its user; cancellation is legal from every non-terminal state. */
  function CanceledNode(n: Node, now: nat): Node {
    var calm := n.(pauseRequested := false, pauseDeadline := None);
    if Terminal(n.task.state) then calm
    else
      var t := Transition(n.task, Canceled, now);
      calm.(task := t.(error := if t.error.None? then Some(CANCELED_ERROR) else t.error))
  }

  ghost function Cancel(p: Pool, id: Id, now: nat): (Pool, Result) {
    if id !in p.nodes then (p, Err(INTERNAL_ERROR))
    else
      var n := p.nodes[id];
      var q := RequestCancel(p, id).(
        nodes := p.nodes[id := CanceledNode(n, now)],
        ready := if n.task.state == Ready then p.ready - {id} else p.ready);
      (if Terminal(n.task.state) then q else Propagate(q, id, now), Ok)
  }

  /** AwaitCheckpoint: the caller now waits until the deadline, and cancels the task if nothing happened. */
  datatype PauseResult = PauseDone | PauseErr(error: TaskError) | AwaitCheckpoint(deadline: nat)

  function Pause(c: Config, p: Pool, id: Id, now: nat): (Pool, PauseResult) {
    if id !in p.nodes then (p, PauseErr(INTERNAL_ERROR))
    else
      var n := p.nodes[id];
      match n.task.state
      case Paused => (p, PauseDone)
      case Queued =>
        (p.(nodes := p.nodes[id := n.(task := Transition(n.task, Paused, now))]), PauseDone)
      case Ready =>
        (p.(nodes := p.nodes[id := n.(task := Transition(n.task, Paused, now))], ready := p.ready - {id}), PauseDone)
      case Running =>
        var deadline := now + Max(1, c.pauseTimeoutMs) * TICKS_PER_MS;
        (p.(nodes := p.nodes[id := n.(pauseRequested := true, pauseDeadline := Some(deadline))]),
         AwaitCheckpoint(deadline))
      case _ => (p, PauseErr(INTERNAL_ERROR))
  }

  function ResumeTarget(t: Task): TaskState {
    if t.pausedFrom.Some? then t.pausedFrom.value else Running
  }

  function Resume(p: Pool, id: Id, now: nat): (Pool, Result) {
    if !Has(p, id, Paused) || !Legal(Paused, ResumeTarget(p.nodes[id].task)) then (p, Err(INTERNAL_ERROR))
    else
      var n := p.nodes[id];
      var target := ResumeTarget(n.task);
      var awake := n.(task := Transition(n.task, target, now), pauseRequested := false, pauseDeadline := None);
      (p.(nodes := p.nodes[id := if target == Ready then awake.(since := now) else awake],
          ready := if target == Ready then p.ready + {id} else p.ready), Ok)
  }

  // ---- Execution ----

  function OutputsOf(nodes: map<Id, Node>): map<Id, Outputs> {
    map d | d in nodes :: nodes[d].outputs
  }

  /** What a worker hands to the stage of a task it dispatches. */
  function InputsFor(p: Pool, id: Id): Outputs
    requires id in p.nodes
  {
    Merge(OutputsOf(p.nodes), p.nodes[id].task.deps)
  }

  function StartedNode(n: Node, now: nat): Node {
    n.(task := Transition(n.task, Running, now), running := true, pauseRequested := false, pauseDeadline := None)
  }

  function Dispatch(p: Pool, id: Id, now: nat): Pool
    requires id in p.nodes
  {
    p.(nodes := p.nodes[id := StartedNode(p.nodes[id], now)],
       ready := p.ready - {id},
       running := p.running + {id},
       inUse := Plus(p.inUse, p.nodes[id].task.demand))
  }

  /** A stage reports progress: the point where a requested pause takes effect. */
  function Checkpoint(p: Pool, id: Id, now: nat): Pool {
    if Has(p, id, Running) && p.nodes[id].pauseRequested then
      var n := p.nodes[id];
      var held := n.(task := Transition(n.task, Paused, now), pauseRequested := false, pauseDeadline := None);
      p.(nodes := p.nodes[id := held])
    else p
  }

  function Returned(p: Pool, id: Id): Pool
    requires id in p.nodes
  {
    if p.nodes[id].running then
      p.(nodes := p.nodes[id := p.nodes[id].(running := false)],
         running := p.running - {id},
         inUse := Release(p.inUse, p.nodes[id].task.demand))
    else p
  }

  function Settle(p: Pool, id: Id, to: TaskState, error: Option<TaskError>, now: nat): Pool
    requires id in p.nodes
  {
    var t := p.nodes[id].task;
    p.(nodes := p.nodes[id := p.nodes[id].(task := Transition(t.(error := error), to, now))])
  }

  predicate CountsAsCanceled(p: Pool, id: Id, error: TaskError)
    requires id in p.nodes
  {
    || error.category == CancelError
    || (p.nodes[id].task.token.Some? && p.nodes[id].task.token.value in p.tokens)
  }

  ghost function Finalize(p0: Pool, id: Id, outcome: Outcome, now: nat): Pool {
    if id !in p0.nodes then p0
    else
      var p := Returned(p0, id);
      var t := p.nodes[id].task;
      if t.state == Canceled then Propagate(p, id, now)
      else
        match outcome
        case Success(outputs) =>
          if Legal(t.state, Succeeded) then
            var q := Settle(p, id, Succeeded, t.error, now);
            Wake(q.(nodes := q.nodes[id := q.nodes[id].(outputs := outputs)]), Succ(q.succs, id), now)
          else
            Propagate(Settle(p, id, Failed, Some(INTERNAL_ERROR), now), id, now)
        case Failure(error) =>
          var to := if CountsAsCanceled(p, id, error) then Canceled else Failed;
          Propagate(Settle(p, id, to, Some(error), now), id, now)
  }
}
