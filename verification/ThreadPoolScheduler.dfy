/** The thread-pool scheduler as the class it is: every method is one critical section, proved against PoolModel. */
module ThreadPool {
  import opened Tasks
  import opened Graphs
  import opened Evaluation
  import opened PoolModel
  import opened PoolInvariants
  import PoolLiveness
  import opened PoolPause
  import opened PoolTick
  import PoolRuns

  // ---- Cycle walk ----

  /** What the walk from deps has established: everything visited has its successors visited or stacked. */
  ghost predicate Walked(g: Graph, deps: seq<Id>, id: Id, visited: set<Id>, stack: seq<Id>) {
    && id !in visited
    && (forall d :: d in deps ==> d in visited || d in stack)
    && (forall v, w :: v in visited && w in Succ(g, v) ==> w in visited || w in stack)
    && (forall v :: v in stack ==> ReachedFrom(g, deps, v))
  }

  ghost predicate ReachedFrom(g: Graph, deps: seq<Id>, v: Id) {
    exists d :: d in deps && Reach(g, d, v)
  }

  lemma ReachedStep(g: Graph, deps: seq<Id>, v: Id, w: Id)
    requires ReachedFrom(g, deps, v) && w in Succ(g, v)
    ensures ReachedFrom(g, deps, w)
  {
    var d :| d in deps && Reach(g, d, v);
    ReachStep(g, d, v, w);
  }

  lemma WalkStart(g: Graph, deps: seq<Id>, id: Id)
    ensures Walked(g, deps, id, {}, deps)
  {
    forall d | d in deps ensures ReachedFrom(g, deps, d) { ReachSelf(g, d); }
  }

  lemma WalkHit(g: Graph, deps: seq<Id>, id: Id, visited: set<Id>, stack: seq<Id>)
    requires Walked(g, deps, id, visited, stack) && id in stack
    ensures CreatesCycle(g, id, deps)
  {
    assert ReachedFrom(g, deps, id);
  }

  lemma WalkSkip(g: Graph, deps: seq<Id>, id: Id, visited: set<Id>, stack: seq<Id>, current: Id)
    requires Walked(g, deps, id, visited, stack + [current]) && current in visited
    ensures Walked(g, deps, id, visited, stack)
  {
    assert forall v :: v in stack + [current] ==> v in stack || v == current;
    assert forall v :: v in stack ==> v in stack + [current];
  }

  lemma WalkOn(g: Graph, deps: seq<Id>, id: Id, visited: set<Id>, stack: seq<Id>, current: Id)
    requires Walked(g, deps, id, visited, stack + [current]) && current != id
    ensures Walked(g, deps, id, visited + {current}, stack + Succ(g, current))
  {
    var next := stack + Succ(g, current);
    assert ReachedFrom(g, deps, current) by { assert current in stack + [current]; }
    forall v | v in next ensures ReachedFrom(g, deps, v) {
      if v in Succ(g, current) {
        ReachedStep(g, deps, current, v);
      } else {
        assert v in stack + [current];
      }
    }
    forall v | v in stack + [current] ensures v in visited + {current} || v in next {}
  }

  lemma WalkedAll(g: Graph, deps: seq<Id>, id: Id, visited: set<Id>)
    requires Walked(g, deps, id, visited, [])
    ensures !CreatesCycle(g, id, deps)
  {
    forall d | d in deps ensures !Reach(g, d, id) {
      if Reach(g, d, id) {
        ReachStays(g, (iset v | v in visited), d, id);
        assert false;
      }
    }
  }

  // ---- Cancellation walk ----

  /** Of the successors of v, at least those the walk has passed are visited. */
  ghost predicate Passed(g: Graph, v: Id, visited: set<Id>, current: Option<Id>, j: nat) {
    forall i :: 0 <= i < |Succ(g, v)| && (current == Some(v) ==> i < j) ==> Succ(g, v)[i] in visited
  }

  /** The walk below root: all visited are below it; done nodes have all successors visited, current its first j. */
  ghost predicate Spread(p: Pool, root: Id, visited: set<Id>, stack: seq<Id>, current: Option<Id>, j: nat) {
    && (forall v :: v in visited ==> Below(p.succs, root, v))
    && (forall v :: v in stack ==> v == root || v in visited)
    && (current.Some? ==> current.value == root || current.value in visited)
    && (forall v :: (v == root || (v in visited && v in p.nodes)) && v !in stack ==>
      Passed(p.succs, v, visited, current, j))
  }

  lemma SpreadStart(p: Pool, root: Id)
    ensures Spread(p, root, {}, [root], None, 0)
  {
  }

  lemma SpreadPop(p: Pool, root: Id, visited: set<Id>, stack: seq<Id>, current: Id)
    requires Spread(p, root, visited, stack + [current], None, 0)
    ensures Spread(p, root, visited, stack, Some(current), 0)
  {
    assert forall v :: v in stack + [current] <==> v in stack || v == current;
  }

  lemma SpreadDone(p: Pool, root: Id, visited: set<Id>, stack: seq<Id>, current: Id)
    requires Spread(p, root, visited, stack, Some(current), |Succ(p.succs, current)|)
    ensures Spread(p, root, visited, stack, None, 0)
  {
  }

  lemma PassedMore(g: Graph, v: Id, visited: set<Id>, more: set<Id>, current: Id, j: nat)
    requires Passed(g, v, visited, Some(current), j) && visited <= more && j < |Succ(g, current)| &&
      Succ(g, current)[j] in more
    ensures Passed(g, v, more, Some(current), j + 1)
  {
  }

  lemma SpreadVisit(p: Pool, root: Id, visited: set<Id>, stack: seq<Id>, current: Id, j: nat)
    requires Spread(p, root, visited, stack, Some(current), j) && j < |Succ(p.succs, current)|
    ensures
      var w := Succ(p.succs, current)[j];
      && (w in visited ==> Spread(p, root, visited, stack, Some(current), j + 1))
      && (w !in visited && w !in p.nodes ==> Spread(p, root, visited + {w}, stack, Some(current), j + 1))
      && (w !in visited && w in p.nodes ==> Spread(p, root, visited + {w}, stack + [w], Some(current), j + 1))
  {
    hide Passed;
    var w := Succ(p.succs, current)[j];
    VisitBelow(p, root, visited, current, w);
    forall v | (v == root || (v in visited && v in p.nodes)) && v !in stack
      ensures Passed(p.succs, v, visited + {w}, Some(current), j + 1)
    {
      PassedMore(p.succs, v, visited, visited + {w}, current, j);
    }
    assert w in visited ==> visited + {w} == visited;
  }

  /** The visited tasks that were unfinished when the walk began. */
  ghost function Struck(p: Pool, visited: set<Id>): set<Id> {
    set x | x in visited && x in p.nodes && !Terminal(p.nodes[x].task.state)
  }

  lemma SpreadAll(p: Pool, root: Id, visited: set<Id>)
    requires p.succs.Keys <= p.nodes.Keys && Spread(p, root, visited, [], None, 0)
    ensures Struck(p, visited) == CutSet(p, root)
  {
    forall x | x in CutSet(p, root) ensures x in visited {
      var S := iset v | v in visited;
      forall v, w | (v == root || v in S) && w in Succ(p.succs, v) ensures w in S {
        assert v in p.succs;
        assert Passed(p.succs, v, visited, None, 0);
      }
      BelowStays(p.succs, S, root, x);
    }
  }

  lemma VisitBelow(p: Pool, root: Id, visited: set<Id>, current: Id, w: Id)
    requires current == root || Below(p.succs, root, current)
    requires w in Succ(p.succs, current)
    ensures Below(p.succs, root, w)
  {
    if current == root { BelowDirect(p.succs, root, w); } else { BelowStep(p.succs, root, current, w); }
  }

  lemma CutOneMore(p: Pool, S: set<Id>, x: Id, now: nat)
    requires S <= p.nodes.Keys && x in p.nodes && x !in S
    ensures
      var q, n := CutAll(p, S, now), p.nodes[x];
      && x in q.nodes && q.nodes[x] == n
      && CutAll(p, S + {x}, now) == q.(
           nodes := q.nodes[x := CutNode(n, now)],
           ready := if n.task.state == Ready then q.ready - {x} else q.ready,
           tokens := if n.task.token.Some? then q.tokens + {n.task.token.value} else q.tokens)
  {
    var q, r, n := CutAll(p, S, now), CutAll(p, S + {x}, now), p.nodes[x];
    assert r.nodes == q.nodes[x := CutNode(n, now)];
    assert r.ready == if n.task.state == Ready then q.ready - {x} else q.ready;
    assert r.tokens == if n.task.token.Some? then q.tokens + {n.task.token.value} else q.tokens;
  }

  lemma CutUntouched(p: Pool, S: set<Id>, x: Id, now: nat)
    requires x !in S
    ensures
      var q := CutAll(p, S, now);
      q.succs == p.succs && q.nodes.Keys == p.nodes.Keys && (x in p.nodes ==> q.nodes[x] == p.nodes[x])
  {
  }

  lemma CutNone(p: Pool, now: nat)
    ensures CutAll(p, {}, now) == p
  {
    assert CutAll(p, {}, now).nodes == p.nodes;
  }

  lemma StruckNone(p: Pool)
    ensures Struck(p, {}) == {}
  {
  }

  lemma StruckInside(p: Pool, visited: set<Id>)
    ensures Struck(p, visited) <= p.nodes.Keys
  {
  }

  lemma CutKeepsEdges(p: Pool, S: set<Id>, now: nat)
    ensures CutAll(p, S, now).succs == p.succs && CutAll(p, S, now).nodes.Keys == p.nodes.Keys
  {
  }

  lemma StruckMore(p: Pool, visited: set<Id>, w: Id)
    requires w !in visited
    ensures Struck(p, visited + {w}) ==
      if w in p.nodes && !Terminal(p.nodes[w].task.state) then Struck(p, visited) + {w} else Struck(p, visited)
    ensures w !in Struck(p, visited)
  {
  }

  // ---- Wakeup loop ----

  lemma WakeOneMore(n: Node, m: nat, now: nat)
    ensures WakeNode(n, m + 1, now) == WakeNode(WakeNode(n, m, now), 1, now)
  {
  }

  function Stepped(p: Pool, x: Id, now: nat): Pool {
    if x !in p.nodes then p
    else
      var n := WakeNode(p.nodes[x], 1, now);
      p.(nodes := p.nodes[x := n], ready := if n != p.nodes[x] && n.task.state == Ready then p.ready + {x} else p.ready)
  }

  lemma WakeNextIn(p: Pool, list: seq<Id>, x: Id, now: nat)
    ensures Wake(p, list + [x], now) == Stepped(Wake(p, list, now), x, now)
  {
    hide WakeNode;
    var r, s := Wake(p, list + [x], now), Stepped(Wake(p, list, now), x, now);
    forall y | y in p.nodes ensures r.nodes[y] == s.nodes[y] {
      assert multiset(list + [x])[y] == multiset(list)[y] + if y == x then 1 else 0;
      WakeOneMore(p.nodes[y], multiset(list)[y], now);
    }
    assert r.nodes == s.nodes;
    hide Wake, Stepped;
    forall y ensures y in r.ready <==> y in s.ready {
      WakeNextReady(p, list, x, now, y);
    }
  }

  lemma WakeNextReady(p: Pool, list: seq<Id>, x: Id, now: nat, y: Id)
    ensures y in Wake(p, list + [x], now).ready <==> y in Stepped(Wake(p, list, now), x, now).ready
  {
    hide WakeNode;
    if y in p.nodes {
      assert multiset(list + [x])[y] == multiset(list)[y] + if y == x then 1 else 0;
      WakeOneMore(p.nodes[y], multiset(list)[y], now);
      WakeReady(p.nodes[y], multiset(list)[y], now);
    }
  }

  /** Once a task was woken further decrements do nothing. */
  lemma WakeReady(n: Node, m: nat, now: nat)
    ensures
      var a, b := WakeNode(n, m, now), WakeNode(n, m + 1, now);
      b != n && b.task.state == Ready <==> (a != n && a.task.state == Ready) || (b != a && b.task.state == Ready)
  {
  }

  lemma WakeNone(p: Pool, now: nat)
    ensures Wake(p, [], now) == p
  {
    assert Wake(p, [], now).nodes == p.nodes;
  }

  // ---- Scanning for the best candidate ----

  ghost predicate Leads(c: Config, p: Pool, now: nat, seen: set<Id>, fits: bool, best: Option<Id>) {
    match best
    case None => Candidates(c, p, fits) * seen == {}
    case Some(id) => Best(c, p, now, Candidates(c, p, fits) * seen, id)
  }

  lemma LeadsOn(c: Config, p: Pool, now: nat, seen: set<Id>, fits: bool, best: Option<Id>, id: Id)
    requires Leads(c, p, now, seen, fits, best) && id !in seen
    ensures id !in Candidates(c, p, fits) ==> Leads(c, p, now, seen + {id}, fits, best)
    ensures id in Candidates(c, p, fits) ==>
      && id in p.nodes
      && (best.Some? ==> best.value in p.nodes)
      && Leads(c, p, now, seen + {id}, fits, if best.None? || Better(c, p, now, id, best.value) then Some(id) else best)
  {
    hide Better;
    var C := Candidates(c, p, fits);
    if id !in C {
      assert C * (seen + {id}) == C * seen;
    } else {
      assert C * (seen + {id}) == C * seen + {id};
      if best.Some? {
        BetterTotal(c, p, now, id, best.value);
        forall o | o in C * seen && Better(c, p, now, id, best.value) ensures Better(c, p, now, id, o) {
          if o != best.value { BetterChain(c, p, now, id, best.value, o); }
        }
      }
    }
  }

  lemma BetterTotal(c: Config, p: Pool, now: nat, x: Id, y: Id)
    requires x in p.nodes && y in p.nodes && x != y
    ensures Better(c, p, now, x, y) || Better(c, p, now, y, x)
  {
    PoolLiveness.BetterIsOrder(c, p, now, x, y, x);
  }

  lemma BetterChain(c: Config, p: Pool, now: nat, x: Id, y: Id, z: Id)
    requires x in p.nodes && y in p.nodes && z in p.nodes && Better(c, p, now, x, y) && Better(c, p, now, y, z)
    ensures Better(c, p, now, x, z)
  {
    PoolLiveness.BetterIsOrder(c, p, now, x, y, z);
  }

  // ---- The scheduler ----

  datatype Assignment = Assignment(id: Id, stage: Stage, inputs: Outputs)

  class ThreadPoolScheduler {
    const config: Config
    var nodes: map<Id, Node>
    var succs: Graph
    var ready: set<Id>
    var running: set<Id>
    var inUse: Demand
    var tokens: set<Token>

    function View(): Pool
      reads this
    {
      Pool(nodes, succs, ready, running, inUse, tokens)
    }

    /** Successor lists exist for accepted tasks only. */
    ghost predicate Valid()
      reads this
    {
      succs.Keys <= nodes.Keys
    }

    constructor (c: Config, hardwareThreads: int)
      ensures Valid() && View() == EMPTY_POOL
      ensures Normal(config) && config == Normalize(c, hardwareThreads)
    {
      config := Normalize(c, hardwareThreads);
      nodes, succs, ready, running, inUse, tokens := map[], map[], {}, {}, Demand(0, 0, 0), {};
    }

    method FindsCycle(id: Id, deps: seq<Id>) returns (b: bool)
      ensures b <==> CreatesCycle(succs, id, deps)
    {
      hide Walked, CreatesCycle;
      var stack, visited: set<Id> := deps, {};
      WalkStart(succs, deps, id);
      while stack != []
        invariant Walked(succs, deps, id, visited, stack)
        decreases succs.Keys - visited, |stack|
      {
        ghost var before := stack;
        var current := stack[|stack| - 1];
        stack := stack[..|stack| - 1];
        assert before == stack + [current];
        if current == id {
          WalkHit(succs, deps, id, visited, before);
          return true;
        }
        if current in visited {
          WalkSkip(succs, deps, id, visited, stack, current);
        } else {
          WalkOn(succs, deps, id, visited, stack, current);
          visited := visited + {current};
          if current in succs {
            stack := stack + succs[current];
          } else {
            assert stack + [] == stack;
          }
        }
      }
      WalkedAll(succs, deps, id, visited);
      return false;
    }

    method PickCandidate(now: nat) returns (r: Option<Id>)
      ensures IsPick(config, View(), now, r)
    {
      var bestFit: Option<Id>, bestOver: Option<Id> := None, None;
      var rest := ready;
      while rest != {}
        invariant rest <= ready
        invariant Leads(config, View(), now, ready - rest, true, bestFit)
        invariant Leads(config, View(), now, ready - rest, false, bestOver)
        decreases rest
      {
        var id :| id in rest;
        LeadsOn(config, View(), now, ready - rest, true, bestFit, id);
        LeadsOn(config, View(), now, ready - rest, false, bestOver, id);
        assert ready - (rest - {id}) == ready - rest + {id};
        rest := rest - {id};
        if Runnable(config, View(), id) {
          if FitsSoft(config, View(), nodes[id].task.demand) {
            if bestFit.None? || Better(config, View(), now, id, bestFit.value) {
              bestFit := Some(id);
            }
          } else if bestOver.None? || Better(config, View(), now, id, bestOver.value) {
            bestOver := Some(id);
          }
        }
      }
      assert forall fits :: Candidates(config, View(), fits) * (ready - rest) == Candidates(config, View(), fits);
      if bestFit.Some? {
        return bestFit;
      }
      if running == {} && bestOver.Some? {
        return bestOver;
      }
      return None;
    }

    /** Cancels one unfinished task because of an ancestor. */
    method CutOff(id: Id, now: nat)
      requires id in nodes && !Terminal(nodes[id].task.state)
      modifies this
      ensures succs == old(succs) && running == old(running) && inUse == old(inUse)
      ensures nodes == old(nodes)[id := CutNode(old(nodes)[id], now)]
      ensures ready == if old(nodes)[id].task.state == Ready then old(ready) - {id} else old(ready)
      ensures tokens ==
        if old(nodes)[id].task.token.Some? then old(tokens) + {old(nodes)[id].task.token.value} else old(tokens)
    {
      if nodes[id].task.token.Some? {
        tokens := tokens + {nodes[id].task.token.value};
      }
      if nodes[id].task.state == Ready {
        ready := ready - {id};
      }
      nodes := nodes[id := CutNode(nodes[id], now)];
    }

    /** Visits the successors of one node of the walk below root. */
    method VisitSuccessors(ghost p: Pool, ghost root: Id, current: Id, before: set<Id>, pending: seq<Id>, now: nat)
        returns (visited: set<Id>, stack: seq<Id>)
      requires View() == CutAll(p, Struck(p, before), now)
      requires Spread(p, root, before, pending, Some(current), 0)
      modifies this
      ensures View() == CutAll(p, Struck(p, visited), now)
      ensures Spread(p, root, visited, stack, None, 0)
      ensures before <= visited
      ensures p.nodes.Keys - visited == p.nodes.Keys - before ==> |stack| == |pending|
    {
      hide Spread, Struck, CutAll;
      visited, stack := before, pending;
      CutKeepsEdges(p, Struck(p, visited), now);
      var list := Succ(succs, current);
      var j := 0;
      while j < |list|
        invariant j <= |list| && before <= visited
        invariant View() == CutAll(p, Struck(p, visited), now)
        invariant Spread(p, root, visited, stack, Some(current), j)
        invariant p.nodes.Keys - visited == p.nodes.Keys - before ==> |stack| == |pending|
      {
        var w := list[j];
        SpreadVisit(p, root, visited, stack, current, j);
        if w !in visited {
          StruckMore(p, visited, w);
          CutUntouched(p, Struck(p, visited), w, now);
          if w in nodes {
            assert w in p.nodes.Keys - before && w !in p.nodes.Keys - (visited + {w});
            if !Terminal(nodes[w].task.state) {
              StruckInside(p, visited);
              CutOneMore(p, Struck(p, visited), w, now);
              CutOff(w, now);
            }
            stack := stack + [w];
          }
          visited := visited + {w};
        }
        j := j + 1;
      }
      SpreadDone(p, root, visited, stack, current);
    }

    method PropagateCanceled(root: Id, now: nat)
      requires Valid()
      modifies this
      ensures Valid() && View() == Propagate(old(View()), root, now)
    {
      hide Spread, Struck, CutAll, CutSet;
      ghost var p := View();
      var stack, visited: set<Id> := [root], {};
      CutNone(p, now);
      assert Struck(p, {}) == {} by { StruckNone(p); }
      SpreadStart(p, root);
      while stack != []
        invariant View() == CutAll(p, Struck(p, visited), now)
        invariant Spread(p, root, visited, stack, None, 0)
        decreases p.nodes.Keys - visited, |stack|
      {
        var current, rest := stack[|stack| - 1], stack[..|stack| - 1];
        assert stack == rest + [current];
        SpreadPop(p, root, visited, rest, current);
        visited, stack := VisitSuccessors(p, root, current, visited, rest, now);
      }
      SpreadAll(p, root, visited);
      CutKeepsEdges(p, Struck(p, visited), now);
    }

    method WakeSuccessors(id: Id, now: nat)
      requires Valid()
      modifies this
      ensures Valid() && View() == Wake(old(View()), Succ(old(succs), id), now)
    {
      hide Wake;
      ghost var p := View();
      var list := Succ(succs, id);
      WakeNone(p, now);
      var i := 0;
      while i < |list|
        invariant i <= |list| && succs == p.succs && nodes.Keys == p.nodes.Keys
        invariant View() == Wake(p, list[..i], now)
      {
        var x := list[i];
        WakeNextIn(p, list[..i], x, now);
        assert list[..i + 1] == list[..i] + [x];
        if x in nodes {
          if nodes[x].task.state == Queued && nodes[x].unmet > 0 {
            var n := nodes[x].(unmet := nodes[x].unmet - 1);
            if n.unmet == 0 {
              n := n.(task := Transition(n.task, Ready, now), since := now);
              ready := ready + {x};
            }
            nodes := nodes[x := n];
          } else {
            assert nodes[x := nodes[x]] == nodes;
          }
        }
        i := i + 1;
      }
      assert list[..i] == list;
    }

    /** Pushes the edges into a new task until a dependency stops the submission. */
    method LinkDependencies(id: Id, deps: seq<Id>) returns (failed: bool, blocked: bool, unmet: nat)
      requires Valid()
      modifies this
      ensures Valid()
      ensures
        var p, k := old(View()), StopAt(old(nodes), id, deps);
        && (failed <==> k < |deps| && (deps[k] == id || deps[k] !in p.nodes))
        && (blocked <==> k < |deps| && !failed)
        && unmet == Missing(DoneSet(p.nodes), deps[..k])
        && View() == p.(succs := PushEdges(p.succs, deps[..if blocked then k + 1 else k], id))
    {
      hide Missing, PushEdges;
      ghost var p := View();
      ghost var k := StopAt(nodes, id, deps);
      failed, blocked, unmet := false, false, 0;
      MissingNone(p);
      PushNone(p.succs, id);
      var i := 0;
      while i < |deps|
        invariant i <= k && Valid()
        invariant View() == p.(succs := PushEdges(p.succs, deps[..i], id))
        invariant unmet == Missing(DoneSet(p.nodes), deps[..i])
      {
        var d := deps[i];
        if d == id {
          failed := true;
          return;
        }
        if d !in nodes {
          failed := true;
          return;
        }
        PushOne(p.succs, deps, i, id);
        MissingOne(DoneSet(p.nodes), deps, i);
        succs := succs[d := Succ(succs, d) + [id]];
        if nodes[d].task.state != Succeeded {
          if Bad(nodes[d].task.state) {
            blocked := true;
            return;
          }
          unmet := unmet + 1;
        }
        i := i + 1;
      }
    }

    method Submit(t0: Task, stage: Option<Stage>, now: nat) returns (r: Result)
      requires Valid()
      modifies this
      ensures Valid()
      ensures (View(), r) == PoolModel.Submit(config, old(View()), t0, stage, now)
    {
      hide CreatesCycle, Missing, PushEdges, StopAt;
      if stage.None? {
        return Err(INTERNAL_ERROR);
      }
      if t0.id == "" {
        return Err(INTERNAL_ERROR);
      }
      if t0.id in nodes {
        return Err(INTERNAL_ERROR);
      }
      var t := Admitted(t0);
      if t.demand.cpu > config.cpuHard {
        return Err(TaskError(ResourceError, 3001));
      }
      var cyclic := FindsCycle(t.id, t.deps);
      if cyclic {
        return Err(INTERNAL_ERROR);
      }
      var failed, blocked, unmet := LinkDependencies(t.id, t.deps);
      if failed {
        return Err(INTERNAL_ERROR);
      }
      assert t.deps[..|t.deps|] == t.deps;
      if blocked {
        nodes := nodes[t.id := BlockedNode(t, stage.value, unmet, now)];
      } else if unmet == 0 {
        if !Legal(t.state, Ready) {
          return Err(INTERNAL_ERROR);
        }
        nodes := nodes[t.id := NewNode(Transition(t, Ready, now), stage.value, 0, now)];
        ready := ready + {t.id};
      } else {
        nodes := nodes[t.id := NewNode(t, stage.value, unmet, now)];
      }
      return Ok;
    }

    method Cancel(id: Id, now: nat) returns (r: Result)
      requires Valid()
      modifies this
      ensures Valid()
      ensures (View(), r) == PoolModel.Cancel(old(View()), id, now)
    {
      hide Propagate;
      if id !in nodes {
        return Err(INTERNAL_ERROR);
      }
      var n := nodes[id];
      if n.task.token.Some? {
        tokens := tokens + {n.task.token.value};
      }
      if n.task.state == Ready {
        ready := ready - {id};
      }
      nodes := nodes[id := CanceledNode(n, now)];
      if !Terminal(n.task.state) {
        PropagateCanceled(id, now);
      }
      return Ok;
    }

    /** The part of pause before the caller waits. */
    method Pause(id: Id, now: nat) returns (r: PauseResult)
      requires Valid()
      modifies this
      ensures Valid()
      ensures (View(), r) == PoolModel.Pause(config, old(View()), id, now)
    {
      if id !in nodes {
        return PauseErr(INTERNAL_ERROR);
      }
      var n := nodes[id];
      if n.task.state == Paused {
        return PauseDone;
      }
      if n.task.state == Queued || n.task.state == Ready {
        if n.task.state == Ready {
          ready := ready - {id};
        }
        nodes := nodes[id := n.(task := Transition(n.task, Paused, now))];
        return PauseDone;
      }
      if n.task.state == Running {
        var deadline := now + Max(1, config.pauseTimeoutMs) * TICKS_PER_MS;
        nodes := nodes[id := n.(pauseRequested := true, pauseDeadline := Some(deadline))];
        return AwaitCheckpoint(deadline);
      }
      return PauseErr(INTERNAL_ERROR);
    }

    /** What a caller of pause that waits for a checkpoint looks for, at the latest at the deadline. */
    method PauseReached(id: Id) returns (b: bool)
      ensures b <==> PauseOver(View(), id)
    {
      return id !in nodes || nodes[id].task.state == Paused || Terminal(nodes[id].task.state);
    }

    /**
     The rest of pause. What the caller found in the end was read from the state seen; other steps may have come in
     between. If the pause was not over then, the task is canceled and the timeout is reported.
     */
    method EndPause(id: Id, reached: bool, now: nat, ghost seen: Pool) returns (r: Result)
      requires Valid() && (reached <==> PauseOver(seen, id))
      modifies this
      ensures Valid()
      ensures PauseOver(seen, id) ==> r == Ok && View() == old(View())
      ensures !PauseOver(seen, id) ==>
        r == Err(TaskError(TimeoutError, 3003)) && View() == PoolModel.Cancel(old(View()), id, now).0
    {
      if reached {
        return Ok;
      }
      var _ := Cancel(id, now);
      return Err(TaskError(TimeoutError, 3003));
    }

    method Resume(id: Id, now: nat) returns (r: Result)
      requires Valid()
      modifies this
      ensures Valid()
      ensures (View(), r) == PoolModel.Resume(old(View()), id, now)
    {
      if id !in nodes || nodes[id].task.state != Paused {
        return Err(INTERNAL_ERROR);
      }
      var target := ResumeTarget(nodes[id].task);
      if !Legal(Paused, target) {
        return Err(INTERNAL_ERROR);
      }
      var awake := Transition(nodes[id].task, target, now);
      var n := nodes[id].(task := awake, pauseRequested := false, pauseDeadline := None);
      if target == Ready {
        n := n.(since := now);
        ready := ready + {id};
      }
      nodes := nodes[id := n];
      return Ok;
    }

    /** The running tasks whose requested pause has passed its deadline. */
    method TimedOut(now: nat) returns (ids: seq<Id>)
      ensures forall x :: x in ids <==> PauseExpired(View(), x, now)
      ensures forall i, j :: 0 <= i < j < |ids| ==> ids[i] != ids[j]
    {
      ids := [];
      var rest := nodes.Keys;
      while rest != {}
        invariant rest <= nodes.Keys
        invariant forall x :: x in ids <==> x in nodes && x !in rest && PauseExpired(View(), x, now)
        invariant forall i, j :: 0 <= i < j < |ids| ==> ids[i] != ids[j]
        decreases rest
      {
        var id :| id in rest;
        rest := rest - {id};
        if PauseExpired(View(), id, now) {
          ids := ids + [id];
        }
      }
    }

    method Tick(now: nat) returns (ids: seq<Id>)
      requires Valid()
      modifies this
      ensures Valid()
      ensures forall x :: x in ids <==> PauseExpired(old(View()), x, now)
      ensures View() == CancelAll(old(View()), ids, now)
    {
      hide PoolModel.Cancel, PauseExpired;
      ids := TimedOut(now);
      ghost var p := View();
      var i := 0;
      while i < |ids|
        invariant i <= |ids| && Valid() && View() == CancelAll(p, ids[..i], now)
      {
        var _ := Cancel(ids[i], now);
        assert ids[..i + 1][..i] == ids[..i];
        i := i + 1;
      }
      assert ids[..i] == ids;
    }

    method HasPendingTasks() returns (b: bool)
      ensures b <==> exists x :: x in nodes && !Terminal(nodes[x].task.state)
    {
      var rest := nodes.Keys;
      while rest != {}
        invariant rest <= nodes.Keys
        invariant forall x :: x in nodes && x !in rest ==> Terminal(nodes[x].task.state)
        decreases rest
      {
        var id :| id in rest;
        rest := rest - {id};
        if !Terminal(nodes[id].task.state) {
          return true;
        }
      }
      return false;
    }

    /** One turn of an idle worker: choose, reserve, and collect the inputs of the stage to execute. */
    method Dispatch(now: nat) returns (a: Option<Assignment>)
      requires Valid()
      modifies this
      ensures Valid()
      ensures a.None? ==> View() == old(View()) && IsPick(config, old(View()), now, None)
      ensures a.Some? ==>
        && var id := a.value.id;
        && IsPick(config, old(View()), now, Some(id)) && id in old(nodes)
        && View() == PoolModel.Dispatch(old(View()), id, now)
        && a.value == Assignment(id, old(nodes)[id].stage, InputsFor(old(View()), id))
    {
      hide IsPick;
      ghost var p := View();
      var pick := PickCandidate(now);
      if pick.None? {
        return None;
      }
      var id := pick.value;
      PoolRuns.PickFits(config, p, now, id);
      var n := nodes[id];
      ready := ready - {id};
      inUse := Plus(inUse, n.task.demand);
      running := running + {id};
      nodes := nodes[id := StartedNode(n, now)];
      assert OutputsOf(nodes) == OutputsOf(p.nodes);
      var inputs := CollectInputs(n.task.deps);
      return Some(Assignment(id, n.stage, inputs));
    }

    method CollectInputs(deps: seq<Id>) returns (inputs: Outputs)
      ensures inputs == Merge(OutputsOf(nodes), deps)
    {
      inputs := map[];
      var i := 0;
      while i < |deps|
        invariant i <= |deps| && inputs == Merge(OutputsOf(nodes), deps[..i])
      {
        var d := deps[i];
        assert deps[..i + 1][..i] == deps[..i];
        if d in nodes {
          inputs := inputs + nodes[d].outputs;
        } else {
          assert inputs + map[] == inputs;
        }
        i := i + 1;
      }
      assert deps[..i] == deps;
    }

    /** A progress report of the stage of a task; true if the worker now has to wait for a resume. */
    method Checkpoint(id: Id, now: nat) returns (held: bool)
      requires Valid()
      modifies this
      ensures Valid()
      ensures View() == PoolModel.Checkpoint(old(View()), id, now)
      ensures held <==> Has(old(View()), id, Running) && Has(View(), id, Paused)
    {
      if id in nodes && nodes[id].pauseRequested && nodes[id].task.state == Running {
        var n := nodes[id];
        var paused := Transition(n.task, Paused, now);
        nodes := nodes[id := n.(task := paused, pauseRequested := false, pauseDeadline := None)];
        return true;
      }
      return false;
    }

    method Finalize(id: Id, outcome: Outcome, now: nat)
      requires Valid()
      modifies this
      ensures Valid()
      ensures View() == PoolModel.Finalize(old(View()), id, outcome, now)
    {
      hide Propagate, Wake, Transition, Legal;
      if id !in nodes {
        return;
      }
      if nodes[id].running {
        running := running - {id};
        inUse := Release(inUse, nodes[id].task.demand);
        nodes := nodes[id := nodes[id].(running := false)];
      }
      var t := nodes[id].task;
      if t.state == Canceled {
        PropagateCanceled(id, now);
        return;
      }
      match outcome {
        case Success(outputs) =>
          if Legal(t.state, Succeeded) {
            nodes := nodes[id := nodes[id].(task := Transition(t, Succeeded, now))];
            nodes := nodes[id := nodes[id].(outputs := outputs)];
            WakeSuccessors(id, now);
          } else {
            nodes := nodes[id := nodes[id].(task := Transition(t.(error := Some(INTERNAL_ERROR)), Failed, now))];
            PropagateCanceled(id, now);
          }
        case Failure(error) =>
          var canceled := error.category == CancelError || (t.token.Some? && t.token.value in tokens);
          var to := if canceled then Canceled else Failed;
          nodes := nodes[id := nodes[id].(task := Transition(t.(error := Some(error)), to, now))];
          PropagateCanceled(id, now);
      }
    }
  }

  lemma MissingNone(p: Pool)
    ensures Missing(DoneSet(p.nodes), []) == 0
  {
  }

  lemma MissingOne(done: set<Id>, deps: seq<Id>, i: nat)
    requires i < |deps|
    ensures Missing(done, deps[..i + 1]) == Missing(done, deps[..i]) + if deps[i] in done then 0 else 1
  {
    assert deps[..i + 1][..i] == deps[..i];
  }

  lemma PushOne(g: Graph, deps: seq<Id>, i: nat, id: Id)
    requires i < |deps|
    ensures
      var h := PushEdges(g, deps[..i], id);
      PushEdges(g, deps[..i + 1], id) == h[deps[i] := Succ(h, deps[i]) + [id]]
  {
    assert deps[..i + 1][..i] == deps[..i];
  }
}
