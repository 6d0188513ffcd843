/** Successor lists and reachability, as both graph walks of the pool use them. */
module Graphs {
  import opened Tasks

  type Graph = map<Id, seq<Id>>

  function Succ(g: Graph, v: Id): seq<Id> {
    if v in g then g[v] else []
  }

  /** How often the edge from d to x was pushed. */
  ghost function Edge(g: Graph, d: Id, x: Id): nat {
    multiset(Succ(g, d))[x]
  }

  ghost predicate IsPath(g: Graph, p: seq<Id>) {
    |p| > 0 && forall i :: 0 <= i < |p| - 1 ==> p[i + 1] in Succ(g, p[i])
  }

  ghost predicate Reach(g: Graph, a: Id, b: Id) {
    exists p :: IsPath(g, p) && p[0] == a && p[|p| - 1] == b
  }

  /** b can be reached from a by at least one edge. */
  ghost predicate Below(g: Graph, a: Id, b: Id) {
    exists v :: v in Succ(g, a) && Reach(g, v, b)
  }

  lemma ReachSelf(g: Graph, a: Id)
    ensures Reach(g, a, a)
  {
    var p := [a];
    assert IsPath(g, p) && p[0] == a && p[|p| - 1] == a;
  }

  lemma ReachStep(g: Graph, a: Id, b: Id, c: Id)
    requires Reach(g, a, b) && c in Succ(g, b)
    ensures Reach(g, a, c)
  {
    var p :| IsPath(g, p) && p[0] == a && p[|p| - 1] == b;
    var q := p + [c];
    forall i | 0 <= i < |q| - 1 ensures q[i + 1] in Succ(g, q[i]) {
      if i < |p| - 1 { assert q[i] == p[i] && q[i + 1] == p[i + 1]; }
    }
    assert IsPath(g, q) && q[0] == a && q[|q| - 1] == c;
  }

  lemma BelowDirect(g: Graph, a: Id, b: Id)
    requires b in Succ(g, a)
    ensures Below(g, a, b)
  {
    ReachSelf(g, b);
  }

  lemma BelowStep(g: Graph, a: Id, b: Id, c: Id)
    requires Below(g, a, b) && c in Succ(g, b)
    ensures Below(g, a, c)
  {
    var v :| v in Succ(g, a) && Reach(g, v, b);
    ReachStep(g, v, b, c);
  }

  /** A set that contains a and is closed under edges contains all that a reaches. */
  lemma ReachStays(g: Graph, S: iset<Id>, a: Id, b: Id)
    requires a in S && Reach(g, a, b)
    requires forall v, w :: v in S && w in Succ(g, v) ==> w in S
    ensures b in S
  {
    var p :| IsPath(g, p) && p[0] == a && p[|p| - 1] == b;
    PathStays(g, S, p, |p| - 1);
  }

  lemma {:induction false} PathStays(g: Graph, S: iset<Id>, p: seq<Id>, k: nat)
    requires IsPath(g, p) && k < |p| && p[0] in S
    requires forall v, w :: v in S && w in Succ(g, v) ==> w in S
    ensures p[k] in S
  {
    if k > 0 {
      PathStays(g, S, p, k - 1);
      assert p[k - 1 + 1] in Succ(g, p[k - 1]);
    }
  }

  /** A walk from a to another node b ends with an edge into b. */
  lemma ReachCases(g: Graph, a: Id, b: Id) returns (d: Id)
    requires Reach(g, a, b) && a != b
    ensures Reach(g, a, d) && b in Succ(g, d)
  {
    var p :| IsPath(g, p) && p[0] == a && p[|p| - 1] == b;
    var q := p[..|p| - 1];
    d := q[|q| - 1];
    assert p[|p| - 2 + 1] in Succ(g, d);
    assert IsPath(g, q) && q[0] == a;
  }

  /** The induction principle for Below. */
  lemma BelowStays(g: Graph, S: iset<Id>, a: Id, b: Id)
    requires Below(g, a, b)
    requires forall w :: w in Succ(g, a) ==> w in S
    requires forall v, w :: v in S && w in Succ(g, v) ==> w in S
    ensures b in S
  {
    var v :| v in Succ(g, a) && Reach(g, v, b);
    ReachStays(g, S, v, b);
  }

  /** h has at least the edges of g. */
  ghost predicate Grows(g: Graph, h: Graph) {
    forall v, w :: w in Succ(g, v) ==> w in Succ(h, v)
  }

  lemma ReachGrows(g: Graph, h: Graph, a: Id, b: Id)
    requires Grows(g, h) && Reach(g, a, b)
    ensures Reach(h, a, b)
  {
    var p :| IsPath(g, p) && p[0] == a && p[|p| - 1] == b;
    assert IsPath(h, p);
  }

  /** Pushing id onto the successor list of each of ds, in order. */
  function PushEdges(g: Graph, ds: seq<Id>, id: Id): Graph {
    if ds == [] then g
    else
      var rest := PushEdges(g, ds[..|ds| - 1], id);
      var d := ds[|ds| - 1];
      rest[d := Succ(rest, d) + [id]]
  }

  lemma PushNone(g: Graph, id: Id)
    ensures PushEdges(g, [], id) == g
  {
  }

  lemma PushOneEffect(g: Graph, d0: Id, id: Id, d: Id, x: Id)
    ensures Edge(g[d0 := Succ(g, d0) + [id]], d, x) == Edge(g, d, x) + if x == id && d == d0 then 1 else 0
  {
  }

  lemma {:induction false} PushEdgesCounts(g: Graph, ds: seq<Id>, id: Id, d: Id, x: Id)
    ensures Edge(PushEdges(g, ds, id), d, x) == Edge(g, d, x) + if x == id then multiset(ds)[d] else 0
  {
    hide Edge;
    if ds != [] {
      var front, last := ds[..|ds| - 1], ds[|ds| - 1];
      assert ds == front + [last];
      PushEdgesCounts(g, front, id, d, x);
      PushOneEffect(PushEdges(g, front, id), last, id, d, x);
    }
  }

  lemma {:induction false} PushEdgesKeys(g: Graph, ds: seq<Id>, id: Id)
    ensures PushEdges(g, ds, id).Keys == g.Keys + set d | d in ds
    ensures forall d :: d !in ds ==> Succ(PushEdges(g, ds, id), d) == Succ(g, d)
  {
    if ds != [] {
      var front, last := ds[..|ds| - 1], ds[|ds| - 1];
      assert ds == front + [last];
      PushEdgesKeys(g, front, id);
    }
  }

  lemma PushEdgesMembers(g: Graph, ds: seq<Id>, id: Id, d: Id, x: Id)
    ensures x in Succ(PushEdges(g, ds, id), d) <==> x in Succ(g, d) || (x == id && d in ds)
  {
    PushEdgesCounts(g, ds, id, d, x);
  }

  /** Edges into a node without successors lead nowhere else. */
  lemma PushEdgesReach(g: Graph, ds: seq<Id>, id: Id, a: Id, b: Id)
    requires Succ(g, id) == [] && id !in ds && b != id
    ensures Reach(PushEdges(g, ds, id), a, b) <==> Reach(g, a, b)
  {
    hide PushEdges, Reach;
    var h := PushEdges(g, ds, id);
    forall v, w ensures w in Succ(h, v) <==> w in Succ(g, v) || (w == id && v in ds) {
      PushEdgesMembers(g, ds, id, v, w);
    }
    if Reach(g, a, b) { ReachGrows(g, h, a, b); }
    if Reach(h, a, b) {
      var S := iset v | v == id || Reach(g, a, v);
      forall v, w | v in S && w in Succ(h, v) ensures w in S {
        if w != id { ReachStep(g, a, v, w); }
      }
      ReachSelf(g, a);
      ReachStays(h, S, a, b);
    }
  }

  lemma PushEdgesEffect(g: Graph, ds: seq<Id>, id: Id)
    ensures PushEdges(g, ds, id).Keys == g.Keys + (set d | d in ds)
    ensures forall d, x :: Edge(PushEdges(g, ds, id), d, x) == Edge(g, d, x) + (if x == id then multiset(ds)[d] else 0)
    ensures forall d :: d !in ds ==> Succ(PushEdges(g, ds, id), d) == Succ(g, d)
  {
    PushEdgesKeys(g, ds, id);
    hide Edge, PushEdges;
    forall d, x ensures Edge(PushEdges(g, ds, id), d, x) == Edge(g, d, x) + if x == id then multiset(ds)[d] else 0 {
      PushEdgesCounts(g, ds, id, d, x);
    }
  }
}
