/**
  Finite directed graphs, and the depth-first check of coordination-ledger.js that refuses exactly
  the cyclic ones.
*/
module Graphs {
  import opened Wrappers

  type Edges<!T(==)> = set<(T, T)>

  predicate Walk<T(==)>(e: Edges<T>, w: seq<T>) {
    |w| > 0 && forall i :: 0 < i < |w| ==> (w[i - 1], w[i]) in e
  }

  ghost predicate Reaches<T(!new)>(e: Edges<T>, a: T, b: T) {
    exists w :: Walk(e, w) && w[0] == a && w[|w| - 1] == b
  }

  predicate Loop<T(==)>(e: Edges<T>, w: seq<T>) {
    Walk(e, w) && |w| > 1 && w[0] == w[|w| - 1]
  }

  ghost predicate Acyclic<T(!new)>(e: Edges<T>) {
    forall w: seq<T> :: !Loop(e, w)
  }

  lemma SubgraphIsAcyclic<T(!new)>(small: Edges<T>, large: Edges<T>)
    requires small <= large && Acyclic(large)
    ensures Acyclic(small)
  {
    forall w: seq<T> ensures !Loop(small, w) {
      if Loop(small, w) { assert Loop(large, w); }
    }
  }

  // ---------- Adding the edges of one node ----------

  function Out<T>(t: T, parents: set<T>): Edges<T> {
    set p | p in parents :: (t, p)
  }

  /** A walk that ends in `t` needs none of the edges out of `t`. */
  lemma {:induction false} WalkWithoutOwnEdges<T(!new)>(e: Edges<T>, t: T, parents: set<T>, w: seq<T>)
    requires Walk(e + Out(t, parents), w) && w[|w| - 1] == t
    ensures Reaches(e, w[0], t)
    decreases |w|
  {
    if w[0] == t {
      assert Walk(e, [t]);
    } else {
      assert (w[0], w[1]) in e;
      assert Walk(e + Out(t, parents), w[1..]);
      WalkWithoutOwnEdges(e, t, parents, w[1..]);
      var rest :| Walk(e, rest) && rest[0] == w[1] && rest[|rest| - 1] == t;
      var whole := [w[0]] + rest;
      assert Walk(e, whole);
    }
  }

  /** New edges out of one node close a loop exactly when one of their ends already reaches that node. */
  lemma AddingEdgesStaysAcyclic<T(!new)>(e: Edges<T>, t: T, parents: set<T>)
    requires Acyclic(e)
    ensures Acyclic(e + Out(t, parents)) <==> forall p :: p in parents ==> !Reaches(e, p, t)
  {
    var e' := e + Out(t, parents);
    if p :| p in parents && Reaches(e, p, t) { ReachingBackLoops(e, t, parents, p); }
    if w: seq<T> :| Loop(e', w) { LoopReachesBack(e, t, parents, w); }
  }

  lemma ReachingBackLoops<T(!new)>(e: Edges<T>, t: T, parents: set<T>, p: T)
    requires p in parents && Reaches(e, p, t)
    ensures !Acyclic(e + Out(t, parents))
  {
    var w :| Walk(e, w) && w[0] == p && w[|w| - 1] == t;
    assert (t, p) in e + Out(t, parents);
    assert Loop(e + Out(t, parents), [t] + w);
  }

  lemma LoopReachesBack<T(!new)>(e: Edges<T>, t: T, parents: set<T>, w: seq<T>)
    requires Acyclic(e) && Loop(e + Out(t, parents), w)
    ensures exists p :: p in parents && Reaches(e, p, t)
  {
    if i :| 0 <= i < |w| - 1 && w[i] == t {
      var p := w[i + 1];
      assert (w[i + 1 - 1], p) in e + Out(t, parents);
      var turned := TurnLoop(e + Out(t, parents), w, i);
      WalkWithoutOwnEdges(e, t, parents, turned);
      if p !in parents { EdgeAndWayBack(e, t, p); }
    } else {
      forall k | 0 < k < |w| ensures (w[k - 1], w[k]) in e { assert w[k - 1] != t; }
      assert Loop(e, w);
    }
  }

  /** A loop read from the node after its `i`-th ends in that node. */
  lemma TurnLoop<T(!new)>(e: Edges<T>, w: seq<T>, i: nat) returns (turned: seq<T>)
    requires Loop(e, w) && i < |w| - 1
    ensures Walk(e, turned) && turned[0] == w[i + 1] && turned[|turned| - 1] == w[i]
  {
    turned := w[i + 1..] + w[1..i + 1];
    var n := |w| - i - 1;
    forall k | 0 < k < |turned| ensures (turned[k - 1], turned[k]) in e {
      if k < n {
        assert turned[k - 1] == w[i + k] && turned[k] == w[i + k + 1] && (w[i + k + 1 - 1], w[i + k + 1]) in e;
      } else {
        assert turned[k] == w[k - n + 1] && turned[k - 1] == w[k - n];
      }
    }
  }

  lemma EdgeAndWayBack<T(!new)>(e: Edges<T>, t: T, p: T)
    requires (t, p) in e && Reaches(e, p, t)
    ensures !Acyclic(e)
  {
    var back :| Walk(e, back) && back[0] == p && back[|back| - 1] == t;
    assert Loop(e, [t] + back);
  }

  // ---------- The depth-first check ----------

  function EdgesIn<T>(edges: map<T, set<T>>): Edges<T> {
    set a, b | a in edges && b in edges[a] :: (a, b)
  }

  function NodesOf<T>(edges: map<T, set<T>>): set<T> {
    edges.Keys + set a, b | a in edges && b in edges[a] :: b
  }

  function Parents<T>(edges: map<T, set<T>>, id: T): set<T> {
    if id in edges then edges[id] else {}
  }

  lemma ParentsAreEdges<T(!new)>(edges: map<T, set<T>>, id: T)
    ensures forall p :: p in Parents(edges, id) ==> (id, p) in EdgesIn(edges) && p in NodesOf(edges)
    ensures forall ab :: ab in EdgesIn(edges) && ab.0 == id ==> ab.1 in Parents(edges, id)
  {
  }

  /** Every edge out of a listed node leads to a node listed before it. */
  predicate FinishedInOrder<T(==)>(e: Edges<T>, finished: seq<T>) {
    forall i, ab :: 0 <= i < |finished| && ab in e && ab.0 == finished[i] ==> ab.1 in finished[..i]
  }

  lemma {:induction false} EarlierOnTheWalk<T(!new)>(e: Edges<T>, finished: seq<T>, w: seq<T>, i: nat)
    requires FinishedInOrder(e, finished) && Walk(e, w) && i < |finished| && finished[i] == w[0]
    ensures |w| > 1 ==> exists j :: 0 <= j < i && finished[j] == w[|w| - 1]
    decreases |w|
  {
    if |w| > 1 {
      assert (w[0], w[1]) in e;
      var j :| 0 <= j < i && finished[j] == w[1];
      assert Walk(e, w[1..]);
      EarlierOnTheWalk(e, finished, w[1..], j);
    }
  }

  predicate Distinct<T(==)>(s: seq<T>) {
    forall i, j :: 0 <= i < j < |s| ==> s[i] != s[j]
  }

  lemma FinishingOrderIsAcyclic<T(!new)>(edges: map<T, set<T>>, finished: seq<T>)
    requires FinishedInOrder(EdgesIn(edges), finished) && Distinct(finished)
    requires forall a :: a in edges ==> a in finished
    ensures Acyclic(EdgesIn(edges))
  {
    forall w: seq<T> ensures !Loop(EdgesIn(edges), w) {
      if Loop(EdgesIn(edges), w) {
        assert (w[0], w[1]) in EdgesIn(edges);
        var i :| 0 <= i < |finished| && finished[i] == w[0];
        EarlierOnTheWalk(EdgesIn(edges), finished, w, i);
      }
    }
  }

  lemma ExtendedWalk<T>(e: Edges<T>, path: seq<T>, id: T)
    requires path != [] ==> Walk(e, path) && (path[|path| - 1], id) in e
    ensures Walk(e, path + [id])
    ensures forall a :: a in path + [id] <==> a in path || a == id
  {
  }

  lemma FinishedAfter<T>(e: Edges<T>, finished: seq<T>, id: T)
    requires FinishedInOrder(e, finished) && Distinct(finished) && id !in finished
    requires forall ab :: ab in e && ab.0 == id ==> ab.1 in finished
    ensures FinishedInOrder(e, finished + [id]) && Distinct(finished + [id])
    ensures forall a :: a in finished + [id] <==> a in finished || a == id
  {
    forall i, ab | 0 <= i < |finished| + 1 && ab in e && ab.0 == (finished + [id])[i] ensures ab.1 in (finished + [id])[..i] {
      assert (finished + [id])[..i] == finished[..i];
    }
  }

  lemma ClosingStep<T(!new)>(e: Edges<T>, path: seq<T>, id: T)
    requires id in path && Walk(e, path) && (path[|path| - 1], id) in e
    ensures !Acyclic(e)
  {
    var i :| 0 <= i < |path| && path[i] == id;
    assert Loop(e, path[i..] + [id]);
  }

  class Search<T(==,!new)> {
    const edges: map<T, set<T>>
    var seen: set<T>
    var stack: set<T>
    ghost var path: seq<T>
    ghost var finished: seq<T>

    constructor (edges: map<T, set<T>>)
      ensures this.edges == edges && Valid() && path == []
    {
      this.edges := edges;
      seen, stack, path, finished := {}, {}, [], [];
    }

    ghost predicate Valid()
      reads this
    {
      && seen <= NodesOf(edges) && stack <= NodesOf(edges) && seen !! stack
      && (forall a :: a in seen <==> a in finished) && Distinct(finished) && FinishedInOrder(EdgesIn(edges), finished)
      && (forall a :: a in stack <==> a in path)
      && (path != [] ==> Walk(EdgesIn(edges), path))
    }

    /** `ok` is false when the visit meets a node that is still on the stack. */
    method Visit(id: T) returns (ok: bool)
      requires Valid() && id in NodesOf(edges)
      requires path != [] ==> (path[|path| - 1], id) in EdgesIn(edges)
      modifies this
      ensures ok ==> Valid() && id in seen && old(seen) <= seen && stack == old(stack) && path == old(path)
      ensures !ok ==> !Acyclic(EdgesIn(edges))
      decreases NodesOf(edges) - seen - stack
    {
      hide Walk, FinishedInOrder, Distinct, Acyclic, EdgesIn, NodesOf, Parents;
      if id in stack {
        ClosingStep(EdgesIn(edges), path, id);
        return false;
      }
      if id in seen { return true; }
      ExtendedWalk(EdgesIn(edges), path, id);
      stack, path := stack + {id}, path + [id];
      ParentsAreEdges(edges, id);
      var left := Parents(edges, id);
      while left != {}
        invariant Valid() && old(seen) <= seen && stack == old(stack) + {id} && path == old(path) + [id]
        invariant left <= Parents(edges, id)
        invariant forall p :: p in Parents(edges, id) ==> p in left || p in seen
        decreases left
      {
        var parent := Pick(left);
        left := left - {parent};
        ok := Visit(parent);
        if !ok { return; }
      }
      FinishedAfter(EdgesIn(edges), finished, id);
      assert path[..|path| - 1] == old(path) && stack - {id} == old(stack);
      stack, path := stack - {id}, path[..|path| - 1];
      seen, finished := seen + {id}, finished + [id];
      return true;
    }

    method VisitAll() returns (ok: bool)
      requires Valid() && path == []
      modifies this
      ensures ok <==> Acyclic(EdgesIn(edges))
    {
      var left := edges.Keys;
      while left != {}
        invariant Valid() && path == [] && left <= edges.Keys
        invariant forall a :: a in edges ==> a in left || a in seen
        decreases left
      {
        var id := Pick(left);
        left := left - {id};
        ok := Visit(id);
        if !ok { return; }
      }
      FinishingOrderIsAcyclic(edges, finished);
      return true;
    }
  }

  // ---------- Progress ----------

  lemma {:induction false} Pigeonhole<T>(s: seq<T>, holes: set<T>)
    requires |s| > |holes| && forall x :: x in s ==> x in holes
    ensures !Distinct(s)
    decreases |s|
  {
    var last := s[|s| - 1];
    if last !in s[..|s| - 1] {
      forall x | x in s[..|s| - 1] ensures x in holes - {last} {}
      Pigeonhole(s[..|s| - 1], holes - {last});
      var i, j :| 0 <= i < j < |s| - 1 && s[..|s| - 1][i] == s[..|s| - 1][j];
      assert s[i] == s[j];
    } else {
      var i :| 0 <= i < |s| - 1 && s[i] == last;
    }
  }

  /** `u` waits on some node of the set. */
  ghost predicate Waits<T(!new)>(e: Edges<T>, nodes: set<T>, u: T) {
    exists v :: v in nodes && (u, v) in e
  }

  lemma AwaitedBy<T(!new)>(e: Edges<T>, nodes: set<T>, u: T) returns (v: T)
    requires Waits(e, nodes, u)
    ensures v in nodes && (u, v) in e
  {
    v :| v in nodes && (u, v) in e;
  }

  lemma {:induction false} WalkInside<T(!new)>(e: Edges<T>, nodes: set<T>, start: T, n: nat) returns (w: seq<T>)
    requires start in nodes && forall u :: u in nodes ==> Waits(e, nodes, u)
    ensures |w| == n + 1 && Walk(e, w) && forall x :: x in w ==> x in nodes
    decreases n
  {
    hide Waits;
    if n == 0 {
      w := [start];
    } else {
      var before := WalkInside(e, nodes, start, n - 1);
      assert before[|before| - 1] in before;
      var next := AwaitedBy(e, nodes, before[|before| - 1]);
      w := before + [next];
    }
  }

  lemma BlockedNodesLoop<T(!new)>(e: Edges<T>, nodes: set<T>)
    requires nodes != {} && forall u :: u in nodes ==> Waits(e, nodes, u)
    ensures !Acyclic(e)
  {
    hide Waits;
    var start :| start in nodes;
    var w := WalkInside(e, nodes, start, |nodes|);
    Pigeonhole(w, nodes);
    var i, j :| 0 <= i < j < |w| && w[i] == w[j];
    assert Loop(e, w[i..j + 1]);
  }

  /** In a finite acyclic graph some node of every non-empty set waits on no node of the set. */
  lemma SomeNodeIsFree<T(!new)>(e: Edges<T>, nodes: set<T>)
    requires Acyclic(e) && nodes != {}
    ensures exists u :: u in nodes && !Waits(e, nodes, u)
  {
    hide Waits, Acyclic;
    if forall u :: u in nodes ==> Waits(e, nodes, u) { BlockedNodesLoop(e, nodes); }
  }
}
