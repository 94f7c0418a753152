/** The canvas graph analysis of ui/src/lib/workflowFlowGraph.ts: which edges close a
    cycle, and where the branches that meet in a merge node came apart.

    A connection whose source is null or the empty string is "falsy" in the source
    language and is ignored by every search, so it is no edge of the graph here. */
module FlowGraph {
  import opened Prelude

  type NodeId = string

  datatype Connection = Connection(id: string, from: Option<NodeId>, to: NodeId)

  predicate Sourced(c: Connection) {
    c.from.Some? && c.from.value != ""
  }

  // ----- walks: the paths of a directed multigraph that may have cycles -----

  /** w is a walk of cs from a to b. */
  ghost predicate IsWalk(cs: seq<Connection>, a: NodeId, w: seq<Connection>, b: NodeId)
    decreases |w|
  {
    if w == [] then a == b
    else w[0] in cs && Sourced(w[0]) && w[0].from.value == a && IsWalk(cs, w[0].to, w[1..], b)
  }

  ghost predicate Reaches(cs: seq<Connection>, a: NodeId, b: NodeId) {
    exists w :: IsWalk(cs, a, w, b)
  }

  /** b is at most n steps away from a. */
  ghost predicate Within(cs: seq<Connection>, a: NodeId, n: nat, b: NodeId) {
    exists w :: IsWalk(cs, a, w, b) && |w| <= n
  }

  ghost predicate Linked(cs: seq<Connection>, a: NodeId, b: NodeId) {
    exists c :: c in cs && Sourced(c) && c.from.value == a && c.to == b
  }

  lemma {:induction false} WalkConcat(cs: seq<Connection>, a: NodeId, v: seq<Connection>, b: NodeId,
                                      w: seq<Connection>, c: NodeId)
    requires IsWalk(cs, a, v, b) && IsWalk(cs, b, w, c)
    ensures IsWalk(cs, a, v + w, c)
    decreases |v|
  {
    if v == [] {
      assert v + w == w;
    } else {
      WalkConcat(cs, v[0].to, v[1..], b, w, c);
      assert (v + w)[1..] == v[1..] + w;
    }
  }

  lemma {:induction false} WalkSplit(cs: seq<Connection>, a: NodeId, w: seq<Connection>, b: NodeId, i: nat)
    requires IsWalk(cs, a, w, b) && i < |w|
    ensures w[i] in cs && Sourced(w[i])
    ensures IsWalk(cs, a, w[..i], w[i].from.value)
    ensures IsWalk(cs, w[i].to, w[i + 1..], b)
    decreases i
  {
    if i > 0 {
      WalkSplit(cs, w[0].to, w[1..], b, i - 1);
      assert w[1..][..i - 1] == w[..i][1..];
      assert w[1..][i..] == w[i + 1..];
    }
  }

  lemma LinkIsWalk(cs: seq<Connection>, c: Connection)
    requires c in cs && Sourced(c)
    ensures IsWalk(cs, c.from.value, [c], c.to)
  {
    assert [c][1..] == [];
  }

  lemma ReachesTransitive(cs: seq<Connection>, a: NodeId, b: NodeId, c: NodeId)
    requires Reaches(cs, a, b) && Reaches(cs, b, c)
    ensures Reaches(cs, a, c)
  {
    var v :| IsWalk(cs, a, v, b);
    var w :| IsWalk(cs, b, w, c);
    WalkConcat(cs, a, v, b, w, c);
  }

  lemma LinkReaches(cs: seq<Connection>, a: NodeId, b: NodeId)
    requires Linked(cs, a, b)
    ensures Reaches(cs, a, b)
  {
    var c :| c in cs && Sourced(c) && c.from.value == a && c.to == b;
    LinkIsWalk(cs, c);
  }

  lemma SelfReaches(cs: seq<Connection>, a: NodeId)
    ensures Reaches(cs, a, a)
  {
    assert IsWalk(cs, a, [], a);
  }

  /** A set that the links cannot leave holds everything that is reached from it. */
  ghost predicate ClosedForward(cs: seq<Connection>, S: set<NodeId>) {
    forall x, y :: x in S && Linked(cs, x, y) ==> y in S
  }

  lemma {:induction false} ClosedHoldsWalks(cs: seq<Connection>, S: set<NodeId>, a: NodeId,
                                            w: seq<Connection>, b: NodeId)
    requires ClosedForward(cs, S) && a in S && IsWalk(cs, a, w, b)
    ensures b in S
    decreases |w|
  {
    if w != [] {
      assert Linked(cs, a, w[0].to);
      ClosedHoldsWalks(cs, S, w[0].to, w[1..], b);
    }
  }

  // ----- adjacency lists -----

  /** The targets of x's connections, in the order of the list, repeats kept. */
  function Targets(cs: seq<Connection>, x: NodeId): seq<NodeId> {
    if cs == [] then []
    else
      var c := cs[|cs| - 1];
      Targets(cs[..|cs| - 1], x) + if Sourced(c) && c.from.value == x then [c.to] else []
  }

  /** The sources of the connections into x, in the order of the list, repeats kept. */
  function Sources(cs: seq<Connection>, x: NodeId): seq<NodeId> {
    if cs == [] then []
    else
      var c := cs[|cs| - 1];
      Sources(cs[..|cs| - 1], x) + if Sourced(c) && c.to == x then [c.from.value] else []
  }

  lemma {:induction false} TargetsAreLinks(cs: seq<Connection>, x: NodeId, y: NodeId)
    ensures y in Targets(cs, x) <==> Linked(cs, x, y)
  {
    if cs != [] {
      var rest, c := cs[..|cs| - 1], cs[|cs| - 1];
      TargetsAreLinks(rest, x, y);
      assert forall d :: d in cs <==> d in rest || d == c;
    }
  }

  lemma {:induction false} SourcesAreLinks(cs: seq<Connection>, x: NodeId, y: NodeId)
    ensures y in Sources(cs, x) <==> Linked(cs, y, x)
  {
    if cs != [] {
      var rest, c := cs[..|cs| - 1], cs[|cs| - 1];
      SourcesAreLinks(rest, x, y);
      assert forall d :: d in cs <==> d in rest || d == c;
    }
  }

  type Adjacency = map<NodeId, seq<NodeId>>

  function Get(m: Adjacency, x: NodeId): seq<NodeId> {
    if x in m then m[x] else []
  }

  ghost predicate IsForward(m: Adjacency, cs: seq<Connection>) {
    forall x :: Get(m, x) == Targets(cs, x)
  }

  ghost predicate IsBackward(m: Adjacency, cs: seq<Connection>) {
    forall x :: Get(m, x) == Sources(cs, x)
  }

  lemma ForwardStep(forward: Adjacency, cs: seq<Connection>, c: Connection)
    requires IsForward(forward, cs)
    ensures IsForward(if Sourced(c) then forward[c.from.value := Get(forward, c.from.value) + [c.to]] else forward,
                      cs + [c])
  {
    var more := cs + [c];
    assert more[..|more| - 1] == cs && more[|more| - 1] == c;
    var next := if Sourced(c) then forward[c.from.value := Get(forward, c.from.value) + [c.to]] else forward;
    forall x ensures Get(next, x) == Targets(more, x) {
      assert Get(forward, x) == Targets(cs, x);
      assert Targets(cs, x) + [] == Targets(cs, x);
    }
  }

  lemma BackwardStep(backward: Adjacency, cs: seq<Connection>, c: Connection)
    requires IsBackward(backward, cs)
    ensures IsBackward(if Sourced(c) then backward[c.to := Get(backward, c.to) + [c.from.value]] else backward,
                       cs + [c])
  {
    var more := cs + [c];
    assert more[..|more| - 1] == cs && more[|more| - 1] == c;
    var next := if Sourced(c) then backward[c.to := Get(backward, c.to) + [c.from.value]] else backward;
    forall x ensures Get(next, x) == Sources(more, x) {
      assert Get(backward, x) == Sources(cs, x);
      assert Sources(cs, x) + [] == Sources(cs, x);
    }
  }

  method BuildAdjacency(cs: seq<Connection>) returns (forward: Adjacency, backward: Adjacency)
    ensures IsForward(forward, cs) && IsBackward(backward, cs)
  {
    forward, backward := map[], map[];
    for i := 0 to |cs|
      invariant IsForward(forward, cs[..i]) && IsBackward(backward, cs[..i])
    {
      var c := cs[i];
      ForwardStep(forward, cs[..i], c);
      BackwardStep(backward, cs[..i], c);
      assert cs[..i + 1] == cs[..i] + [c];
      if Sourced(c) {
        var from := c.from.value;
        forward := forward[from := Get(forward, from) + [c.to]];
        backward := backward[c.to := Get(backward, c.to) + [from]];
      }
    }
    assert cs[..|cs|] == cs;
  }

  /** One round of a search: the nodes of a list that it may visit and has not seen, each
      once, in the order of the list. */
  method Visit(nexts: seq<NodeId>, may: NodeId -> bool, seen: set<NodeId>)
    returns (added: seq<NodeId>, visited: set<NodeId>)
    ensures visited == seen + Elements(added)
    ensures forall x :: x in added <==> x in nexts && may(x) && x !in seen
    ensures forall i, j :: 0 <= i < j < |added| ==> added[i] != added[j]
  {
    added, visited := [], seen;
    for j := 0 to |nexts|
      invariant visited == seen + Elements(added)
      invariant forall x :: x in added <==> x in nexts[..j] && may(x) && x !in seen
      invariant forall i, k :: 0 <= i < k < |added| ==> added[i] != added[k]
    {
      if may(nexts[j]) && nexts[j] !in visited {
        visited := visited + {nexts[j]};
        added := added + [nexts[j]];
      }
    }
    assert nexts[..|nexts|] == nexts;
  }

  ghost function Elements(xs: seq<NodeId>): set<NodeId> {
    set x | x in xs
  }

  ghost function Endpoints(cs: seq<Connection>): set<NodeId> {
    (set c | c in cs :: c.to) + (set c | c in cs && Sourced(c) :: c.from.value)
  }

  lemma LinkedEndpoints(cs: seq<Connection>, x: NodeId, y: NodeId)
    requires Linked(cs, x, y)
    ensures x in Endpoints(cs) && y in Endpoints(cs)
  {
  }

  // ----- loop edges -----

  /** The visited nodes are reached from a; those no longer queued have all their links
      into allowed nodes visited. */
  ghost predicate Searching(cs: seq<Connection>, a: NodeId, allowed: NodeId -> bool, visited: set<NodeId>,
                            queue: seq<NodeId>) {
    && a in visited
    && (forall x :: x in queue ==> x in visited)
    && (forall x :: x in visited ==> Reaches(cs, a, x) && (allowed(x) || x == a))
    && (forall x, y :: x in visited && x !in queue && Linked(cs, x, y) && allowed(y) ==> y in visited)
  }

  lemma SearchStep(cs: seq<Connection>, a: NodeId, allowed: NodeId -> bool, visited: set<NodeId>,
                   queue: seq<NodeId>, added: seq<NodeId>)
    requires Searching(cs, a, allowed, visited, queue) && queue != []
    requires forall x :: x in added <==> x in Targets(cs, queue[0]) && allowed(x) && x !in visited
    ensures Searching(cs, a, allowed, visited + Elements(added), queue[1..] + added)
  {
    var current := queue[0];
    assert forall x :: x in queue <==> x == current || x in queue[1..];
    forall x ensures x in Targets(cs, current) <==> Linked(cs, current, x) {
      TargetsAreLinks(cs, current, x);
    }
    forall x | x in added ensures Reaches(cs, a, x) {
      LinkReaches(cs, current, x);
      ReachesTransitive(cs, a, current, x);
    }
  }

  /** The measure of a search: what is left to visit, then what is left to expand. */
  lemma SearchShrinks(universe: set<NodeId>, visited: set<NodeId>, more: set<NodeId>, queue: seq<NodeId>,
                      added: seq<NodeId>)
    requires visited <= more <= universe && queue != []
    requires more == visited + Elements(added)
    requires forall x :: x in added ==> x !in visited
    ensures |universe - more| < |universe - visited| ||
            (|universe - more| == |universe - visited| && |queue[1..] + added| < |queue|)
  {
    if added == [] {
      assert more == visited;
    } else {
      assert added[0] in more && added[0] !in visited;
      SmallerComplement(universe, visited, more);
    }
  }

  /** True exactly when the edge's target leads back to its source. */
  method IsLoopEdge(cs: seq<Connection>, from: Option<NodeId>, to: NodeId) returns (loop: bool)
    ensures loop <==> from.Some? && from.value != "" && Reaches(cs, to, from.value)
  {
    if from.None? || from.value == "" {
      return false;
    }
    var adjacency, _ := BuildAdjacency(cs);
    var visited: set<NodeId> := {to};
    var queue := [to];
    var every := (x: NodeId) => true;
    SelfReaches(cs, to);
    ghost var universe := Endpoints(cs) + {to};
    while |queue| > 0
      invariant Searching(cs, to, every, visited, queue) && visited <= universe
      invariant from.value in visited ==> from.value in queue
      decreases |universe - visited|, |queue|
    {
      var current := queue[0];
      if current == from.value {
        return true;
      }
      var added, more := Visit(Get(adjacency, current), every, visited);
      SearchStep(cs, to, every, visited, queue, added);
      forall x | x in added ensures x in universe {
        TargetsAreLinks(cs, current, x);
        LinkedEndpoints(cs, current, x);
      }
      SearchShrinks(universe, visited, more, queue, added);
      visited, queue := more, queue[1..] + added;
    }
    if Reaches(cs, to, from.value) {
      var w :| IsWalk(cs, to, w, from.value);
      ClosedHoldsWalks(cs, visited, to, w, from.value);
      assert false;
    }
    return false;
  }

  lemma SmallerComplement<T>(U: set<T>, A: set<T>, B: set<T>)
    requires A < B <= U
    ensures |U - B| < |U - A|
  {
    assert B - A != {};
    var x :| x in B - A;
    assert U - B <= U - A - {x};
    SubsetSize(U - B, U - A - {x});
  }

  /** The edge c of cs is a step of some closed walk of cs. */
  ghost predicate OnClosedWalk(cs: seq<Connection>, c: Connection) {
    exists a, w :: IsWalk(cs, a, w, a) && c in w
  }

  ghost predicate LoopEdge(cs: seq<Connection>, c: Connection) {
    Sourced(c) && Reaches(cs, c.to, c.from.value)
  }

  /** "Drawing this edge closes a cycle": what IsLoopEdge answers for an edge of the list. */
  lemma LoopEdgeClosesCycle(cs: seq<Connection>, c: Connection)
    requires c in cs
    ensures LoopEdge(cs, c) <==> OnClosedWalk(cs, c)
  {
    if LoopEdge(cs, c) {
      var w :| IsWalk(cs, c.to, w, c.from.value);
      LinkIsWalk(cs, c);
      WalkConcat(cs, c.from.value, [c], c.to, w, c.from.value);
      assert c in [c] + w;
    }
    if OnClosedWalk(cs, c) {
      var a, w :| IsWalk(cs, a, w, a) && c in w;
      var i :| 0 <= i < |w| && w[i] == c;
      WalkSplit(cs, a, w, a, i);
      WalkConcat(cs, c.to, w[i + 1..], a, w[..i], c.from.value);
    }
  }

  ghost predicate HasCycle(cs: seq<Connection>) {
    exists a, w :: w != [] && IsWalk(cs, a, w, a)
  }

  ghost function WithoutLoops(all: seq<Connection>, cs: seq<Connection>): seq<Connection> {
    if cs == [] then []
    else (if LoopEdge(all, cs[0]) then [] else [cs[0]]) + WithoutLoops(all, cs[1..])
  }

  lemma {:induction false} WithoutLoopsKeeps(all: seq<Connection>, cs: seq<Connection>, c: Connection)
    ensures c in WithoutLoops(all, cs) <==> c in cs && !LoopEdge(all, c)
  {
    if cs != [] {
      WithoutLoopsKeeps(all, cs[1..], c);
    }
  }

  lemma {:induction false} WalkInLarger(cs: seq<Connection>, ds: seq<Connection>, a: NodeId,
                                        w: seq<Connection>, b: NodeId)
    requires IsWalk(cs, a, w, b)
    requires forall c :: c in cs ==> c in ds
    ensures IsWalk(ds, a, w, b)
    decreases |w|
  {
    if w != [] {
      WalkInLarger(cs, ds, w[0].to, w[1..], b);
    }
  }

  /** The loop edges are a feedback edge set: without them no cycle is left. */
  lemma DeletingLoopsBreaksCycles(cs: seq<Connection>)
    ensures !HasCycle(WithoutLoops(cs, cs))
  {
    var ds := WithoutLoops(cs, cs);
    if HasCycle(ds) {
      var a, w: seq<Connection> :| w != [] && IsWalk(ds, a, w, a);
      forall c | c in ds ensures c in cs && !LoopEdge(cs, c) {
        WithoutLoopsKeeps(cs, cs, c);
      }
      WalkInLarger(ds, cs, w[0].to, w[1..], a);
      assert false;
    }
  }

  // ----- the fan-out behind a merge -----

  /** How many of the connections sub leave x for a node that reaches m through cs. */
  ghost function BranchCount(cs: seq<Connection>, sub: seq<Connection>, x: NodeId, m: NodeId): nat {
    if sub == [] then 0
    else
      var c := sub[|sub| - 1];
      BranchCount(cs, sub[..|sub| - 1], x, m) +
      if Sourced(c) && c.from.value == x && Reaches(cs, c.to, m) then 1 else 0
  }

  /** Two or more of x's connections lead on to the merge m. */
  ghost predicate FansOut(cs: seq<Connection>, x: NodeId, m: NodeId) {
    x != m && Reaches(cs, x, m) && BranchCount(cs, cs, x, m) >= 2
  }

  ghost predicate Visits(a: NodeId, w: seq<Connection>, x: NodeId) {
    x == a || exists c :: c in w && c.to == x
  }

  ghost predicate NodeBetween(cs: seq<Connection>, a: NodeId, x: NodeId, m: NodeId) {
    exists w :: IsWalk(cs, a, w, m) && Visits(a, w, x)
  }

  ghost predicate EdgeBetween(cs: seq<Connection>, a: NodeId, c: Connection, m: NodeId) {
    exists w :: IsWalk(cs, a, w, m) && c in w
  }

  lemma NodeBetweenIsReach(cs: seq<Connection>, a: NodeId, x: NodeId, m: NodeId)
    ensures NodeBetween(cs, a, x, m) <==> Reaches(cs, a, x) && Reaches(cs, x, m)
  {
    if NodeBetween(cs, a, x, m) {
      var w: seq<Connection> :| IsWalk(cs, a, w, m) && Visits(a, w, x);
      if x == a {
        SelfReaches(cs, a);
      } else {
        var c: Connection :| c in w && c.to == x;
        var i :| 0 <= i < |w| && w[i] == c;
        WalkSplit(cs, a, w, m, i);
        LinkIsWalk(cs, c);
        WalkConcat(cs, a, w[..i], c.from.value, [c], x);
      }
    }
    if Reaches(cs, a, x) && Reaches(cs, x, m) {
      var v :| IsWalk(cs, a, v, x);
      var w :| IsWalk(cs, x, w, m);
      WalkConcat(cs, a, v, x, w, m);
      if v != [] {
        WalkEndsAtLast(cs, a, v, x);
        assert v[|v| - 1] in v + w;
      }
    }
  }

  lemma {:induction false} WalkEndsAtLast(cs: seq<Connection>, a: NodeId, w: seq<Connection>, b: NodeId)
    requires w != [] && IsWalk(cs, a, w, b)
    ensures w[|w| - 1].to == b
  {
    WalkSplit(cs, a, w, b, |w| - 1);
  }

  lemma EdgeBetweenIsReach(cs: seq<Connection>, a: NodeId, c: Connection, m: NodeId)
    requires c in cs
    ensures EdgeBetween(cs, a, c, m) <==>
            Sourced(c) && Reaches(cs, a, c.from.value) && Reaches(cs, c.to, m)
  {
    if EdgeBetween(cs, a, c, m) {
      var w :| IsWalk(cs, a, w, m) && c in w;
      var i :| 0 <= i < |w| && w[i] == c;
      WalkSplit(cs, a, w, m, i);
    }
    if Sourced(c) && Reaches(cs, a, c.from.value) && Reaches(cs, c.to, m) {
      var v :| IsWalk(cs, a, v, c.from.value);
      var w :| IsWalk(cs, c.to, w, m);
      LinkIsWalk(cs, c);
      WalkConcat(cs, a, v, c.from.value, [c], c.to);
      WalkConcat(cs, a, v + [c], c.to, w, m);
      assert c in v + [c] + w;
    }
  }

  function DirectPreds(cs: seq<Connection>, m: NodeId): seq<Connection> {
    if cs == [] then []
    else
      var c := cs[|cs| - 1];
      DirectPreds(cs[..|cs| - 1], m) + if c.to == m && Sourced(c) then [c] else []
  }

  /** The i-th connection enters m from a source that is neither null nor empty. */
  ghost predicate EntersFromNode(cs: seq<Connection>, i: nat, m: NodeId) {
    i < |cs| && cs[i].to == m && cs[i].from.Some? && |cs[i].from.value| > 0
  }

  lemma {:induction false} SomePred(cs: seq<Connection>, m: NodeId)
    ensures |DirectPreds(cs, m)| > 0 <==> exists i: nat :: EntersFromNode(cs, i, m)
  {
    if cs != [] {
      var n := |cs| - 1;
      SomePred(cs[..n], m);
      assert forall i: nat :: i < n ==> EntersFromNode(cs, i, m) == EntersFromNode(cs[..n], i, m);
      assert EntersFromNode(cs, n, m) <==> cs[n].to == m && Sourced(cs[n]);
    }
  }

  /** Two direct predecessors are two connections of the list, equal or not. */
  lemma {:induction false} TwoPreds(cs: seq<Connection>, m: NodeId)
    ensures |DirectPreds(cs, m)| >= 2 <==> exists i: nat, j: nat :: i < j && EntersFromNode(cs, i, m) && EntersFromNode(cs, j, m)
  {
    if cs != [] {
      var n := |cs| - 1;
      TwoPreds(cs[..n], m);
      SomePred(cs[..n], m);
      assert forall i: nat :: i < n ==> EntersFromNode(cs, i, m) == EntersFromNode(cs[..n], i, m);
      assert EntersFromNode(cs, n, m) <==> cs[n].to == m && Sourced(cs[n]);
      if EntersFromNode(cs, n, m) {
        if i: nat :| EntersFromNode(cs[..n], i, m) {
          assert i < n && EntersFromNode(cs, i, m) && EntersFromNode(cs, n, m);
        }
      }
    }
  }

  ghost predicate Distinct(order: seq<NodeId>) {
    forall i, j :: 0 <= i < j < |order| ==> order[i] != order[j]
  }

  ghost predicate SameNodes(order: seq<NodeId>, dist: map<NodeId, nat>) {
    forall x :: x in order <==> x in dist
  }

  ghost predicate Ordered(order: seq<NodeId>, dist: map<NodeId, nat>) {
    forall i, j :: 0 <= i <= j < |order| ==> At(dist, order[i]) <= At(dist, order[j])
  }

  ghost function At(dist: map<NodeId, nat>, x: NodeId): nat {
    if x in dist then dist[x] else 0
  }

  ghost predicate Attained(cs: seq<Connection>, m: NodeId, dist: map<NodeId, nat>) {
    forall x :: x in dist ==> Within(cs, x, dist[x], m)
  }

  /** The sources of the nodes before k are found, at most one step further out. */
  ghost predicate Expanded(cs: seq<Connection>, order: seq<NodeId>, k: nat, dist: map<NodeId, nat>)
    requires k <= |order|
  {
    forall i, x :: 0 <= i < k && Linked(cs, x, order[i]) ==> x in dist && dist[x] <= At(dist, order[i]) + 1
  }

  /** The state of the backward search from m: the nodes found, in the order found, with a
      distance at which each reaches m; the first k have been expanded. */
  ghost predicate SearchState(cs: seq<Connection>, m: NodeId, order: seq<NodeId>, k: nat, dist: map<NodeId, nat>) {
    && order != [] && order[0] == m && k <= |order|
    && SameNodes(order, dist) && m in order && dist[m] == 0
    && Distinct(order) && Ordered(order, dist) && Attained(cs, m, dist) && Expanded(cs, order, k, dist)
  }

  /** Nothing found so far is more than one step further out than x. */
  ghost predicate AtMostOneBeyond(dist: map<NodeId, nat>, x: NodeId) {
    x in dist && forall y :: y in dist ==> dist[y] <= dist[x] + 1
  }

  /** A finished search has found every node that reaches m, at its shortest distance. */
  lemma {:induction false} SearchIsShortest(cs: seq<Connection>, m: NodeId, order: seq<NodeId>,
                                            dist: map<NodeId, nat>, x: NodeId, w: seq<Connection>)
    requires SearchState(cs, m, order, |order|, dist)
    requires IsWalk(cs, x, w, m)
    ensures x in dist && dist[x] <= |w|
    decreases |w|
  {
    if w == [] {
      assert order[0] in order;
    } else {
      SearchIsShortest(cs, m, order, dist, w[0].to, w[1..]);
      var i :| 0 <= i < |order| && order[i] == w[0].to;
      assert Linked(cs, x, order[i]);
    }
  }

  lemma WithinStep(cs: seq<Connection>, x: NodeId, y: NodeId, n: nat, m: NodeId)
    requires Linked(cs, x, y) && Within(cs, y, n, m)
    ensures Within(cs, x, n + 1, m)
  {
    var c :| c in cs && Sourced(c) && c.from.value == x && c.to == y;
    var w :| IsWalk(cs, y, w, m) && |w| <= n;
    LinkIsWalk(cs, c);
    WalkConcat(cs, x, [c], y, w, m);
  }

  /** The search from m has found m and bfsOrder and expanded the first k of them; the queue
      holds the rest. */
  ghost predicate Frontier(cs: seq<Connection>, m: NodeId, bfsOrder: seq<NodeId>, k: nat, dist: map<NodeId, nat>,
                           seen: set<NodeId>, queue: seq<NodeId>) {
    && SearchState(cs, m, [m] + bfsOrder, k, dist)
    && seen == dist.Keys && queue == ([m] + bfsOrder)[k..] && seen <= Endpoints(cs) + {m}
    && (queue != [] ==> AtMostOneBeyond(dist, queue[0]))
  }

  lemma FrontierStart(cs: seq<Connection>, m: NodeId)
    ensures Frontier(cs, m, [], 0, map[m := 0], {m}, [m])
  {
    assert [m] + [] == [m];
    assert IsWalk(cs, m, [], m);
  }

  /** The sources of x that had not been seen, each once. */
  ghost predicate FoundFrom(cs: seq<Connection>, x: NodeId, seen: set<NodeId>, added: seq<NodeId>, more: set<NodeId>) {
    && Distinct(added) && (forall y :: y in added <==> y in Sources(cs, x) && y !in seen)
    && more == seen + Elements(added)
  }

  lemma FrontierStep(cs: seq<Connection>, m: NodeId, bfsOrder: seq<NodeId>, k: nat, dist: map<NodeId, nat>,
                     seen: set<NodeId>, queue: seq<NodeId>, added: seq<NodeId>, more: set<NodeId>)
    returns (d: map<NodeId, nat>)
    requires Frontier(cs, m, bfsOrder, k, dist, seen, queue) && queue != []
    requires FoundFrom(cs, queue[0], seen, added, more)
    ensures Frontier(cs, m, bfsOrder + added, k + 1, d, more, queue[1..] + added)
    ensures more <= Endpoints(cs) + {m}
  {
    var order := [m] + bfsOrder;
    assert queue[0] == order[k];
    d := dist + map x | x in added :: At(dist, order[k]) + 1;
    ExtendSearch(cs, m, order, k, dist, added, d);
    if k + 1 < |order + added| {
      ExtendBeyond(order, k, dist, added, d);
    }
    UnseenAreEndpoints(cs, order[k], dist, added);
    DropOfAppend(m, bfsOrder, added, k);
  }

  lemma DropOfAppend(x: NodeId, xs: seq<NodeId>, ys: seq<NodeId>, k: nat)
    requires k < 1 + |xs|
    ensures ([x] + xs)[k..][1..] + ys == ([x] + (xs + ys))[k + 1..]
    ensures [x] + xs + ys == [x] + (xs + ys)
  {
  }

  lemma FrontierDone(cs: seq<Connection>, m: NodeId, bfsOrder: seq<NodeId>, k: nat, dist: map<NodeId, nat>,
                     seen: set<NodeId>)
    requires Frontier(cs, m, bfsOrder, k, dist, seen, [])
    ensures SearchState(cs, m, [m] + bfsOrder, 1 + |bfsOrder|, dist)
    ensures forall x :: x in seen <==> Reaches(cs, x, m)
    ensures forall x :: x in bfsOrder <==> x != m && Reaches(cs, x, m)
  {
    assert |([m] + bfsOrder)[k..]| == 1 + |bfsOrder| - k;
    SearchIsComplete(cs, m, bfsOrder, dist);
  }

  /** The backward search: every node that reaches m, nearest first (m itself not listed). */
  method Ancestors(cs: seq<Connection>, backward: Adjacency, m: NodeId)
    returns (bfsOrder: seq<NodeId>, seen: set<NodeId>, ghost dist: map<NodeId, nat>)
    requires IsBackward(backward, cs)
    ensures SearchState(cs, m, [m] + bfsOrder, 1 + |bfsOrder|, dist)
    ensures forall x :: x in seen <==> Reaches(cs, x, m)
    ensures forall x :: x in bfsOrder <==> x != m && Reaches(cs, x, m)
  {
    seen, bfsOrder := {m}, [];
    var queue := [m];
    dist := map[m := 0];
    ghost var k := 0;
    FrontierStart(cs, m);
    while |queue| > 0
      invariant Frontier(cs, m, bfsOrder, k, dist, seen, queue)
      decreases |Endpoints(cs) + {m} - seen|, |queue|
    {
      var added, more := Visit(Get(backward, queue[0]), x => true, seen);
      assert FoundFrom(cs, queue[0], seen, added, more);
      dist := FrontierStep(cs, m, bfsOrder, k, dist, seen, queue, added, more);
      SearchShrinks(Endpoints(cs) + {m}, seen, more, queue, added);
      seen, bfsOrder, queue := more, bfsOrder + added, queue[1..] + added;
      k := k + 1;
    }
    assert queue == [];
    FrontierDone(cs, m, bfsOrder, k, dist, seen);
  }

  lemma UnseenAreEndpoints(cs: seq<Connection>, x: NodeId, dist: map<NodeId, nat>, added: seq<NodeId>)
    requires Unseen(cs, x, dist, added)
    ensures Elements(added) <= Endpoints(cs)
  {
    forall y | y in added ensures y in Endpoints(cs) {
      SourcesAreLinks(cs, x, y);
      LinkedEndpoints(cs, y, x);
    }
  }

  /** What expanding the node x adds to a search: its unseen sources, each once. */
  ghost predicate Unseen(cs: seq<Connection>, x: NodeId, dist: map<NodeId, nat>, added: seq<NodeId>) {
    Distinct(added) && forall y :: y in added <==> y in Sources(cs, x) && y !in dist
  }

  /** d is dist with the added nodes at distance n. */
  ghost predicate Extends(dist: map<NodeId, nat>, added: seq<NodeId>, n: nat, d: map<NodeId, nat>) {
    && (forall x :: x in d <==> x in dist || x in added)
    && (forall x :: x in dist ==> d[x] == dist[x])
    && (forall x :: x in added ==> x !in dist && d[x] == n)
  }

  /** Expanding the node at the head of the queue keeps the search in order: what it adds
      is one step further out than the node, and nothing found so far is further than that. */
  lemma ExtendSearch(cs: seq<Connection>, m: NodeId, order: seq<NodeId>, k: nat, dist: map<NodeId, nat>,
                     added: seq<NodeId>, d: map<NodeId, nat>)
    requires SearchState(cs, m, order, k, dist) && k < |order| && AtMostOneBeyond(dist, order[k])
    requires Unseen(cs, order[k], dist, added) && Extends(dist, added, At(dist, order[k]) + 1, d)
    ensures SearchState(cs, m, order + added, k + 1, d)
  {
    var n := At(dist, order[k]) + 1;
    ExtendNodes(order, dist, added, n, d);
    ExtendOrdered(order, dist, added, n, d);
    ExtendAttained(cs, m, order[k], dist, added, d);
    ExtendExpanded(cs, order, k, dist, added, d);
  }

  lemma ExtendBeyond(order: seq<NodeId>, k: nat, dist: map<NodeId, nat>, added: seq<NodeId>, d: map<NodeId, nat>)
    requires k < |order| && AtMostOneBeyond(dist, order[k]) && k + 1 < |order + added|
    requires Extends(dist, added, At(dist, order[k]) + 1, d)
    requires SameNodes(order + added, d) && Ordered(order + added, d)
    ensures AtMostOneBeyond(d, (order + added)[k + 1])
  {
    var more := order + added;
    assert more[k] == order[k] && more[k + 1] in more;
    assert At(d, more[k]) <= At(d, more[k + 1]);
  }

  lemma ExtendNodes(order: seq<NodeId>, dist: map<NodeId, nat>, added: seq<NodeId>, n: nat, d: map<NodeId, nat>)
    requires SameNodes(order, dist) && Distinct(order) && Distinct(added) && Extends(dist, added, n, d)
    ensures SameNodes(order + added, d) && Distinct(order + added)
  {
    var more := order + added;
    forall i, j | 0 <= i < j < |more| ensures more[i] != more[j] {
      if i < |order| <= j {
        assert more[i] in order && more[j] in added;
      }
    }
  }

  lemma ExtendOrdered(order: seq<NodeId>, dist: map<NodeId, nat>, added: seq<NodeId>, n: nat, d: map<NodeId, nat>)
    requires SameNodes(order, dist) && Ordered(order, dist) && Extends(dist, added, n, d)
    requires forall x :: x in dist ==> dist[x] <= n
    ensures Ordered(order + added, d)
  {
    var more := order + added;
    forall i, j | 0 <= i <= j < |more| ensures At(d, more[i]) <= At(d, more[j]) {
      assert i < |order| ==> more[i] in order;
      assert i >= |order| ==> more[i] in added;
      assert j < |order| ==> more[j] in order;
      assert j >= |order| ==> more[j] in added;
    }
  }

  lemma ExtendAttained(cs: seq<Connection>, m: NodeId, x: NodeId, dist: map<NodeId, nat>, added: seq<NodeId>,
                       d: map<NodeId, nat>)
    requires Attained(cs, m, dist) && x in dist && Unseen(cs, x, dist, added)
    requires Extends(dist, added, dist[x] + 1, d)
    ensures Attained(cs, m, d)
  {
    forall y | y in added ensures Within(cs, y, dist[x] + 1, m) {
      SourcesAreLinks(cs, x, y);
      WithinStep(cs, y, x, dist[x], m);
    }
  }

  lemma ExtendExpanded(cs: seq<Connection>, order: seq<NodeId>, k: nat, dist: map<NodeId, nat>, added: seq<NodeId>,
                       d: map<NodeId, nat>)
    requires k < |order| && SameNodes(order, dist) && Expanded(cs, order, k, dist)
    requires AtMostOneBeyond(dist, order[k]) && Unseen(cs, order[k], dist, added)
    requires Extends(dist, added, At(dist, order[k]) + 1, d)
    ensures Expanded(cs, order + added, k + 1, d)
  {
    var more := order + added;
    forall i, x | 0 <= i < k + 1 && Linked(cs, x, more[i]) ensures x in d && d[x] <= At(d, more[i]) + 1 {
      assert more[i] == order[i] && order[i] in order;
      if i == k {
        SourcesAreLinks(cs, order[k], x);
        assert x in dist || x in added;
      } else {
        assert x in dist && dist[x] <= At(dist, order[i]) + 1;
      }
    }
  }

  lemma SearchIsComplete(cs: seq<Connection>, m: NodeId, bfsOrder: seq<NodeId>, dist: map<NodeId, nat>)
    requires SearchState(cs, m, [m] + bfsOrder, 1 + |bfsOrder|, dist)
    ensures forall x :: x in dist <==> Reaches(cs, x, m)
    ensures forall x :: x in bfsOrder <==> x != m && Reaches(cs, x, m)
  {
    var order := [m] + bfsOrder;
    forall x ensures x in dist <==> Reaches(cs, x, m) {
      if Reaches(cs, x, m) {
        var w :| IsWalk(cs, x, w, m);
        SearchIsShortest(cs, m, order, dist, x, w);
      }
      if x in dist {
        assert Within(cs, x, dist[x], m);
      }
    }
    forall x ensures x in bfsOrder <==> x != m && Reaches(cs, x, m) {
      if x in bfsOrder {
        var i :| 0 <= i < |bfsOrder| && bfsOrder[i] == x;
        assert order[i + 1] == x && order[0] == m;
      }
      assert x in order <==> x == m || x in bfsOrder;
    }
  }

  function CountIn(xs: seq<NodeId>, S: set<NodeId>): nat {
    if xs == [] then 0
    else CountIn(xs[..|xs| - 1], S) + if xs[|xs| - 1] in S then 1 else 0
  }

  lemma CountInAppend(xs: seq<NodeId>, x: NodeId, S: set<NodeId>)
    ensures CountIn(xs + [x], S) == CountIn(xs, S) + if x in S then 1 else 0
    ensures xs + [] == xs
  {
    assert (xs + [x])[..|xs|] == xs;
  }

  lemma {:induction false} CountInIsBranchCount(cs: seq<Connection>, sub: seq<Connection>, x: NodeId, m: NodeId,
                                                S: set<NodeId>)
    requires forall y :: y in S <==> Reaches(cs, y, m)
    ensures CountIn(Targets(sub, x), S) == BranchCount(cs, sub, x, m)
  {
    if sub != [] {
      CountInIsBranchCount(cs, sub[..|sub| - 1], x, m, S);
      CountInAppend(Targets(sub[..|sub| - 1], x), sub[|sub| - 1].to, S);
    }
  }

  method FilterIn(xs: seq<NodeId>, S: set<NodeId>) returns (count: nat)
    ensures count == CountIn(xs, S)
  {
    count := 0;
    for i := 0 to |xs|
      invariant count == CountIn(xs[..i], S)
    {
      assert xs[..i + 1][..i] == xs[..i];
      if xs[i] in S {
        count := count + 1;
      }
    }
    assert xs[..|xs|] == xs;
  }

  /** Everything reached from a without leaving the set of nodes that reach m. */
  method Descendants(cs: seq<Connection>, forward: Adjacency, reachSet: set<NodeId>, a: NodeId, m: NodeId)
    returns (nodeIds: set<NodeId>)
    requires IsForward(forward, cs)
    requires forall x :: x in reachSet <==> Reaches(cs, x, m)
    requires a in reachSet
    ensures forall x :: x in nodeIds <==> Reaches(cs, a, x) && Reaches(cs, x, m)
  {
    nodeIds := {a};
    var fq := [a];
    var inReach := (x: NodeId) => x in reachSet;
    SelfReaches(cs, a);
    while |fq| > 0
      invariant Searching(cs, a, inReach, nodeIds, fq) && nodeIds <= reachSet
      decreases |reachSet - nodeIds|, |fq|
    {
      var added, more := Visit(Get(forward, fq[0]), inReach, nodeIds);
      SearchStep(cs, a, inReach, nodeIds, fq, added);
      SearchShrinks(reachSet, nodeIds, more, fq, added);
      nodeIds, fq := more, fq[1..] + added;
    }
    forall x | Reaches(cs, a, x) && Reaches(cs, x, m) ensures x in nodeIds {
      var w :| IsWalk(cs, a, w, x);
      RestrictedClosure(cs, nodeIds, m, a, w, x);
    }
  }

  /** Restricting the search to the nodes that reach m loses nothing: every node on the way
      to one of them is one of them. */
  lemma {:induction false} RestrictedClosure(cs: seq<Connection>, S: set<NodeId>, m: NodeId, a: NodeId,
                                             w: seq<Connection>, x: NodeId)
    requires forall y, z :: y in S && Linked(cs, y, z) && Reaches(cs, z, m) ==> z in S
    requires a in S && IsWalk(cs, a, w, x) && Reaches(cs, x, m)
    ensures x in S
    decreases |w|
  {
    if w != [] {
      var next := w[0].to;
      assert Linked(cs, a, next);
      assert Reaches(cs, next, x);
      ReachesTransitive(cs, next, x, m);
      RestrictedClosure(cs, S, m, next, w[1..], x);
    }
  }

  datatype MergeFanOut = MergeFanOut(ancestorId: NodeId, branchCount: nat,
                                     nodeIds: set<NodeId>, edgeIds: set<string>)

  /** No node where branches towards m come apart is nearer to m than a. */
  ghost predicate Nearest(cs: seq<Connection>, a: NodeId, m: NodeId) {
    forall x, n: nat :: FansOut(cs, x, m) && Within(cs, x, n, m) ==> Within(cs, a, n, m)
  }

  /** The scan of the ancestors in search order, up to the first where branches come apart. */
  method FirstFanOut(cs: seq<Connection>, forward: Adjacency, m: NodeId, bfsOrder: seq<NodeId>, reachSet: set<NodeId>)
    returns (i: nat, branchCount: nat)
    requires IsForward(forward, cs)
    requires forall x :: x in reachSet <==> Reaches(cs, x, m)
    requires forall x :: x in bfsOrder ==> x != m && Reaches(cs, x, m)
    ensures i <= |bfsOrder|
    ensures forall j :: 0 <= j < i ==> !FansOut(cs, bfsOrder[j], m)
    ensures i < |bfsOrder| ==>
              FansOut(cs, bfsOrder[i], m) && branchCount == BranchCount(cs, cs, bfsOrder[i], m)
  {
    i, branchCount := 0, 0;
    while i < |bfsOrder|
      invariant i <= |bfsOrder|
      invariant forall j :: 0 <= j < i ==> !FansOut(cs, bfsOrder[j], m)
    {
      branchCount := FilterIn(Get(forward, bfsOrder[i]), reachSet);
      CountInIsBranchCount(cs, cs, bfsOrder[i], m, reachSet);
      assert bfsOrder[i] in bfsOrder;
      if branchCount >= 2 {
        return;
      }
      i := i + 1;
    }
  }

  lemma EdgesWithin(cs: seq<Connection>, a: NodeId, m: NodeId, nodeIds: set<NodeId>, c: Connection)
    requires c in cs && forall x :: x in nodeIds <==> Reaches(cs, a, x) && Reaches(cs, x, m)
    ensures EdgeBetween(cs, a, c, m) <==> Sourced(c) && c.from.value in nodeIds && c.to in nodeIds
  {
    EdgeBetweenIsReach(cs, a, c, m);
    if Sourced(c) {
      assert Linked(cs, c.from.value, c.to);
      LinkReaches(cs, c.from.value, c.to);
      if Reaches(cs, a, c.from.value) {
        ReachesTransitive(cs, a, c.from.value, c.to);
      }
      if Reaches(cs, c.to, m) {
        ReachesTransitive(cs, c.from.value, c.to, m);
      }
    }
  }

  /** What is promised about a fan-out: its ancestor is a nearest one, its nodes and edges
      are exactly those that lie on some walk from the ancestor to the merge. */
  ghost predicate IsMergeFanOut(cs: seq<Connection>, m: NodeId, r: MergeFanOut) {
    && FansOut(cs, r.ancestorId, m) && Nearest(cs, r.ancestorId, m)
    && r.branchCount == BranchCount(cs, cs, r.ancestorId, m)
    && (forall x :: x in r.nodeIds <==> NodeBetween(cs, r.ancestorId, x, m))
    && (forall e :: e in r.edgeIds <==> exists c :: c in cs && c.id == e && EdgeBetween(cs, r.ancestorId, c, m))
  }

  method FindMergeFanOut(cs: seq<Connection>, m: NodeId) returns (r: Option<MergeFanOut>)
    ensures r.None? <==> |DirectPreds(cs, m)| < 2 || forall x :: !FansOut(cs, x, m)
    ensures r.Some? ==> IsMergeFanOut(cs, m, r.value)
  {
    if |DirectPreds(cs, m)| < 2 {
      return None;
    }
    var forward, backward := BuildAdjacency(cs);
    var bfsOrder, reachSet, dist := Ancestors(cs, backward, m);
    var i, branchCount := FirstFanOut(cs, forward, m, bfsOrder, reachSet);
    if i == |bfsOrder| {
      assert forall x :: FansOut(cs, x, m) ==> x in bfsOrder;
      return None;
    }
    var a := bfsOrder[i];
    assert a in bfsOrder;
    FirstIsNearest(cs, m, bfsOrder, i, dist);
    var nodeIds := Descendants(cs, forward, reachSet, a, m);
    forall x ensures x in nodeIds <==> NodeBetween(cs, a, x, m) {
      NodeBetweenIsReach(cs, a, x, m);
    }
    var edgeIds := set c | c in cs && Sourced(c) && c.from.value in nodeIds && c.to in nodeIds :: c.id;
    forall c | c in cs
      ensures EdgeBetween(cs, a, c, m) <==> Sourced(c) && c.from.value in nodeIds && c.to in nodeIds
    {
      EdgesWithin(cs, a, m, nodeIds, c);
    }
    return Some(MergeFanOut(a, branchCount, nodeIds, edgeIds));
  }

  /** The first fan-out in the order of the search is a nearest one. */
  lemma FirstIsNearest(cs: seq<Connection>, m: NodeId, bfsOrder: seq<NodeId>, k: nat, dist: map<NodeId, nat>)
    requires SearchState(cs, m, [m] + bfsOrder, 1 + |bfsOrder|, dist)
    requires forall x :: x in bfsOrder <==> x != m && Reaches(cs, x, m)
    requires k < |bfsOrder| && forall j :: 0 <= j < k ==> !FansOut(cs, bfsOrder[j], m)
    ensures Nearest(cs, bfsOrder[k], m)
  {
    forall x, n: nat | FansOut(cs, x, m) && Within(cs, x, n, m) ensures Within(cs, bfsOrder[k], n, m) {
      var i := LaterFanOut(cs, m, bfsOrder, k, x);
      var w :| IsWalk(cs, x, w, m) && |w| <= n;
      EarlierIsNearer(cs, m, bfsOrder, k, i, dist, w);
    }
  }

  lemma LaterFanOut(cs: seq<Connection>, m: NodeId, bfsOrder: seq<NodeId>, k: nat, x: NodeId) returns (i: nat)
    requires forall y :: y in bfsOrder <==> y != m && Reaches(cs, y, m)
    requires k < |bfsOrder| && forall j :: 0 <= j < k ==> !FansOut(cs, bfsOrder[j], m)
    requires FansOut(cs, x, m)
    ensures k <= i < |bfsOrder| && bfsOrder[i] == x
  {
    assert x in bfsOrder;
    i :| 0 <= i < |bfsOrder| && bfsOrder[i] == x;
  }

  lemma EarlierIsNearer(cs: seq<Connection>, m: NodeId, bfsOrder: seq<NodeId>, k: nat, i: nat, dist: map<NodeId, nat>,
                        w: seq<Connection>)
    requires SearchState(cs, m, [m] + bfsOrder, 1 + |bfsOrder|, dist)
    requires k <= i < |bfsOrder| && IsWalk(cs, bfsOrder[i], w, m)
    ensures Within(cs, bfsOrder[k], |w|, m)
  {
    SearchIsShortest(cs, m, [m] + bfsOrder, dist, bfsOrder[i], w);
    OrderedTail(m, bfsOrder, dist, k, i);
    AttainedWithin(cs, m, dist, bfsOrder[k], |w|);
  }

  lemma OrderedTail(m: NodeId, bfsOrder: seq<NodeId>, dist: map<NodeId, nat>, k: nat, i: nat)
    requires Ordered([m] + bfsOrder, dist) && SameNodes([m] + bfsOrder, dist) && k <= i < |bfsOrder|
    ensures bfsOrder[k] in dist && dist[bfsOrder[k]] <= At(dist, bfsOrder[i])
  {
    var order := [m] + bfsOrder;
    assert order[k + 1] == bfsOrder[k] && order[i + 1] == bfsOrder[i];
    assert order[k + 1] in order;
  }

  lemma AttainedWithin(cs: seq<Connection>, m: NodeId, dist: map<NodeId, nat>, x: NodeId, n: nat)
    requires Attained(cs, m, dist) && x in dist && dist[x] <= n
    ensures Within(cs, x, n, m)
  {
    var w :| IsWalk(cs, x, w, m) && |w| <= dist[x];
  }
}
