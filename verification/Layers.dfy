/**
 The column layout of the pipelines page: Kahn's algorithm assigning each node the length of
 the longest path that ends at it.
 */
module Layers {
  import opened Sorting

  type Node = string
  datatype Edge = Edge(source: Node, target: Node)

  /** One component to lay out. Edges may repeat, loop on a node, or leave the component. */
  datatype Graph = Graph(ids: seq<Node>, edges: seq<Edge>)

  // ---------------------------------------------------------------------------------------
  // What the layout means
  // ---------------------------------------------------------------------------------------

  /** The edges the layout uses: inside the component, and not a self-loop. */
  predicate Live(g: Graph, e: Edge) {
    e.source in g.ids && e.target in g.ids && e.source != e.target
  }

  predicate Arc(g: Graph, u: Node, v: Node) {
    Edge(u, v) in g.edges && Live(g, Edge(u, v))
  }

  ghost predicate IsPath(g: Graph, p: seq<Node>) {
    && p != []
    && p[0] in g.ids
    && forall i :: 0 < i < |p| ==> Arc(g, p[i - 1], p[i])
  }

  ghost predicate PathTo(g: Graph, p: seq<Node>, n: Node) {
    IsPath(g, p) && p[|p| - 1] == n
  }

  ghost predicate OnCycle(g: Graph, n: Node) {
    exists p :: PathTo(g, p, n) && |p| > 1 && p[0] == n
  }

  /** No path into n starts on a cycle. */
  ghost predicate Grounded(g: Graph, n: Node) {
    forall p :: PathTo(g, p, n) ==> !OnCycle(g, p[0])
  }

  ghost function GroundedNodes(g: Graph): set<Node> {
    set u | u in g.ids && Grounded(g, u)
  }

  ghost predicate Acyclic(g: Graph) {
    forall n :: n in g.ids ==> !OnCycle(g, n)
  }

  /** Some path of length k ends at n, and none is longer. */
  ghost predicate LongestPathTo(g: Graph, n: Node, k: nat) {
    && (exists p :: PathTo(g, p, n) && |p| - 1 == k)
    && forall p :: PathTo(g, p, n) ==> |p| - 1 <= k
  }

  /** n is one column right of the rightmost of its predecessors in `done`, or in column 0. */
  ghost predicate OneAfter(g: Graph, layer: map<Node, nat>, done: set<Node>, n: Node)
    requires n in layer && done <= layer.Keys
  {
    && (forall u :: u in done && Arc(g, u, n) ==> layer[u] < layer[n])
    && (layer[n] == 0 || exists u :: u in done && Arc(g, u, n) && layer[n] == layer[u] + 1)
  }

  /** The state the loop ends in: `done` are the dequeued nodes. */
  ghost predicate Settled(g: Graph, layer: map<Node, nat>, done: set<Node>) {
    && layer.Keys == (set n | n in g.ids)
    && done <= layer.Keys
    && (forall n {:trigger OneAfter(g, layer, done, n)} :: n in layer ==> OneAfter(g, layer, done, n))
    && (forall u, v :: v in done && Arc(g, u, v) ==> u in done)
    && (forall n {:trigger Waits(g, done, n)} :: n in layer && n !in done ==> Waits(g, done, n))
  }

  /** Some predecessor of n is not dequeued. */
  ghost predicate Waits(g: Graph, done: set<Node>, n: Node) {
    exists u :: u !in done && Arc(g, u, n)
  }

  // ---------------------------------------------------------------------------------------
  // A settled layout is exact
  // ---------------------------------------------------------------------------------------

  lemma PathStaysInside(g: Graph, p: seq<Node>, i: nat)
    requires IsPath(g, p) && i < |p|
    ensures p[i] in g.ids
  {
    if i > 0 {
      assert Arc(g, p[i - 1], p[i]);
    }
  }

  lemma PrefixIsPath(g: Graph, p: seq<Node>, k: nat)
    requires IsPath(g, p) && 0 < k <= |p|
    ensures IsPath(g, p[..k])
  {
  }

  lemma PrependIsPath(g: Graph, u: Node, p: seq<Node>)
    requires IsPath(g, p) && Arc(g, u, p[0])
    ensures PathTo(g, [u] + p, p[|p| - 1])
  {
  }

  lemma AppendIsPath(g: Graph, p: seq<Node>, v: Node)
    requires IsPath(g, p) && Arc(g, p[|p| - 1], v)
    ensures PathTo(g, p + [v], v)
  {
  }

  /** A path into a dequeued node is made of dequeued nodes and climbs one column at least a step. */
  lemma {:induction false} PathsClimb(g: Graph, layer: map<Node, nat>, done: set<Node>, p: seq<Node>)
    requires Settled(g, layer, done)
    requires IsPath(g, p) && p[|p| - 1] in done
    ensures p[0] in done
    ensures layer[p[0]] + |p| - 1 <= layer[p[|p| - 1]]
  {
    if |p| > 1 {
      assert Arc(g, p[|p| - 2], p[|p| - 1]);
      PrefixIsPath(g, p, |p| - 1);
      PathsClimb(g, layer, done, p[..|p| - 1]);
      assert OneAfter(g, layer, done, p[|p| - 1]);
    }
  }

  /** The column of a dequeued node is reached by a path of that length. */
  lemma {:induction false} ColumnHasPath(g: Graph, layer: map<Node, nat>, done: set<Node>, n: Node)
      returns (p: seq<Node>)
    requires Settled(g, layer, done) && n in done
    ensures PathTo(g, p, n) && |p| - 1 == layer[n]
    decreases layer[n]
  {
    assert OneAfter(g, layer, done, n);
    if layer[n] == 0 {
      p := [n];
    } else {
      var u :| u in done && Arc(g, u, n) && layer[n] == layer[u] + 1;
      var q := ColumnHasPath(g, layer, done, u);
      AppendIsPath(g, q, n);
      p := q + [n];
    }
  }

  /** Stepping back from the head of a path to a node already on it closes a cycle. */
  lemma ClosesCycle(g: Graph, u: Node, p: seq<Node>)
    requires IsPath(g, p) && Arc(g, u, p[0]) && u in p
    ensures OnCycle(g, u)
  {
    var k :| 0 <= k < |p| && p[k] == u;
    PrefixIsPath(g, p, k + 1);
    PrependIsPath(g, u, p[..k + 1]);
    assert PathTo(g, [u] + p[..k + 1], u);
  }

  /** A node that is not dequeued has a cycle upstream: walking back through such nodes must repeat one. */
  lemma {:induction false} WalkBack(g: Graph, layer: map<Node, nat>, done: set<Node>, p: seq<Node>, n: Node)
      returns (q: seq<Node>)
    requires Settled(g, layer, done)
    requires PathTo(g, p, n) && p[0] !in done && Distinct(p)
    ensures PathTo(g, q, n) && OnCycle(g, q[0])
    decreases |g.ids| - |p|
  {
    var u := UndoneBefore(g, layer, done, p[0]);
    StepBack(g, p, n, u);
    q := [u] + p;
    if u !in p {
      q := WalkBack(g, layer, done, q, n);
    }
  }

  /** One step back along an edge either closes a cycle or lengthens a path without repetition. */
  lemma StepBack(g: Graph, p: seq<Node>, n: Node, u: Node)
    requires PathTo(g, p, n) && Distinct(p) && Arc(g, u, p[0])
    ensures PathTo(g, [u] + p, n)
    ensures u in p ==> OnCycle(g, u)
    ensures u !in p ==> Distinct([u] + p) && |p| < |g.ids|
  {
    PrependIsPath(g, u, p);
    if u in p {
      ClosesCycle(g, u, p);
    } else {
      assert Distinct([u] + p);
      DistinctFit(g, [u] + p);
    }
  }

  lemma UndoneBefore(g: Graph, layer: map<Node, nat>, done: set<Node>, n: Node) returns (u: Node)
    requires Settled(g, layer, done)
    requires n in g.ids && n !in done
    ensures u !in done && Arc(g, u, n)
  {
    assert Waits(g, done, n);
    u :| u !in done && Arc(g, u, n);
  }

  /** A path without repetition is no longer than the list of nodes. */
  lemma DistinctFit(g: Graph, p: seq<Node>)
    requires IsPath(g, p)
    requires Distinct(p)
    ensures |p| <= |g.ids|
  {
    forall i | 0 <= i < |p|
      ensures p[i] in g.ids
    {
      PathStaysInside(g, p, i);
    }
    DistinctCount(p, g.ids);
  }

  lemma {:induction false} DistinctCount(p: seq<Node>, ids: seq<Node>)
    requires forall i :: 0 <= i < |p| ==> p[i] in ids
    requires Distinct(p)
    ensures |p| <= |ids|
  {
    if p != [] {
      var k :| 0 <= k < |ids| && ids[k] == p[0];
      var rest := ids[..k] + ids[k + 1..];
      forall i | 0 <= i < |p[1..]|
        ensures p[1..][i] in rest
      {
        var x := p[i + 1];
        var j :| 0 <= j < |ids| && ids[j] == x;
        assert rest[if j < k then j else j - 1] == x;
      }
      DistinctCount(p[1..], rest);
    }
  }

  /** A node is dequeued exactly when no cycle lies upstream of it. */
  lemma DequeuedIffGrounded(g: Graph, layer: map<Node, nat>, done: set<Node>, n: Node)
    requires Settled(g, layer, done) && n in g.ids
    ensures n in done <==> Grounded(g, n)
  {
    if n in done {
      forall p | PathTo(g, p, n)
        ensures !OnCycle(g, p[0])
      {
        PathsClimb(g, layer, done, p);
        if OnCycle(g, p[0]) {
          var c :| PathTo(g, c, p[0]) && |c| > 1 && c[0] == p[0];
          PathsClimb(g, layer, done, c);
          assert false;
        }
      }
    } else {
      var q := WalkBack(g, layer, done, [n], n);
    }
  }

  /**
   The layout of any graph: a node with no cycle upstream gets the length of the longest path
   ending at it; any other gets one column after its rightmost predecessor with no cycle
   upstream, and column 0 if it has none.
   */
  ghost predicate ExactLayout(g: Graph, layer: map<Node, nat>) {
    && layer.Keys == (set n | n in g.ids)
    && (forall n :: n in g.ids && Grounded(g, n) ==> LongestPathTo(g, n, layer[n]))
    && (forall n {:trigger OneAfter(g, layer, GroundedNodes(g), n)} :: n in g.ids && !Grounded(g, n) ==>
          OneAfter(g, layer, GroundedNodes(g), n))
  }

  /** Whatever order the queue was served in, the state the loop ends in is the exact layout. */
  lemma SettledIsExact(g: Graph, layer: map<Node, nat>, done: set<Node>)
    requires Settled(g, layer, done)
    ensures ExactLayout(g, layer)
  {
    forall n | n in g.ids
      ensures n in done <==> Grounded(g, n)
    {
      DequeuedIffGrounded(g, layer, done, n);
    }
    assert done == GroundedNodes(g);
    forall n | n in g.ids && Grounded(g, n)
      ensures LongestPathTo(g, n, layer[n])
    {
      var p := ColumnHasPath(g, layer, done, n);
      forall q | PathTo(g, q, n)
        ensures |q| - 1 <= layer[n]
      {
        PathsClimb(g, layer, done, q);
      }
    }
  }

  lemma LongestPathsClimb(g: Graph, u: Node, v: Node, ku: nat, kv: nat)
    requires LongestPathTo(g, u, ku) && LongestPathTo(g, v, kv) && Arc(g, u, v)
    ensures ku < kv
  {
    var p :| PathTo(g, p, u) && |p| - 1 == ku;
    AppendIsPath(g, p, v);
    assert |p + [v]| - 1 <= kv;
  }

  /** On an acyclic component every column is a longest-path length and every edge goes right. */
  lemma AcyclicLayout(g: Graph, layer: map<Node, nat>)
    requires ExactLayout(g, layer) && Acyclic(g)
    ensures forall n :: n in g.ids ==> LongestPathTo(g, n, layer[n])
    ensures forall u, v :: Arc(g, u, v) ==> layer[u] < layer[v]
  {
    forall n | n in g.ids
      ensures Grounded(g, n)
    {
    }
    forall u, v | Arc(g, u, v)
      ensures layer[u] < layer[v]
    {
      LongestPathsClimb(g, u, v, layer[u], layer[v]);
    }
  }

  /**
   The code's comment says a node inside a cycle keeps column 0. It does exactly when every
   edge into it comes from a node that itself has a cycle upstream.
   */
  lemma CycleNodeColumn(g: Graph, layer: map<Node, nat>, n: Node)
    requires ExactLayout(g, layer) && n in g.ids && OnCycle(g, n)
    ensures layer[n] == 0 <==> forall u :: Arc(g, u, n) ==> !Grounded(g, u)
  {
    var done := GroundedNodes(g);
    assert PathTo(g, [n], n);
    assert !Grounded(g, n);
    assert OneAfter(g, layer, done, n);
    if u :| Arc(g, u, n) && Grounded(g, u) {
      assert u in done;
    }
  }

  lemma PathEndsWithArc(g: Graph, p: seq<Node>, n: Node)
    requires PathTo(g, p, n) && |p| > 1
    ensures exists u :: Arc(g, u, n)
  {
    assert Arc(g, p[|p| - 2], p[|p| - 1]);
  }

  /** A node without incoming edges has no cycle upstream. */
  lemma SourceIsGrounded(g: Graph, n: Node)
    requires n in g.ids && forall u :: !Arc(g, u, n)
    ensures Grounded(g, n)
  {
    forall p | PathTo(g, p, n) && |p| > 1
      ensures false
    {
      PathEndsWithArc(g, p, n);
    }
  }

  /** The component x -> a <-> b. */
  function EntryAndCycle(x: Node, a: Node, b: Node): Graph {
    Graph([x, a, b], [Edge(x, a), Edge(a, b), Edge(b, a)])
  }

  lemma EntryArcs(x: Node, a: Node, b: Node)
    requires x != a && x != b && a != b
    ensures var g := EntryAndCycle(x, a, b);
      Arc(g, x, a) && Arc(g, a, b) && Arc(g, b, a) && x in g.ids && a in g.ids && forall u :: !Arc(g, u, x)
  {
  }

  /** The comment is wrong of x -> a <-> b: the cycle node a is not laid out in column 0. */
  lemma CycleNodeCanMove(x: Node, a: Node, b: Node, layer: map<Node, nat>)
    requires x != a && x != b && a != b
    requires ExactLayout(EntryAndCycle(x, a, b), layer)
    ensures OnCycle(EntryAndCycle(x, a, b), a)
    ensures a in layer && layer[a] > 0
  {
    hide EntryAndCycle, ExactLayout, Arc, Grounded;
    var g := EntryAndCycle(x, a, b);
    EntryArcs(x, a, b);
    LayoutCovers(g, layer);
    assert PathTo(g, [a, b, a], a);
    SourceIsGrounded(g, x);
    CycleNodeColumn(g, layer, a);
  }

  lemma LayoutCovers(g: Graph, layer: map<Node, nat>)
    requires ExactLayout(g, layer)
    ensures layer.Keys == (set n | n in g.ids)
  {
  }

  // ---------------------------------------------------------------------------------------
  // The algorithm
  // ---------------------------------------------------------------------------------------

  function Max(x: nat, y: nat): nat { if x >= y then x else y }

  /** The targets of the first k edges that leave n, in order and with repetitions. */
  ghost function Succs(g: Graph, k: nat, n: Node): seq<Node>
    requires k <= |g.edges|
  {
    if k == 0 then []
    else
      var e := g.edges[k - 1];
      if Live(g, e) && e.source == n then Succs(g, k - 1, n) + [e.target] else Succs(g, k - 1, n)
  }

  /** How many of the first k edges into m come from a node outside `seen`. */
  ghost function Waiting(g: Graph, k: nat, m: Node, seen: set<Node>): nat
    requires k <= |g.edges|
  {
    if k == 0 then 0
    else
      var e := g.edges[k - 1];
      Waiting(g, k - 1, m, seen) + if Live(g, e) && e.target == m && e.source !in seen then 1 else 0
  }

  lemma {:induction false} SuccsAreArcs(g: Graph, k: nat, n: Node, m: Node)
    requires k <= |g.edges|
    ensures m in Succs(g, k, n) <==> exists i :: 0 <= i < k && g.edges[i] == Edge(n, m) && Live(g, g.edges[i])
  {
    if k > 0 {
      SuccsAreArcs(g, k - 1, n, m);
    }
  }

  /** Dequeuing n settles one unit of waiting per edge from n. */
  lemma {:induction false} WaitingDrops(g: Graph, k: nat, m: Node, n: Node, seen: set<Node>)
    requires k <= |g.edges| && n !in seen
    ensures Waiting(g, k, m, seen) == Waiting(g, k, m, seen + {n}) + multiset(Succs(g, k, n))[m]
  {
    if k > 0 {
      WaitingDrops(g, k - 1, m, n, seen);
    }
  }

  lemma {:induction false} NothingWaiting(g: Graph, k: nat, m: Node, seen: set<Node>)
    requires k <= |g.edges|
    ensures Waiting(g, k, m, seen) == 0 <==>
      forall i :: 0 <= i < k && Live(g, g.edges[i]) && g.edges[i].target == m ==> g.edges[i].source in seen
  {
    if k > 0 {
      NothingWaiting(g, k - 1, m, seen);
    }
  }

  lemma NothingWaitingArcs(g: Graph, m: Node, seen: set<Node>)
    ensures Waiting(g, |g.edges|, m, seen) == 0 <==> forall u :: Arc(g, u, m) ==> u in seen
  {
    NothingWaiting(g, |g.edges|, m, seen);
    if forall u :: Arc(g, u, m) ==> u in seen {
      forall i | 0 <= i < |g.edges| && Live(g, g.edges[i]) && g.edges[i].target == m
        ensures g.edges[i].source in seen
      {
        assert Arc(g, g.edges[i].source, m);
      }
    }
  }

  ghost predicate ClosedUpstream(g: Graph, seen: set<Node>) {
    forall u, v :: v in seen && Arc(g, u, v) ==> u in seen
  }

  ghost predicate Placed(g: Graph, layer: map<Node, nat>, seen: set<Node>) {
    && layer.Keys == (set n | n in g.ids)
    && seen <= layer.Keys
    && forall n {:trigger OneAfter(g, layer, seen, n)} :: n in layer ==> OneAfter(g, layer, seen, n)
  }

  /** The columns after node n has raised the nodes of `succ`. */
  ghost predicate Raised(before: map<Node, nat>, after: map<Node, nat>, n: Node, succ: seq<Node>)
    requires n in before
  {
    && after.Keys == before.Keys
    && forall m :: m in before ==>
         after[m] == if m in succ then Max(before[m], before[n] + 1) else before[m]
  }

  lemma RaiseOne(before: map<Node, nat>, after: map<Node, nat>, n: Node, succ: seq<Node>, m: Node)
    requires n in before && m in before && m != n && n !in succ
    requires Raised(before, after, n, succ)
    ensures after.Keys == before.Keys
    ensures Raised(before, after[m := Max(after[m], after[n] + 1)], n, succ + [m])
  {
  }

  lemma RaiseNone(before: map<Node, nat>, n: Node)
    requires n in before
    ensures Raised(before, before, n, [])
  {
  }

  lemma RaisedIsRight(g: Graph, before: map<Node, nat>, after: map<Node, nat>, seen: set<Node>, n: Node,
                      succ: seq<Node>, m: Node)
    requires Placed(g, before, seen) && n in before && m in before
    requires Raised(before, after, n, succ)
    requires forall u :: u in seen + {n} ==> u !in succ
    requires m in succ <==> Arc(g, n, m)
    ensures forall u :: u in seen + {n} && Arc(g, u, m) ==> after[u] < after[m]
  {
    assert OneAfter(g, before, seen, m);
    forall u | u in seen + {n} && Arc(g, u, m)
      ensures after[u] < after[m]
    {
      assert after[u] == before[u];
    }
  }

  lemma RaisedIsReached(g: Graph, before: map<Node, nat>, after: map<Node, nat>, seen: set<Node>, n: Node,
                        succ: seq<Node>, m: Node) returns (u: Node)
    requires Placed(g, before, seen) && n in before && m in before
    requires Raised(before, after, n, succ)
    requires forall u :: u in seen + {n} ==> u !in succ
    requires m in succ <==> Arc(g, n, m)
    requires after[m] != 0
    ensures u in seen + {n} && Arc(g, u, m) && after[m] == after[u] + 1
  {
    assert OneAfter(g, before, seen, m);
    u := n;
    if !(m in succ && after[m] == before[n] + 1) {
      u :| u in seen && Arc(g, u, m) && before[m] == before[u] + 1;
    }
    assert u in seen + {n};
  }

  lemma RaisedIsOneAfter(g: Graph, before: map<Node, nat>, after: map<Node, nat>, seen: set<Node>, n: Node,
                         succ: seq<Node>, m: Node)
    requires Placed(g, before, seen) && n in before && m in before
    requires Raised(before, after, n, succ)
    requires forall u :: u in seen + {n} ==> u !in succ
    requires m in succ <==> Arc(g, n, m)
    ensures m in after && seen + {n} <= after.Keys && OneAfter(g, after, seen + {n}, m)
  {
    RaisedIsRight(g, before, after, seen, n, succ, m);
    if after[m] != 0 {
      var u := RaisedIsReached(g, before, after, seen, n, succ, m);
    }
  }

  /** Raising the successors of a newly dequeued node keeps every column right. */
  lemma DequeueKeepsPlaced(g: Graph, before: map<Node, nat>, after: map<Node, nat>, seen: set<Node>, n: Node,
                           succ: seq<Node>)
    requires Placed(g, before, seen) && ClosedUpstream(g, seen)
    requires n in g.ids && n !in seen
    requires succ == Succs(g, |g.edges|, n)
    requires Raised(before, after, n, succ)
    ensures Placed(g, after, seen + {n})
  {
    forall m
      ensures m in succ <==> Arc(g, n, m)
    {
      SuccsAreArcs(g, |g.edges|, n, m);
    }
    forall m | m in after
      ensures OneAfter(g, after, seen + {n}, m)
    {
      RaisedIsOneAfter(g, before, after, seen, n, succ, m);
    }
  }

  /** The bookkeeping: what `work` counts and what the queue holds. */
  ghost predicate Counted(g: Graph, work: map<Node, int>, queue: seq<Node>, seen: set<Node>, left: seq<Node>) {
    && work.Keys == (set n | n in g.ids)
    && (forall m :: m in work ==> work[m] == Waiting(g, |g.edges|, m, seen) + multiset(left)[m])
    && (forall m :: m in queue ==> m in work && Waiting(g, |g.edges|, m, seen) == 0)
    && (forall m :: m in work && work[m] == 0 && m !in seen ==> m in queue)
  }

  /** Taking n off the queue turns its successor list into work left to do. */
  lemma DequeueKeepsCounted(g: Graph, work: map<Node, int>, queue: seq<Node>, seen: set<Node>, n: Node)
    requires Counted(g, work, [n] + queue, seen, [])
    requires n !in seen
    ensures Counted(g, work, queue, seen + {n}, Succs(g, |g.edges|, n))
  {
    forall m | m in work
      ensures work[m] == Waiting(g, |g.edges|, m, seen + {n}) + multiset(Succs(g, |g.edges|, n))[m]
    {
      WaitingDrops(g, |g.edges|, m, n, seen);
    }
    forall m | m in queue
      ensures m in work && Waiting(g, |g.edges|, m, seen + {n}) == 0
    {
      assert m in [n] + queue;
      WaitingDrops(g, |g.edges|, m, n, seen);
    }
  }

  /** One turn of the inner loop: m's count drops, and m is queued when it reaches zero. */
  lemma CountDown(g: Graph, work: map<Node, int>, queue: seq<Node>, seen: set<Node>, m: Node, left: seq<Node>)
    requires Counted(g, work, queue, seen, [m] + left) && m in work
    ensures Counted(g, work[m := work[m] - 1], if work[m] - 1 == 0 then queue + [m] else queue, seen, left)
  {
  }

  /** Groups the edges by source and counts them by target. */
  method CountEdges(g: Graph) returns (succ: map<Node, seq<Node>>, indeg: map<Node, int>)
    ensures succ.Keys == indeg.Keys == (set n | n in g.ids)
    ensures forall n :: n in succ ==> succ[n] == Succs(g, |g.edges|, n)
    ensures forall n :: n in indeg ==> indeg[n] == Waiting(g, |g.edges|, n, {})
  {
    succ := map id | id in g.ids :: [];
    indeg := map id | id in g.ids :: 0;
    for k := 0 to |g.edges|
      invariant succ.Keys == indeg.Keys == (set n | n in g.ids)
      invariant forall n :: n in succ ==> succ[n] == Succs(g, k, n)
      invariant forall n :: n in indeg ==> indeg[n] == Waiting(g, k, n, {})
    {
      var e := g.edges[k];
      if Live(g, e) {
        succ := succ[e.source := succ[e.source] + [e.target]];
        indeg := indeg[e.target := indeg[e.target] + 1];
      }
    }
  }

  /** ids.filter(id => indeg(id) === 0) */
  function Ready(ids: seq<Node>, indeg: map<Node, int>): (r: seq<Node>)
    requires forall n :: n in ids ==> n in indeg
    ensures forall n :: n in r <==> n in ids && indeg[n] == 0
  {
    if ids == [] then []
    else (if indeg[ids[0]] == 0 then [ids[0]] else []) + Ready(ids[1..], indeg)
  }

  /** What holds each time the main loop looks at its queue. */
  ghost predicate LoopInvariant(g: Graph, layer: map<Node, nat>, work: map<Node, int>, queue: seq<Node>,
                                seen: set<Node>)
  {
    Placed(g, layer, seen) && ClosedUpstream(g, seen) && Counted(g, work, queue, seen, [])
  }

  lemma SkipSeen(g: Graph, layer: map<Node, nat>, work: map<Node, int>, queue: seq<Node>, seen: set<Node>,
                 n: Node)
    requires LoopInvariant(g, layer, work, [n] + queue, seen) && n in seen
    ensures LoopInvariant(g, layer, work, queue, seen)
  {
    assert forall m :: m in queue ==> m in [n] + queue;
    assert forall m :: m in [n] + queue && m != n ==> m in queue;
  }

  /** An empty queue leaves only nodes that wait for one another. */
  lemma EmptyQueueSettles(g: Graph, layer: map<Node, nat>, work: map<Node, int>, seen: set<Node>)
    requires LoopInvariant(g, layer, work, [], seen)
    ensures ExactLayout(g, layer)
    ensures forall n :: n in seen <==> n in g.ids && Grounded(g, n)
  {
    forall n | n in layer && n !in seen
      ensures Waits(g, seen, n)
    {
      NothingWaitingArcs(g, n, seen);
      assert work[n] != 0;
    }
    SettledIsExact(g, layer, seen);
    forall n | n in g.ids
      ensures n in seen <==> Grounded(g, n)
    {
      DequeuedIffGrounded(g, layer, seen, n);
    }
  }

  /** The loop starts with every node in column 0 and the nodes without incoming edges queued. */
  lemma LoopStarts(g: Graph, indeg: map<Node, int>, queue: seq<Node>)
    requires indeg.Keys == (set n | n in g.ids)
    requires forall n :: n in indeg ==> indeg[n] == Waiting(g, |g.edges|, n, {})
    requires forall n :: n in queue <==> n in g.ids && indeg[n] == 0
    ensures LoopInvariant(g, map id | id in g.ids :: 0, indeg, queue, {})
  {
  }

  lemma OrderStarts()
    ensures Distinct<Node>([])
  {
  }

  lemma OrderGrows(order: seq<Node>, seen: set<Node>, n: Node)
    requires Distinct(order) && n !in seen
    requires forall m :: m in order <==> m in seen
    ensures Distinct(order + [n])
    ensures forall m :: m in order + [n] <==> m in seen + {n}
  {
  }

  /** The layout of one component, and the order its nodes were dequeued in. */
  method ComputeLayers(g: Graph) returns (layer: map<Node, nat>, ghost order: seq<Node>)
    ensures ExactLayout(g, layer)
    ensures Distinct(order)
    ensures forall n :: n in order <==> n in g.ids && Grounded(g, n)
  {
    hide *;
    var succ, indeg := CountEdges(g);
    layer := map id | id in g.ids :: 0;
    var work, queue := indeg, Ready(g.ids, indeg);
    var seen: set<Node> := {};
    order := [];
    OrderStarts();
    LoopStarts(g, indeg, queue);
    while queue != []
      invariant LoopInvariant(g, layer, work, queue, seen)
      invariant Distinct(order) && forall n :: n in order <==> n in seen
      decreases (set n | n in g.ids) - seen, |queue|
    {
      var n := queue[0];
      assert queue == [n] + queue[1..];
      queue := queue[1..];
      if n in seen {
        SkipSeen(g, layer, work, queue, seen, n);
        continue;
      }
      TurnStarts(g, layer, work, queue, seen, n);
      layer, work, queue := RaiseSuccessors(g, layer, work, queue, seen, n, succ[n]);
      OrderGrows(order, seen, n);
      seen := seen + {n};
      order := order + [n];
    }
    EmptyQueueSettles(g, layer, work, seen);
  }

  lemma TurnStarts(g: Graph, layer: map<Node, nat>, work: map<Node, int>, queue: seq<Node>, seen: set<Node>,
                   n: Node)
    requires LoopInvariant(g, layer, work, [n] + queue, seen) && n !in seen
    ensures Counted(g, work, queue, seen + {n}, Succs(g, |g.edges|, n))
    ensures n in layer && layer.Keys == work.Keys == (set x | x in g.ids)
    ensures ClosedUpstream(g, seen + {n})
    ensures forall m :: m in Succs(g, |g.edges|, n) ==> m in g.ids && m != n
  {
    assert n in [n] + queue;
    DequeueKeepsCounted(g, work, queue, seen, n);
    NothingWaitingArcs(g, n, seen);
    forall m | m in Succs(g, |g.edges|, n)
      ensures Arc(g, n, m)
    {
      SuccsAreArcs(g, |g.edges|, n, m);
    }
  }

  /** The body of the main loop for one newly dequeued node. */
  method RaiseSuccessors(g: Graph, layer0: map<Node, nat>, work0: map<Node, int>, queue0: seq<Node>,
                         ghost seen: set<Node>, n: Node, succ: seq<Node>)
      returns (layer: map<Node, nat>, work: map<Node, int>, queue: seq<Node>)
    requires LoopInvariant(g, layer0, work0, [n] + queue0, seen) && n !in seen
    requires succ == Succs(g, |g.edges|, n)
    ensures n in g.ids
    ensures LoopInvariant(g, layer, work, queue, seen + {n})
  {
    hide *;
    layer, work, queue := layer0, work0, queue0;
    TurnStarts(g, layer, work, queue, seen, n);
    RaiseNone(layer0, n);
    assert succ[0..] == succ && succ[..0] == [];
    for k := 0 to |succ|
      invariant layer.Keys == layer0.Keys
      invariant Raised(layer0, layer, n, succ[..k])
      invariant work.Keys == layer0.Keys
      invariant Counted(g, work, queue, seen + {n}, succ[k..])
    {
      var m := succ[k];
      assert succ[k..] == [m] + succ[k + 1..] && succ[..k + 1] == succ[..k] + [m];
      assert m in succ && n !in succ[..k];
      RaiseOne(layer0, layer, n, succ[..k], m);
      CountDown(g, work, queue, seen + {n}, m, succ[k + 1..]);
      layer := layer[m := Max(layer[m], layer[n] + 1)];
      work := work[m := work[m] - 1];
      if work[m] == 0 {
        queue := queue + [m];
      }
    }
    assert succ[..|succ|] == succ && succ[|succ|..] == [];
    TurnEnds(g, layer0, work0, queue0, layer, work, queue, seen, n);
  }

  lemma TurnEnds(g: Graph, layer0: map<Node, nat>, work0: map<Node, int>, queue0: seq<Node>,
                 layer: map<Node, nat>, work: map<Node, int>, queue: seq<Node>, seen: set<Node>, n: Node)
    requires LoopInvariant(g, layer0, work0, [n] + queue0, seen) && n in layer0 && n !in seen
    requires ClosedUpstream(g, seen + {n})
    requires Raised(layer0, layer, n, Succs(g, |g.edges|, n))
    requires Counted(g, work, queue, seen + {n}, [])
    ensures LoopInvariant(g, layer, work, queue, seen + {n})
  {
    hide Counted;
    DequeueKeepsPlaced(g, layer0, layer, seen, n, Succs(g, |g.edges|, n));
  }
}
