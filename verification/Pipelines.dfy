/**
 The pipeline graph: per-workflow descriptors assembled into nodes and typed edges, and the
 nodes touched by an edge grouped into connected components with an explicit stack.
 */
module Pipelines {
  import opened Common
  import opened Sorting
  import opened Strings

  type NodeId = string

  datatype EdgeKind = Triggers | Calls | OpensPr | Dispatch
  datatype Edge = Edge(source: NodeId, target: NodeId, kind: EdgeKind, heuristic: bool)

  // ---------------------------------------------------------------------------------------
  // Connected components
  // ---------------------------------------------------------------------------------------

  predicate Linked(edges: seq<Edge>, u: NodeId, v: NodeId) {
    exists i :: 0 <= i < |edges| &&
      ((edges[i].source == u && edges[i].target == v) || (edges[i].source == v && edges[i].target == u))
  }

  predicate Touched(edges: seq<Edge>, n: NodeId) {
    exists i :: 0 <= i < |edges| && (edges[i].source == n || edges[i].target == n)
  }

  ghost predicate EndpointsAreNodes(nodes: seq<NodeId>, edges: seq<Edge>) {
    forall i :: 0 <= i < |edges| ==> edges[i].source in nodes && edges[i].target in nodes
  }

  ghost predicate IsWalk(edges: seq<Edge>, p: seq<NodeId>, u: NodeId, v: NodeId) {
    && p != [] && p[0] == u && p[|p| - 1] == v
    && forall i :: 0 < i < |p| ==> Linked(edges, p[i - 1], p[i])
  }

  /** v can be reached from u along edges taken in either direction. */
  ghost predicate Connected(edges: seq<Edge>, u: NodeId, v: NodeId) {
    exists p :: IsWalk(edges, p, u, v)
  }

  lemma ConnectedToItself(edges: seq<Edge>, u: NodeId)
    ensures Connected(edges, u, u)
  {
    assert IsWalk(edges, [u], u, u);
  }

  lemma ConnectedStep(edges: seq<Edge>, u: NodeId, v: NodeId, w: NodeId)
    requires Connected(edges, u, v) && Linked(edges, v, w)
    ensures Connected(edges, u, w)
  {
    var p :| IsWalk(edges, p, u, v);
    var q := p + [w];
    forall i | 0 < i < |q|
      ensures Linked(edges, q[i - 1], q[i])
    {
      if i < |p| {
        assert Linked(edges, p[i - 1], p[i]);
      }
    }
    assert IsWalk(edges, q, u, w);
  }

  lemma ConnectedBack(edges: seq<Edge>, u: NodeId, v: NodeId)
    requires Connected(edges, u, v)
    ensures Connected(edges, v, u)
  {
    var p :| IsWalk(edges, p, u, v);
    var q := seq(|p|, i requires 0 <= i < |p| => p[|p| - 1 - i]);
    forall i | 0 < i < |q|
      ensures Linked(edges, q[i - 1], q[i])
    {
      assert Linked(edges, p[|p| - 1 - i], p[|p| - i]);
    }
    assert IsWalk(edges, q, v, u);
  }

  lemma {:induction false} ConnectedThrough(edges: seq<Edge>, u: NodeId, p: seq<NodeId>, v: NodeId, w: NodeId)
    requires Connected(edges, u, v) && IsWalk(edges, p, v, w)
    ensures Connected(edges, u, w)
  {
    if |p| > 1 {
      assert Linked(edges, p[0], p[1]);
      ConnectedStep(edges, u, v, p[1]);
      var q := p[1..];
      assert IsWalk(edges, q, p[1], w) by {
        forall i | 0 < i < |q|
          ensures Linked(edges, q[i - 1], q[i])
        {
          assert Linked(edges, p[i], p[i + 1]);
        }
      }
      ConnectedThrough(edges, u, q, p[1], w);
    }
  }

  lemma ConnectedTransitive(edges: seq<Edge>, u: NodeId, v: NodeId, w: NodeId)
    requires Connected(edges, u, v) && Connected(edges, v, w)
    ensures Connected(edges, u, w)
  {
    var p :| IsWalk(edges, p, v, w);
    ConnectedThrough(edges, u, p, v, w);
  }

  /** A set closed under links holds everything connected to its members. */
  ghost predicate ClosedUnderLinks(edges: seq<Edge>, s: set<NodeId>) {
    forall u, v :: u in s && Linked(edges, u, v) ==> v in s
  }

  lemma {:induction false} ClosedHoldsWalk(edges: seq<Edge>, s: set<NodeId>, p: seq<NodeId>, u: NodeId, v: NodeId)
    requires ClosedUnderLinks(edges, s) && u in s && IsWalk(edges, p, u, v)
    ensures v in s
  {
    if |p| > 1 {
      var q := p[..|p| - 1];
      assert Linked(edges, p[|p| - 2], p[|p| - 1]);
      assert IsWalk(edges, q, u, q[|q| - 1]) by {
        forall i | 0 < i < |q|
          ensures Linked(edges, q[i - 1], q[i])
        {
          assert Linked(edges, p[i - 1], p[i]);
        }
      }
      ClosedHoldsWalk(edges, s, q, u, q[|q| - 1]);
    }
  }

  /** sort(key=len, reverse=True): longer lists first, equal lengths left as they were. */
  predicate LongerFirst(a: seq<NodeId>, b: seq<NodeId>) { |a| >= |b| }

  /** One pipeline: every node connected to its members, each once, in sorted order. */
  ghost predicate IsComponent(edges: seq<Edge>, c: seq<NodeId>) {
    && c != [] && Distinct(c) && Ordered(c, StringLe)
    && (forall u, v :: u in c && v in c ==> Connected(edges, u, v))
    && (forall u, v :: u in c && Connected(edges, u, v) ==> v in c)
  }

  /** The pipelines: the connected components of the touched nodes, each listed once, largest first. */
  ghost predicate ArePipelines(edges: seq<Edge>, components: seq<seq<NodeId>>) {
    && (forall c :: c in components ==> IsComponent(edges, c))
    && Distinct(components)
    && (forall n :: Touched(edges, n) <==> exists c :: c in components && n in c)
    && Ordered(components, LongerFirst)
  }

  /** No node is in two pipelines. */
  lemma PipelinesAreDisjoint(edges: seq<Edge>, components: seq<seq<NodeId>>, i: nat, j: nat, n: NodeId)
    requires ArePipelines(edges, components) && i < j < |components|
    requires n in components[i]
    ensures n !in components[j]
  {
    var c, d := components[i], components[j];
    assert IsComponent(edges, c) && IsComponent(edges, d);
    if n in d {
      assert forall v :: v in c <==> v in d;
      SameSortedList(c, d);
    }
  }

  /** Two nodes share a pipeline exactly when an edge touches them and they are connected. */
  lemma SharePipelineIffConnected(edges: seq<Edge>, components: seq<seq<NodeId>>, u: NodeId, v: NodeId)
    requires ArePipelines(edges, components)
    ensures (exists c :: c in components && u in c && v in c) <==> Touched(edges, u) && Connected(edges, u, v)
  {
  }

  // ---------------------------------------------------------------------------------------
  // The stack loop
  // ---------------------------------------------------------------------------------------

  /** The neighbour sets, and the nodes an edge touches. */
  method BuildAdjacency(nodes: seq<NodeId>, edges: seq<Edge>)
      returns (adj: map<NodeId, set<NodeId>>, touched: set<NodeId>)
    requires EndpointsAreNodes(nodes, edges)
    ensures adj.Keys == (set n | n in nodes)
    ensures forall u :: u in adj ==> forall v :: v in adj[u] <==> Linked(edges, u, v)
    ensures forall n :: n in touched <==> Touched(edges, n)
  {
    adj := map n | n in nodes :: {};
    touched := {};
    assert edges[..|edges|] == edges;
    for k := 0 to |edges|
      invariant adj.Keys == (set n | n in nodes)
      invariant forall u :: u in adj ==> forall v :: v in adj[u] <==> Linked(edges[..k], u, v)
      invariant forall n :: n in touched <==> Touched(edges[..k], n)
    {
      var e := edges[k];
      ghost var was := adj;
      assert edges[..k + 1] == edges[..k] + [e];
      OneMoreEdge(edges[..k], e);
      adj := adj[e.source := adj[e.source] + {e.target}];
      adj := adj[e.target := adj[e.target] + {e.source}];
      touched := touched + {e.source, e.target};
    }
  }

  lemma OneMoreEdge(edges: seq<Edge>, e: Edge)
    ensures forall u, v :: Linked(edges + [e], u, v) <==>
      Linked(edges, u, v) || (u == e.source && v == e.target) || (u == e.target && v == e.source)
    ensures forall n :: Touched(edges + [e], n) <==> Touched(edges, n) || n == e.source || n == e.target
  {
    var r := edges + [e];
    assert forall i :: 0 <= i < |edges| ==> r[i] == edges[i];
    assert r[|edges|] == e;
    forall u, v | Linked(edges, u, v)
      ensures Linked(r, u, v)
    {
      var i :| 0 <= i < |edges| &&
        ((edges[i].source == u && edges[i].target == v) || (edges[i].source == v && edges[i].target == u));
      assert r[i] == edges[i];
    }
    forall n | Touched(edges, n)
      ensures Touched(r, n)
    {
      var i :| 0 <= i < |edges| && (edges[i].source == n || edges[i].target == n);
      assert r[i] == edges[i];
    }
  }

  /** The nodes found so far from `start`, and the stack of those still to look at. */
  ghost predicate Exploring(edges: seq<Edge>, start: NodeId, before: set<NodeId>, stack: seq<NodeId>,
                            comp: seq<NodeId>, seen: set<NodeId>)
  {
    && Distinct(comp)
    && (forall n :: n in seen <==> n in before || n in comp)
    && (forall n :: n in comp ==> n !in before && Connected(edges, start, n))
    && (forall n :: n in stack ==> Connected(edges, start, n))
    && (start in comp || start in stack)
    && (forall u, v :: u in comp && Linked(edges, u, v) ==> v in seen || v in stack)
  }

  lemma PopSeen(edges: seq<Edge>, start: NodeId, before: set<NodeId>, stack: seq<NodeId>,
                comp: seq<NodeId>, seen: set<NodeId>, n: NodeId)
    requires Exploring(edges, start, before, stack + [n], comp, seen)
    requires n in seen && start !in before
    ensures Exploring(edges, start, before, stack, comp, seen)
  {
  }

  lemma PopNew(edges: seq<Edge>, start: NodeId, before: set<NodeId>, stack: seq<NodeId>,
               comp: seq<NodeId>, seen: set<NodeId>, n: NodeId, more: seq<NodeId>)
    requires Exploring(edges, start, before, stack + [n], comp, seen)
    requires n !in seen
    requires forall v :: v in more <==> Linked(edges, n, v) && v !in seen + {n}
    ensures Exploring(edges, start, before, stack + more, comp + [n], seen + {n})
  {
    assert forall x :: x in stack + [n] <==> x in stack || x == n;
    assert forall x :: x in stack + more <==> x in stack || x in more;
    assert forall x :: x in comp + [n] <==> x in comp || x == n;
    forall v | v in more
      ensures Connected(edges, start, v)
    {
      ConnectedStep(edges, start, n, v);
    }
  }

  /** With the stack empty, what was found is the whole component of `start`. */
  lemma StackEmpty(edges: seq<Edge>, start: NodeId, before: set<NodeId>, comp: seq<NodeId>, seen: set<NodeId>)
    requires Exploring(edges, start, before, [], comp, seen)
    requires ClosedUnderLinks(edges, before) && start !in before
    ensures forall v :: v in comp <==> Connected(edges, start, v)
    ensures ClosedUnderLinks(edges, seen)
  {
    var found := set n | n in comp;
    forall u, v | u in comp && Linked(edges, u, v)
      ensures v in comp
    {
      assert Linked(edges, v, u);
    }
    assert ClosedUnderLinks(edges, found);
    forall v | Connected(edges, start, v)
      ensures v in comp
    {
      var p :| IsWalk(edges, p, start, v);
      ClosedHoldsWalk(edges, found, p, start, v);
    }
  }

  /** Everything reachable from a fresh start node, by a stack that may hold a node more than once. */
  method Explore(nodes: seq<NodeId>, edges: seq<Edge>, adj: map<NodeId, set<NodeId>>, start: NodeId,
                 seen0: set<NodeId>)
      returns (comp: seq<NodeId>, seen: set<NodeId>)
    requires EndpointsAreNodes(nodes, edges) && adj.Keys == (set n | n in nodes)
    requires forall u :: u in adj ==> forall v :: v in adj[u] <==> Linked(edges, u, v)
    requires start in nodes && start !in seen0 && ClosedUnderLinks(edges, seen0)
    ensures Distinct(comp)
    ensures forall v :: v in comp <==> Connected(edges, start, v)
    ensures forall n :: n in seen <==> n in seen0 || n in comp
    ensures forall n :: n in comp ==> n !in seen0
    ensures ClosedUnderLinks(edges, seen)
  {
    hide Connected;
    var stack := [start];
    comp, seen := [], seen0;
    ConnectedToItself(edges, start);
    while stack != []
      invariant Exploring(edges, start, seen0, stack, comp, seen)
      invariant forall n :: n in stack ==> n in nodes
      decreases adj.Keys - seen, |stack|
    {
      var n := stack[|stack| - 1];
      assert stack == stack[..|stack| - 1] + [n];
      stack := stack[..|stack| - 1];
      if n in seen {
        PopSeen(edges, start, seen0, stack, comp, seen, n);
        continue;
      }
      var more := ListSet(adj[n] - (seen + {n}));
      PopNew(edges, start, seen0, stack, comp, seen, n, more);
      seen := seen + {n};
      comp := comp + [n];
      stack := stack + more;
    }
    StackEmpty(edges, start, seen0, comp, seen);
  }

  lemma SortedComponent(edges: seq<Edge>, start: NodeId, comp: seq<NodeId>)
    requires Distinct(comp) && forall v :: v in comp <==> Connected(edges, start, v)
    ensures IsComponent(edges, Sort(comp, StringLe))
    ensures forall v :: v in Sort(comp, StringLe) <==> v in comp
  {
    var c := Sort(comp, StringLe);
    StringLeIsOrder();
    SortKeeps(comp, StringLe);
    SortOrdered(comp, StringLe);
    SameMembers(c, comp);
    RearrangedDistinct(comp, c);
    ConnectedToItself(edges, start);
    assert start in c;
    forall u, v | u in c && v in c
      ensures Connected(edges, u, v)
    {
      ConnectedBack(edges, start, u);
      ConnectedTransitive(edges, u, start, v);
    }
    forall u, v | u in c && Connected(edges, u, v)
      ensures v in c
    {
      ConnectedTransitive(edges, start, u, v);
    }
  }

  lemma {:induction false} WalkIsTouched(edges: seq<Edge>, p: seq<NodeId>, u: NodeId, v: NodeId)
    requires IsWalk(edges, p, u, v) && Touched(edges, u)
    ensures Touched(edges, v)
  {
    if |p| > 1 {
      assert Linked(edges, p[|p| - 2], p[|p| - 1]);
    }
  }

  lemma ConnectedAreTouched(edges: seq<Edge>, u: NodeId)
    requires Touched(edges, u)
    ensures forall v :: Connected(edges, u, v) ==> Touched(edges, v)
  {
    hide Touched;
    forall v | Connected(edges, u, v)
      ensures Touched(edges, v)
    {
      var p :| IsWalk(edges, p, u, v);
      WalkIsTouched(edges, p, u, v);
    }
  }

  /** What the loop over the start nodes has collected after the first k of them. */
  ghost predicate Collected(nodes: seq<NodeId>, k: nat, edges: seq<Edge>, components: seq<seq<NodeId>>,
                            seen: set<NodeId>)
    requires k <= |nodes|
  {
    && (forall c :: c in components ==> IsComponent(edges, c))
    && Distinct(components)
    && (forall n :: n in seen <==> exists c :: c in components && n in c)
    && (forall n :: n in seen ==> Touched(edges, n))
    && (forall i :: 0 <= i < k && Touched(edges, nodes[i]) ==> nodes[i] in seen)
  }

  lemma CollectOne(nodes: seq<NodeId>, k: nat, edges: seq<Edge>, components: seq<seq<NodeId>>,
                   seen: set<NodeId>, comp: seq<NodeId>, seen': set<NodeId>)
    requires k < |nodes| && Collected(nodes, k, edges, components, seen)
    requires Touched(edges, nodes[k]) && nodes[k] !in seen
    requires Distinct(comp) && forall v :: v in comp <==> Connected(edges, nodes[k], v)
    requires forall n :: n in seen' <==> n in seen || n in comp
    requires forall n :: n in comp ==> n !in seen
    ensures Collected(nodes, k + 1, edges, components + [Sort(comp, StringLe)], seen')
  {
    var c := Sort(comp, StringLe);
    var r := components + [c];
    SortedComponent(edges, nodes[k], comp);
    assert forall d :: d in r <==> d in components || d == c;
    ConnectedToItself(edges, nodes[k]);
    ConnectedAreTouched(edges, nodes[k]);
    assert nodes[k] in c;
    assert c !in components;
    assert Distinct(r);
    assert forall n :: n in seen' <==> exists d :: d in r && n in d by {
      assert c in r;
    }
  }

  /** Putting the collected components in size order gives the pipelines. */
  lemma CollectedArePipelines(nodes: seq<NodeId>, edges: seq<Edge>, components: seq<seq<NodeId>>, seen: set<NodeId>)
    requires EndpointsAreNodes(nodes, edges)
    requires Collected(nodes, |nodes|, edges, components, seen)
    ensures ArePipelines(edges, Sort(components, LongerFirst))
  {
    var r := Sort(components, LongerFirst);
    SortKeeps(components, LongerFirst);
    SortOrdered(components, LongerFirst);
    SameMembers(components, r);
    RearrangedDistinct(components, r);
    forall n | Touched(edges, n)
      ensures n in seen
    {
      assert n in nodes;
    }
  }

  lemma ClosedFromNothing(edges: seq<Edge>)
    ensures ClosedUnderLinks(edges, {})
  {
  }

  /** The pipelines of a graph. */
  method ConnectedComponents(nodes: seq<NodeId>, edges: seq<Edge>) returns (components: seq<seq<NodeId>>)
    requires EndpointsAreNodes(nodes, edges)
    ensures ArePipelines(edges, components)
  {
    hide IsComponent, Connected, ArePipelines, ClosedUnderLinks;
    ClosedFromNothing(edges);
    var adj, touched := BuildAdjacency(nodes, edges);
    var seen: set<NodeId> := {};
    components := [];
    for k := 0 to |nodes|
      invariant Collected(nodes, k, edges, components, seen)
      invariant ClosedUnderLinks(edges, seen)
    {
      var start := nodes[k];
      if start in seen || start !in touched {
        continue;
      }
      var comp, seen' := Explore(nodes, edges, adj, start, seen);
      CollectOne(nodes, k, edges, components, seen, comp, seen');
      seen := seen';
      components := components + [Sort(comp, StringLe)];
    }
    CollectedArePipelines(nodes, edges, components, seen);
    components := Sort(components, LongerFirst);
  }

  // ---------------------------------------------------------------------------------------
  // Assembling the graph
  // ---------------------------------------------------------------------------------------

  datatype Call = Call(repo: Option<string>, path: string)
  datatype Emit = Emit(kind: EdgeKind, targetRepo: Option<string>)
  datatype Descriptor = Descriptor(name: Option<string>, upstreams: seq<string>, calls: seq<Call>, emits: seq<Emit>)
  datatype Item = Item(repo: string, path: string, descriptor: Descriptor)
  datatype Node = Node(repo: string, path: string, external: bool)

  type NameIndex = map<(string, string), NodeId>

  function IdOf(repo: string, path: string): NodeId {
    repo + ":" + path
  }

  /** Where no repository holds a colon, the id tells workflows apart. */
  lemma IdIsInjective(repo: string, path: string, repo': string, path': string)
    requires ':' !in repo && ':' !in repo'
    ensures IdOf(repo, path) == IdOf(repo', path') <==> repo == repo' && path == path'
  {
    if IdOf(repo, path) == IdOf(repo', path') {
      FirstFieldIsUnique(repo, path, repo', path', ':');
    }
  }

  /** (repo, workflow name) to node; a later workflow of the same name replaces an earlier one. */
  function NamesOf(items: seq<Item>): NameIndex {
    if items == [] then map[]
    else
      var it := items[|items| - 1];
      var names := NamesOf(items[..|items| - 1]);
      if OrElse(it.descriptor.name, "") != "" then
        names[(it.repo, it.descriptor.name.value) := IdOf(it.repo, it.path)]
      else names
  }

  function UpstreamEdges(names: NameIndex, it: Item, k: nat): seq<Edge>
    requires k <= |it.descriptor.upstreams|
  {
    if k == 0 then []
    else
      var key := (it.repo, it.descriptor.upstreams[k - 1]);
      UpstreamEdges(names, it, k - 1) +
      if key in names then [Edge(names[key], IdOf(it.repo, it.path), Triggers, false)] else []
  }

  function CallTarget(it: Item, c: Call): NodeId {
    IdOf(OrElse(c.repo, it.repo), c.path)
  }

  function CallEdges(it: Item, k: nat): seq<Edge>
    requires k <= |it.descriptor.calls|
  {
    if k == 0 then []
    else CallEdges(it, k - 1) + [Edge(IdOf(it.repo, it.path), CallTarget(it, it.descriptor.calls[k - 1]), Calls, false)]
  }

  /** An emit draws an edge only when it names another repository. */
  predicate LeavesRepo(it: Item, e: Emit) {
    OrElse(e.targetRepo, it.repo) != it.repo
  }

  function EmitEdges(it: Item, k: nat): seq<Edge>
    requires k <= |it.descriptor.emits|
  {
    if k == 0 then []
    else
      var e := it.descriptor.emits[k - 1];
      EmitEdges(it, k - 1) +
      if LeavesRepo(it, e) then
        [Edge(IdOf(it.repo, it.path), IdOf(e.targetRepo.value, "(repository)"), e.kind, true)]
      else []
  }

  function ItemEdges(names: NameIndex, it: Item): seq<Edge> {
    UpstreamEdges(names, it, |it.descriptor.upstreams|) + CallEdges(it, |it.descriptor.calls|)
    + EmitEdges(it, |it.descriptor.emits|)
  }

  function AllEdges(names: NameIndex, items: seq<Item>): seq<Edge> {
    if items == [] then []
    else AllEdges(names, items[..|items| - 1]) + ItemEdges(names, items[|items| - 1])
  }

  predicate IsItem(items: seq<Item>, n: NodeId) {
    exists i :: 0 <= i < |items| && n == IdOf(items[i].repo, items[i].path)
  }

  lemma OneMoreItem(items: seq<Item>, it: Item)
    ensures forall n :: IsItem(items + [it], n) <==> IsItem(items, n) || n == IdOf(it.repo, it.path)
    ensures NamesOf(items + [it]) ==
      if OrElse(it.descriptor.name, "") != "" then
        NamesOf(items)[(it.repo, it.descriptor.name.value) := IdOf(it.repo, it.path)]
      else NamesOf(items)
  {
    var longer := items + [it];
    assert longer[..|items|] == items && longer[|items|] == it;
    forall n
      ensures IsItem(longer, n) <==> IsItem(items, n) || n == IdOf(it.repo, it.path)
    {
      assert forall i :: 0 <= i < |items| ==> longer[i] == items[i];
    }
  }

  /** The last workflow of the repository that carries the name. */
  ghost predicate IsLastCarrier(items: seq<Item>, repo: string, name: string, i: int) {
    && 0 <= i < |items| && items[i].repo == repo && items[i].descriptor.name == Some(name)
    && forall j :: i < j < |items| ==> !(items[j].repo == repo && items[j].descriptor.name == Some(name))
  }

  /** A name resolves to the last workflow of that repository that carries it. */
  lemma {:induction false} NamesAreItems(items: seq<Item>, repo: string, name: string)
    requires (repo, name) in NamesOf(items)
    ensures name != "" && exists i ::
      IsLastCarrier(items, repo, name, i) && NamesOf(items)[(repo, name)] == IdOf(repo, items[i].path)
  {
    var n := |items| - 1;
    var it := items[n];
    if OrElse(it.descriptor.name, "") != "" && (it.repo, it.descriptor.name.value) == (repo, name) {
      assert IsLastCarrier(items, repo, name, n);
    } else {
      NamesAreItems(items[..n], repo, name);
      var i :| IsLastCarrier(items[..n], repo, name, i)
        && NamesOf(items[..n])[(repo, name)] == IdOf(repo, items[..n][i].path);
      assert forall j :: 0 <= j < n ==> items[j] == items[..n][j];
      assert IsLastCarrier(items, repo, name, i);
    }
  }

  ghost predicate Leaves(it: Item, m: Emit) {
    m.targetRepo.Some? && m.targetRepo.value != "" && m.targetRepo.value != it.repo
  }

  /** Every kind of edge says where it comes from, and only the emitted ones are guesses. */
  ghost predicate ItemEdgeIsRight(items: seq<Item>, it: Item, e: Edge) {
    match e.kind
    case Triggers =>
      && !e.heuristic && e.target == IdOf(it.repo, it.path)
      && exists name, i :: name != "" && name in it.descriptor.upstreams
           && IsLastCarrier(items, it.repo, name, i) && e.source == IdOf(it.repo, items[i].path)
    case Calls =>
      && !e.heuristic && e.source == IdOf(it.repo, it.path)
      && exists c :: c in it.descriptor.calls
           && e.target == IdOf(if c.repo.Some? && c.repo.value != "" then c.repo.value else it.repo, c.path)
    case _ =>
      && e.heuristic && e.source == IdOf(it.repo, it.path)
      && exists m :: m in it.descriptor.emits && m.kind == e.kind && Leaves(it, m)
           && e.target == IdOf(m.targetRepo.value, "(repository)")
  }

  /** The parser only ever emits pull requests and dispatches. */
  predicate WellFormed(it: Item) {
    forall m :: m in it.descriptor.emits ==> m.kind == OpensPr || m.kind == Dispatch
  }

  lemma {:induction false} UpstreamEdgesAreRight(items: seq<Item>, it: Item, k: nat, e: Edge)
    requires k <= |it.descriptor.upstreams| && e in UpstreamEdges(NamesOf(items), it, k)
    ensures ItemEdgeIsRight(items, it, e)
  {
    if e in UpstreamEdges(NamesOf(items), it, k - 1) {
      UpstreamEdgesAreRight(items, it, k - 1, e);
    } else {
      NamesAreItems(items, it.repo, it.descriptor.upstreams[k - 1]);
    }
  }

  lemma {:induction false} CallEdgesAreRight(items: seq<Item>, it: Item, k: nat, e: Edge)
    requires k <= |it.descriptor.calls| && e in CallEdges(it, k)
    ensures ItemEdgeIsRight(items, it, e)
  {
    if e in CallEdges(it, k - 1) {
      CallEdgesAreRight(items, it, k - 1, e);
    } else {
      assert it.descriptor.calls[k - 1] in it.descriptor.calls;
    }
  }

  lemma {:induction false} EmitEdgesAreRight(items: seq<Item>, it: Item, k: nat, e: Edge)
    requires WellFormed(it) && k <= |it.descriptor.emits| && e in EmitEdges(it, k)
    ensures ItemEdgeIsRight(items, it, e)
  {
    if e in EmitEdges(it, k - 1) {
      EmitEdgesAreRight(items, it, k - 1, e);
    } else {
      assert it.descriptor.emits[k - 1] in it.descriptor.emits;
    }
  }

  /**
   Every edge of the graph: a trigger links two workflows of one repository, by name; a call
   links a workflow to the file it names; an emitted edge leaves the repository and is marked
   as a guess.
   */
  lemma {:induction false} AllEdgesAreRight(items: seq<Item>, upTo: nat, e: Edge)
    requires upTo <= |items| && forall i :: 0 <= i < |items| ==> WellFormed(items[i])
    requires e in AllEdges(NamesOf(items), items[..upTo])
    ensures exists i :: 0 <= i < upTo && ItemEdgeIsRight(items, items[i], e)
  {
    if upTo > 0 {
      assert items[..upTo][..upTo - 1] == items[..upTo - 1];
      var it := items[upTo - 1];
      if e in AllEdges(NamesOf(items), items[..upTo - 1]) {
        AllEdgesAreRight(items, upTo - 1, e);
      } else {
        ItemEdgesAreRight(items, it, e);
        assert ItemEdgeIsRight(items, items[upTo - 1], e);
      }
    }
  }

  lemma ItemEdgesAreRight(items: seq<Item>, it: Item, e: Edge)
    requires WellFormed(it) && e in ItemEdges(NamesOf(items), it)
    ensures ItemEdgeIsRight(items, it, e)
  {
    var d := it.descriptor;
    if e in UpstreamEdges(NamesOf(items), it, |d.upstreams|) {
      UpstreamEdgesAreRight(items, it, |d.upstreams|, e);
    } else if e in CallEdges(it, |d.calls|) {
      CallEdgesAreRight(items, it, |d.calls|, e);
    } else {
      EmitEdgesAreRight(items, it, |d.emits|, e);
    }
  }

  /** A name is indexed exactly when some workflow of the repository carries it. */
  ghost predicate Carried(items: seq<Item>, repo: string, name: string) {
    name != "" && exists i :: 0 <= i < |items| && items[i].repo == repo && items[i].descriptor.name == Some(name)
  }

  lemma {:induction false} NamedIffCarried(items: seq<Item>, repo: string, name: string)
    ensures (repo, name) in NamesOf(items) <==> Carried(items, repo, name)
  {
    if items != [] {
      var before, it := items[..|items| - 1], items[|items| - 1];
      NamedIffCarried(before, repo, name);
      OneMoreCarried(before, it, repo, name);
      assert items == before + [it];
    }
  }

  lemma OneMoreCarried(before: seq<Item>, it: Item, repo: string, name: string)
    ensures Carried(before + [it], repo, name) <==>
      Carried(before, repo, name) || (name != "" && it.repo == repo && it.descriptor.name == Some(name))
  {
    var items := before + [it];
    assert items[|before|] == it && forall i :: 0 <= i < |before| ==> items[i] == before[i];
  }

  lemma {:induction false} UpstreamIsDrawn(names: NameIndex, it: Item, k: nat, i: nat)
    requires i < k <= |it.descriptor.upstreams| && (it.repo, it.descriptor.upstreams[i]) in names
    ensures Edge(names[(it.repo, it.descriptor.upstreams[i])], IdOf(it.repo, it.path), Triggers, false)
      in UpstreamEdges(names, it, k)
  {
    if i < k - 1 {
      UpstreamIsDrawn(names, it, k - 1, i);
    }
  }

  lemma {:induction false} CallIsDrawn(it: Item, k: nat, i: nat)
    requires i < k <= |it.descriptor.calls|
    ensures Edge(IdOf(it.repo, it.path), CallTarget(it, it.descriptor.calls[i]), Calls, false) in CallEdges(it, k)
  {
    if i < k - 1 {
      CallIsDrawn(it, k - 1, i);
    }
  }

  lemma {:induction false} EmitIsDrawn(it: Item, k: nat, i: nat)
    requires i < k <= |it.descriptor.emits| && LeavesRepo(it, it.descriptor.emits[i])
    ensures var e := it.descriptor.emits[i];
      Edge(IdOf(it.repo, it.path), IdOf(e.targetRepo.value, "(repository)"), e.kind, true) in EmitEdges(it, k)
  {
    if i < k - 1 {
      EmitIsDrawn(it, k - 1, i);
    }
  }

  lemma {:induction false} ItemEdgesAreDrawn(names: NameIndex, items: seq<Item>, it: Item, e: Edge)
    requires it in items && e in ItemEdges(names, it)
    ensures e in AllEdges(names, items)
  {
    if it in items[..|items| - 1] {
      ItemEdgesAreDrawn(names, items[..|items| - 1], it, e);
    }
  }

  /**
   No edge is missing: every upstream that some workflow of the repository carries, every call
   and every emit that leaves the repository has its edge.
   */
  lemma EveryEdgeIsDrawn(items: seq<Item>, it: Item)
    requires it in items
    ensures forall i :: 0 <= i < |it.descriptor.upstreams| && Carried(items, it.repo, it.descriptor.upstreams[i]) ==>
      && (it.repo, it.descriptor.upstreams[i]) in NamesOf(items)
      && Edge(NamesOf(items)[(it.repo, it.descriptor.upstreams[i])], IdOf(it.repo, it.path), Triggers, false)
           in AllEdges(NamesOf(items), items)
    ensures forall i :: 0 <= i < |it.descriptor.calls| ==>
      Edge(IdOf(it.repo, it.path), CallTarget(it, it.descriptor.calls[i]), Calls, false)
        in AllEdges(NamesOf(items), items)
    ensures forall i :: 0 <= i < |it.descriptor.emits| && LeavesRepo(it, it.descriptor.emits[i]) ==>
      Edge(IdOf(it.repo, it.path), IdOf(it.descriptor.emits[i].targetRepo.value, "(repository)"),
           it.descriptor.emits[i].kind, true) in AllEdges(NamesOf(items), items)
  {
    hide NamesOf, AllEdges, UpstreamEdges, CallEdges, EmitEdges, Carried, LeavesRepo;
    var names, d := NamesOf(items), it.descriptor;
    forall i | 0 <= i < |d.upstreams| && Carried(items, it.repo, d.upstreams[i])
      ensures (it.repo, d.upstreams[i]) in names
      ensures Edge(names[(it.repo, d.upstreams[i])], IdOf(it.repo, it.path), Triggers, false) in AllEdges(names, items)
    {
      NamedIffCarried(items, it.repo, d.upstreams[i]);
      UpstreamIsDrawn(names, it, |d.upstreams|, i);
      ItemEdgesAreDrawn(names, items, it,
                        Edge(names[(it.repo, d.upstreams[i])], IdOf(it.repo, it.path), Triggers, false));
    }
    forall i | 0 <= i < |d.calls|
      ensures Edge(IdOf(it.repo, it.path), CallTarget(it, d.calls[i]), Calls, false) in AllEdges(names, items)
    {
      CallIsDrawn(it, |d.calls|, i);
      ItemEdgesAreDrawn(names, items, it, Edge(IdOf(it.repo, it.path), CallTarget(it, d.calls[i]), Calls, false));
    }
    forall i | 0 <= i < |d.emits| && LeavesRepo(it, d.emits[i])
      ensures d.emits[i].targetRepo.Some?
      ensures Edge(IdOf(it.repo, it.path), IdOf(d.emits[i].targetRepo.value, "(repository)"), d.emits[i].kind, true)
        in AllEdges(names, items)
    {
      LeavesHasTarget(it, d.emits[i]);
      EmitIsDrawn(it, |d.emits|, i);
      ItemEdgesAreDrawn(names, items, it, Edge(IdOf(it.repo, it.path),
                        IdOf(d.emits[i].targetRepo.value, "(repository)"), d.emits[i].kind, true));
    }
  }

  lemma LeavesHasTarget(it: Item, e: Emit)
    requires LeavesRepo(it, e)
    ensures e.targetRepo.Some?
  {
  }

  /** A workflow, a call or an emit of the list names the repository. */
  ghost predicate NamesRepo(items: seq<Item>, repo: string) {
    exists it :: it in items &&
      (it.repo == repo
       || (exists c :: c in it.descriptor.calls && c.repo == Some(repo))
       || (exists m :: m in it.descriptor.emits && m.targetRepo == Some(repo)))
  }

  /** The node says what its id is made of, and a workflow's node that it is one. */
  ghost predicate IsNodeOf(items: seq<Item>, n: NodeId, node: Node) {
    && n == IdOf(node.repo, node.path) && NamesRepo(items, node.repo)
    && (IsItem(items, n) ==>
          !node.external && exists it :: it in items && it.repo == node.repo && it.path == node.path)
  }

  lemma NodeStays(before: seq<Item>, it: Item, n: NodeId, node: Node)
    requires IsNodeOf(before, n, node) && IsItem(before, n)
    ensures IsNodeOf(before + [it], n, node)
  {
    hide IsItem;
    var x :| x in before && x.repo == node.repo && x.path == node.path;
    assert x in before + [it];
  }

  lemma NodeIsNew(before: seq<Item>, it: Item)
    ensures IsNodeOf(before + [it], IdOf(it.repo, it.path), Node(it.repo, it.path, false))
  {
    assert it in before + [it];
  }

  lemma OtherNode(items: seq<Item>, node: Node)
    requires NamesRepo(items, node.repo) && !IsItem(items, IdOf(node.repo, node.path))
    ensures IsNodeOf(items, IdOf(node.repo, node.path), node)
  {
  }

  lemma NothingTouched()
    ensures forall n :: !Touched([], n)
    ensures forall nodes :: EndpointsAreNodes(nodes, [])
  {
  }

  /** The node dictionary, the edge list and the name index while the graph is being built. */
  class GraphBuilder {
    var nodes: seq<NodeId>       // in insertion order
    var info: map<NodeId, Node>
    var edges: seq<Edge>
    var byName: NameIndex

    ghost predicate Valid()
      reads this
    {
      && Distinct(nodes)
      && (forall n :: n in nodes <==> n in info)
      && EndpointsAreNodes(nodes, edges)
    }

    /** The nodes are exactly the given workflows and the endpoints of the edges drawn so far. */
    ghost predicate Covers(items: seq<Item>)
      reads this
    {
      && (forall n :: n in nodes <==> IsItem(items, n) || Touched(edges, n))
      && (forall n :: n in info ==> IsNodeOf(items, n, info[n]))
    }

    constructor ()
      ensures Valid() && nodes == [] && edges == [] && byName == map[]
    {
      nodes, info, edges, byName := [], map[], [], map[];
    }

    /** Adds a node unless its id is there already; an existing node is left as it is. */
    method Ensure(repo: string, path: string, external: bool) returns (id: NodeId)
      requires Valid()
      modifies this`nodes, this`info
      ensures Valid()
      ensures id == IdOf(repo, path)
      ensures nodes == if id in old(nodes) then old(nodes) else old(nodes) + [id]
      ensures forall n :: n in old(info) ==> n in info && info[n] == old(info[n])
      ensures id !in old(info) ==> info[id] == Node(repo, path, external)
    {
      id := IdOf(repo, path);
      if id !in info {
        info := info[id := Node(repo, path, external)];
        nodes := nodes + [id];
      }
    }

    /** First pass for one workflow: its node, and its name. */
    method AddItem(before: seq<Item>, it: Item)
      requires Valid() && Covers(before) && edges == [] && byName == NamesOf(before)
      modifies this
      ensures Valid() && Covers(before + [it]) && edges == []
      ensures byName == NamesOf(before + [it])
    {
      hide IsItem, NamesOf, Touched, EndpointsAreNodes, IdOf, IsNodeOf;
      OneMoreItem(before, it);
      NothingTouched();
      ghost var was := info;
      var id := Ensure(it.repo, it.path, false);
      forall n | n in info
        ensures IsNodeOf(before + [it], n, info[n]) && !info[id].external
      {
        KnownOrNew(before, it, was, info, n);
        KnownOrNew(before, it, was, info, id);
      }
      info := info[id := info[id].(external := false)];
      assert forall n :: n in nodes <==> IsItem(before, n) || n == id;
      if OrElse(it.descriptor.name, "") != "" {
        byName := byName[(it.repo, it.descriptor.name.value) := id];
      }
    }

    lemma KnownOrNew(before: seq<Item>, it: Item, was: map<NodeId, Node>, now: map<NodeId, Node>, n: NodeId)
      requires n in now && (n in was ==> now[n] == was[n] && IsItem(before, n) && IsNodeOf(before, n, was[n]))
      requires n !in was ==> n == IdOf(it.repo, it.path) && now[n] == Node(it.repo, it.path, false)
      ensures IsNodeOf(before + [it], n, now[n]) && !now[n].external
    {
      if n in was {
        NodeStays(before, it, n, was[n]);
      } else {
        NodeIsNew(before, it);
      }
    }

    /** First pass: a node per workflow, and the name index. */
    method AddItems(items: seq<Item>)
      requires Valid() && nodes == [] && edges == [] && byName == map[]
      modifies this
      ensures Valid() && Covers(items) && edges == []
      ensures byName == NamesOf(items)
    {
      assert items[..|items|] == items;
      for k := 0 to |items|
        invariant Valid() && Covers(items[..k]) && edges == []
        invariant byName == NamesOf(items[..k])
      {
        hide *;
        assert items[..k + 1] == items[..k] + [items[k]];
        AddItem(items[..k], items[k]);
      }
    }

    /** Draws one edge between nodes the graph already has. */
    method AddEdge(items: seq<Item>, e: Edge)
      requires Valid() && Covers(items) && e.source in nodes
      requires e.target in nodes
      modifies this`edges
      ensures Valid() && Covers(items)
      ensures edges == old(edges) + [e]
    {
      OneMoreEdge(edges, e);
      edges := edges + [e];
    }

    /** Draws an edge from a known node to a node that may be new. */
    method AddEdgeTo(items: seq<Item>, source: NodeId, repo: string, path: string, external: bool, kind: EdgeKind,
                     heuristic: bool)
      requires Valid() && Covers(items) && source in nodes && NamesRepo(items, repo)
      modifies this`nodes, this`info, this`edges
      ensures Valid() && Covers(items)
      ensures old(nodes) <= nodes
      ensures edges == old(edges) + [Edge(source, IdOf(repo, path), kind, heuristic)]
    {
      hide IsItem, Touched, NamesRepo, IsNodeOf, IdOf;
      if !IsItem(items, IdOf(repo, path)) {
        OtherNode(items, Node(repo, path, external));
      }
      var id := Ensure(repo, path, external);
      assert forall n :: n in nodes <==> n in old(nodes) || n == id;
      OneMoreEdge(edges, Edge(source, id, kind, heuristic));
      edges := edges + [Edge(source, id, kind, heuristic)];
    }

    method AddUpstreamEdges(items: seq<Item>, it: Item)
      requires Valid() && Covers(items) && byName == NamesOf(items)
      requires IdOf(it.repo, it.path) in nodes
      modifies this`nodes, this`info, this`edges
      ensures Valid() && Covers(items)
      ensures old(nodes) <= nodes
      ensures edges == old(edges) + UpstreamEdges(byName, it, |it.descriptor.upstreams|)
    {
      hide Valid, Covers;
      for k := 0 to |it.descriptor.upstreams|
        invariant Valid() && Covers(items) && old(nodes) <= nodes
        invariant edges == old(edges) + UpstreamEdges(byName, it, k)
      {
        var key := (it.repo, it.descriptor.upstreams[k]);
        if key in byName {
          NamedIsNode(items, key);
          AddEdge(items, Edge(byName[key], IdOf(it.repo, it.path), Triggers, false));
        }
      }
    }

    method AddCallEdges(items: seq<Item>, it: Item)
      requires Valid() && Covers(items) && it in items
      requires IdOf(it.repo, it.path) in nodes
      modifies this`nodes, this`info, this`edges
      ensures Valid() && Covers(items)
      ensures old(nodes) <= nodes
      ensures edges == old(edges) + CallEdges(it, |it.descriptor.calls|)
    {
      hide Valid, Covers;
      for k := 0 to |it.descriptor.calls|
        invariant Valid() && Covers(items) && old(nodes) <= nodes
        invariant edges == old(edges) + CallEdges(it, k)
      {
        var call := it.descriptor.calls[k];
        var repo := OrElse(call.repo, it.repo);
        assert call in it.descriptor.calls;
        AddEdgeTo(items, IdOf(it.repo, it.path), repo, call.path, repo != it.repo, Calls, false);
      }
    }

    method AddEmitEdges(items: seq<Item>, it: Item)
      requires Valid() && Covers(items) && it in items
      requires IdOf(it.repo, it.path) in nodes
      modifies this`nodes, this`info, this`edges
      ensures Valid() && Covers(items)
      ensures old(nodes) <= nodes
      ensures edges == old(edges) + EmitEdges(it, |it.descriptor.emits|)
    {
      hide Valid, Covers;
      for k := 0 to |it.descriptor.emits|
        invariant Valid() && Covers(items) && old(nodes) <= nodes
        invariant edges == old(edges) + EmitEdges(it, k)
      {
        var emit := it.descriptor.emits[k];
        assert emit in it.descriptor.emits;
        if LeavesRepo(it, emit) {
          AddEdgeTo(items, IdOf(it.repo, it.path), emit.targetRepo.value, "(repository)", true, emit.kind, true);
        }
      }
    }

    /** Second pass for one workflow: its incoming triggers, its calls, and what it emits elsewhere. */
    method AddItemEdges(items: seq<Item>, it: Item)
      requires Valid() && Covers(items) && byName == NamesOf(items) && it in items
      requires IdOf(it.repo, it.path) in nodes
      modifies this`nodes, this`info, this`edges
      ensures Valid() && Covers(items)
      ensures old(nodes) <= nodes
      ensures edges == old(edges) + ItemEdges(byName, it)
    {
      hide Valid, Covers;
      AddUpstreamEdges(items, it);
      AddCallEdges(items, it);
      AddEmitEdges(items, it);
    }

    lemma NamedIsNode(items: seq<Item>, key: (string, string))
      requires Covers(items) && key in NamesOf(items)
      ensures NamesOf(items)[key] in nodes
    {
      NamesAreItems(items, key.0, key.1);
    }

    /** Second pass: the edges of every workflow. */
    method AddEdges(items: seq<Item>)
      requires Valid() && Covers(items) && byName == NamesOf(items) && edges == []
      modifies this`nodes, this`info, this`edges
      ensures Valid() && Covers(items)
      ensures edges == AllEdges(NamesOf(items), items)
    {
      assert items[..|items|] == items;
      for k := 0 to |items|
        invariant Valid() && Covers(items)
        invariant edges == AllEdges(byName, items[..k])
      {
        hide Valid, ItemEdges;
        assert items[..k + 1][..k] == items[..k];
        assert IsItem(items, IdOf(items[k].repo, items[k].path));
        AddItemEdges(items, items[k]);
      }
    }
  }

  /** No repository that is named holds a colon. */
  ghost predicate PlainRepos(items: seq<Item>) {
    forall repo :: NamesRepo(items, repo) ==> ':' !in repo
  }

  type Info = map<NodeId, Node>

  ghost predicate Carries(info: Info, n: NodeId, repo: string, path: string) {
    n in info && info[n].repo == repo && info[n].path == path
  }

  ghost function CalledRepo(it: Item, c: Call): string {
    if c.repo.Some? && c.repo.value != "" then c.repo.value else it.repo
  }

  /** A trigger into a workflow from the last one of its repository that carries an upstream's name. */
  ghost predicate ShowsTrigger(items: seq<Item>, info: Info, it: Item, name: string, e: Edge) {
    && name in it.descriptor.upstreams && name != ""
    && e.kind == Triggers && !e.heuristic && Carries(info, e.target, it.repo, it.path)
    && exists i :: IsLastCarrier(items, it.repo, name, i) && Carries(info, e.source, it.repo, items[i].path)
  }

  /** A call from a workflow to the file it names, in the repository it names or in its own. */
  ghost predicate ShowsCall(info: Info, it: Item, c: Call, e: Edge) {
    && c in it.descriptor.calls
    && e.kind == Calls && !e.heuristic && Carries(info, e.source, it.repo, it.path)
    && Carries(info, e.target, CalledRepo(it, c), c.path)
  }

  /** What a workflow emits to another repository; the edge is a guess. */
  ghost predicate ShowsEmit(info: Info, it: Item, m: Emit, e: Edge) {
    && m in it.descriptor.emits && Leaves(it, m)
    && e.kind == m.kind && e.heuristic && Carries(info, e.source, it.repo, it.path)
    && Carries(info, e.target, m.targetRepo.value, "(repository)")
  }

  /** The nodes tell workflows apart: each workflow has one, and no two are of the same file. */
  ghost predicate NodesAreRight(items: seq<Item>, nodes: seq<NodeId>, info: Info) {
    && Distinct(nodes) && (forall n :: n in nodes <==> n in info)
    && (forall it :: it in items ==> exists n :: n in nodes && n in info && info[n] == Node(it.repo, it.path, false))
    && (forall m, n ::
          m in info && n in info && info[m].repo == info[n].repo && info[m].path == info[n].path ==> m == n)
  }

  ghost predicate ShowsSome(items: seq<Item>, info: Info, it: Item, e: Edge) {
    || (exists name :: ShowsTrigger(items, info, it, name, e))
    || (exists c :: ShowsCall(info, it, c, e))
    || (exists m :: ShowsEmit(info, it, m, e))
  }

  /** The edges are what the workflows say, each of them and nothing else. */
  ghost predicate EdgesAreRight(items: seq<Item>, info: Info, edges: seq<Edge>) {
    && (forall e :: e in edges ==> exists it :: it in items && ShowsSome(items, info, it, e))
    && (forall it, name :: it in items && name in it.descriptor.upstreams && Carried(items, it.repo, name) ==>
          exists e :: e in edges && ShowsTrigger(items, info, it, name, e))
    && (forall it, c :: it in items && c in it.descriptor.calls ==> exists e :: e in edges && ShowsCall(info, it, c, e))
    && (forall it, m :: it in items && m in it.descriptor.emits && Leaves(it, m) ==>
          exists e :: e in edges && ShowsEmit(info, it, m, e))
  }

  ghost predicate IsBuilt(items: seq<Item>, nodes: seq<NodeId>, info: Info, edges: seq<Edge>) {
    && Distinct(nodes) && (forall n :: n in nodes <==> n in info) && EndpointsAreNodes(nodes, edges)
    && (forall n :: n in nodes <==> IsItem(items, n) || Touched(edges, n))
    && (forall n :: n in info ==> IsNodeOf(items, n, info[n]))
    && edges == AllEdges(NamesOf(items), items)
  }

  lemma IdCarries(items: seq<Item>, info: Info, n: NodeId, repo: string, path: string)
    requires PlainRepos(items) && n in info && IsNodeOf(items, n, info[n]) && NamesRepo(items, repo)
    ensures n == IdOf(repo, path) <==> Carries(info, n, repo, path)
  {
    hide IdOf, NamesRepo;
    IdIsInjective(repo, path, info[n].repo, info[n].path);
  }

  lemma ItemIsNamed(items: seq<Item>, it: Item)
    requires it in items
    ensures NamesRepo(items, it.repo) && IsItem(items, IdOf(it.repo, it.path))
    ensures forall c :: c in it.descriptor.calls ==> NamesRepo(items, CalledRepo(it, c))
    ensures forall m :: m in it.descriptor.emits && m.targetRepo.Some? ==> NamesRepo(items, m.targetRepo.value)
  {
    var i :| 0 <= i < |items| && items[i] == it;
    forall c | c in it.descriptor.calls
      ensures NamesRepo(items, CalledRepo(it, c))
    {
    }
    forall m | m in it.descriptor.emits && m.targetRepo.Some?
      ensures NamesRepo(items, m.targetRepo.value)
    {
    }
  }

  lemma BuiltNodes(items: seq<Item>, nodes: seq<NodeId>, info: Info, edges: seq<Edge>)
    requires IsBuilt(items, nodes, info, edges) && PlainRepos(items)
    ensures NodesAreRight(items, nodes, info)
  {
    hide IdOf, NamesRepo, IsItem, EndpointsAreNodes, AllEdges, NamesOf, PlainRepos;
    forall it | it in items
      ensures exists n :: n in nodes && n in info && info[n] == Node(it.repo, it.path, false)
    {
      var n := IdOf(it.repo, it.path);
      ItemIsNamed(items, it);
      IdCarries(items, info, n, it.repo, it.path);
    }
  }

  /** An edge computed for a workflow says what it is for, in the nodes' own words. */
  lemma RightEdgeShows(items: seq<Item>, nodes: seq<NodeId>, info: Info, edges: seq<Edge>, it: Item, e: Edge)
    requires IsBuilt(items, nodes, info, edges) && PlainRepos(items) && it in items && e in edges
    requires ItemEdgeIsRight(items, it, e)
    ensures ShowsSome(items, info, it, e)
  {
    hide IdOf, NamesRepo, IsItem, AllEdges, NamesOf, PlainRepos, IsNodeOf;
    ItemIsNamed(items, it);
    EndsAreKnown(items, nodes, info, edges, e);
    IdCarries(items, info, e.source, it.repo, it.path);
    IdCarries(items, info, e.target, it.repo, it.path);
    match e.kind {
      case Triggers =>
        var name, i :| name != "" && name in it.descriptor.upstreams
          && IsLastCarrier(items, it.repo, name, i) && e.source == IdOf(it.repo, items[i].path);
        IdCarries(items, info, e.source, it.repo, items[i].path);
        assert ShowsTrigger(items, info, it, name, e);
      case Calls =>
        var c :| c in it.descriptor.calls
          && e.target == IdOf(if c.repo.Some? && c.repo.value != "" then c.repo.value else it.repo, c.path);
        IdCarries(items, info, e.target, CalledRepo(it, c), c.path);
        assert ShowsCall(info, it, c, e);
      case _ =>
        var m :| m in it.descriptor.emits && m.kind == e.kind && Leaves(it, m)
          && e.target == IdOf(m.targetRepo.value, "(repository)");
        IdCarries(items, info, e.target, m.targetRepo.value, "(repository)");
        assert ShowsEmit(info, it, m, e);
    }
  }

  lemma EndsAreKnown(items: seq<Item>, nodes: seq<NodeId>, info: Info, edges: seq<Edge>, e: Edge)
    requires IsBuilt(items, nodes, info, edges) && e in edges
    ensures e.source in info && e.target in info
    ensures IsNodeOf(items, e.source, info[e.source]) && IsNodeOf(items, e.target, info[e.target])
  {
    hide IdOf, NamesRepo, IsItem, AllEdges, NamesOf, IsNodeOf;
  }

  /** The edges drawn for a workflow are there, in the nodes' own words. */
  lemma DrawnEdgesShow(items: seq<Item>, nodes: seq<NodeId>, info: Info, edges: seq<Edge>, it: Item)
    requires IsBuilt(items, nodes, info, edges) && PlainRepos(items) && it in items
    ensures forall name :: name in it.descriptor.upstreams && Carried(items, it.repo, name) ==>
      exists e :: e in edges && ShowsTrigger(items, info, it, name, e)
    ensures forall c :: c in it.descriptor.calls ==> exists e :: e in edges && ShowsCall(info, it, c, e)
    ensures forall m :: m in it.descriptor.emits && Leaves(it, m) ==>
      exists e :: e in edges && ShowsEmit(info, it, m, e)
  {
    hide IdOf, NamesRepo, IsItem, AllEdges, NamesOf, PlainRepos, IsNodeOf, Carried;
    EveryEdgeIsDrawn(items, it);
    ItemIsNamed(items, it);
    var here := IdOf(it.repo, it.path);
    forall name | name in it.descriptor.upstreams && Carried(items, it.repo, name)
      ensures exists e :: e in edges && ShowsTrigger(items, info, it, name, e)
    {
      var i :| 0 <= i < |it.descriptor.upstreams| && it.descriptor.upstreams[i] == name;
      var e := Edge(NamesOf(items)[(it.repo, name)], here, Triggers, false);
      EndsAreKnown(items, nodes, info, edges, e);
      IdCarries(items, info, here, it.repo, it.path);
      NamesAreItems(items, it.repo, name);
      var j :| IsLastCarrier(items, it.repo, name, j) && e.source == IdOf(it.repo, items[j].path);
      IdCarries(items, info, e.source, it.repo, items[j].path);
      assert ShowsTrigger(items, info, it, name, e);
    }
    forall c | c in it.descriptor.calls
      ensures exists e :: e in edges && ShowsCall(info, it, c, e)
    {
      var i :| 0 <= i < |it.descriptor.calls| && it.descriptor.calls[i] == c;
      var e := Edge(here, CallTarget(it, c), Calls, false);
      EndsAreKnown(items, nodes, info, edges, e);
      IdCarries(items, info, here, it.repo, it.path);
      IdCarries(items, info, e.target, CalledRepo(it, c), c.path);
      assert ShowsCall(info, it, c, e);
    }
    forall m | m in it.descriptor.emits && Leaves(it, m)
      ensures exists e :: e in edges && ShowsEmit(info, it, m, e)
    {
      var i :| 0 <= i < |it.descriptor.emits| && it.descriptor.emits[i] == m;
      var e := Edge(here, IdOf(m.targetRepo.value, "(repository)"), m.kind, true);
      EndsAreKnown(items, nodes, info, edges, e);
      IdCarries(items, info, here, it.repo, it.path);
      IdCarries(items, info, e.target, m.targetRepo.value, "(repository)");
      assert ShowsEmit(info, it, m, e);
    }
  }

  lemma BuiltEdges(items: seq<Item>, nodes: seq<NodeId>, info: Info, edges: seq<Edge>)
    requires IsBuilt(items, nodes, info, edges) && PlainRepos(items) && forall it :: it in items ==> WellFormed(it)
    ensures EdgesAreRight(items, info, edges)
  {
    hide IdOf, NamesRepo, IsItem, AllEdges, NamesOf, PlainRepos, IsNodeOf, IsLastCarrier, Carried, ShowsTrigger,
         ShowsCall, ShowsEmit, ShowsSome, ItemEdgeIsRight, IsBuilt, Leaves;
    assert edges == AllEdges(NamesOf(items), items) by { BuiltMeans(items, nodes, info, edges); }
    assert items[..|items|] == items;
    forall e | e in edges
      ensures exists it :: it in items && ShowsSome(items, info, it, e)
    {
      AllEdgesAreRight(items, |items|, e);
      var i :| 0 <= i < |items| && ItemEdgeIsRight(items, items[i], e);
      RightEdgeShows(items, nodes, info, edges, items[i], e);
      assert items[i] in items;
    }
    forall it | it in items
      ensures forall name :: name in it.descriptor.upstreams && Carried(items, it.repo, name) ==>
        exists e :: e in edges && ShowsTrigger(items, info, it, name, e)
      ensures forall c :: c in it.descriptor.calls ==> exists e :: e in edges && ShowsCall(info, it, c, e)
      ensures forall m :: m in it.descriptor.emits && Leaves(it, m) ==>
        exists e :: e in edges && ShowsEmit(info, it, m, e)
    {
      DrawnEdgesShow(items, nodes, info, edges, it);
    }
  }

  lemma BuiltMeans(items: seq<Item>, nodes: seq<NodeId>, info: Info, edges: seq<Edge>)
    requires IsBuilt(items, nodes, info, edges)
    ensures edges == AllEdges(NamesOf(items), items)
  {
  }

  /**
   The graph of a list of workflows, and its pipelines. Where no repository holds a colon, as
   none on GitHub does, the nodes tell workflows apart and the edges say what the workflows do.
   */
  method BuildPipelineGraph(items: seq<Item>) returns (g: GraphBuilder, pipelines: seq<seq<NodeId>>)
    ensures fresh(g) && g.Valid() && g.Covers(items)
    ensures g.edges == AllEdges(NamesOf(items), items)
    ensures ArePipelines(g.edges, pipelines)
    ensures PlainRepos(items) ==> NodesAreRight(items, g.nodes, g.info)
    ensures PlainRepos(items) && (forall it :: it in items ==> WellFormed(it)) ==>
      EdgesAreRight(items, g.info, g.edges)
  {
    hide AllEdges, NamesOf, IsNodeOf, IsItem, PlainRepos, WellFormed, NodesAreRight, EdgesAreRight, ArePipelines;
    g := new GraphBuilder();
    g.AddItems(items);
    g.AddEdges(items);
    if PlainRepos(items) {
      BuiltNodes(items, g.nodes, g.info, g.edges);
      if forall it :: it in items ==> WellFormed(it) {
        BuiltEdges(items, g.nodes, g.info, g.edges);
      }
    }
    pipelines := ConnectedComponents(g.nodes, g.edges);
  }
}
