/** What the queue-driven order of depmap_rust.py promises: the greedy
    dependencies-first order and exactly the nodes it can never place. */
module KahnOrder {
  import opened Ordering
  import opened Graphs

  function Deps<T(==)>(edges: set<(T, T)>, n: T): set<T> {
    set e | e in edges && e.0 == n :: e.1
  }

  function Users<T(==)>(edges: set<(T, T)>, n: T): set<T> {
    set e | e in edges && e.1 == n :: e.0
  }

  /** `n` may come next after `order`. */
  ghost predicate Ready<T>(nodes: set<T>, edges: set<(T, T)>, order: seq<T>, n: T) {
    n in nodes && n !in order && Deps(edges, n) <= Elements(order)
  }

  /** Every node occurs once and after everything it depends on. */
  ghost predicate DependenciesFirst<T>(nodes: set<T>, edges: set<(T, T)>, order: seq<T>) {
    forall i | 0 <= i < |order| :: Ready(nodes, edges, order[..i], order[i])
  }

  ghost predicate LeastReady<T(!new)>(le: (T, T) -> bool, nodes: set<T>, edges: set<(T, T)>, order: seq<T>, n: T) {
    Ready(nodes, edges, order, n) && forall m | Ready(nodes, edges, order, m) :: le(n, m)
  }

  ghost predicate Greedy<T(!new)>(le: (T, T) -> bool, nodes: set<T>, edges: set<(T, T)>, order: seq<T>) {
    forall i | 0 <= i < |order| :: LeastReady(le, nodes, edges, order[..i], order[i])
  }

  ghost predicate Stuck<T(!new)>(nodes: set<T>, edges: set<(T, T)>, order: seq<T>) {
    forall m :: !Ready(nodes, edges, order, m)
  }

  ghost function Listing<T>(s: set<T>): (q: seq<T>)
    ensures Elements(q) == s
  {
    if s == {} then []
    else
      var x :| x in s;
      var q := Listing(s - {x});
      assert Elements([x] + q) == {x} + Elements(q);
      [x] + q
  }

  /** The dependency graph as an adjacency map. */
  ghost function Graph<T>(nodes: set<T>, edges: set<(T, T)>): Adjacency<T> {
    map n | n in nodes :: Listing(Deps(edges, n))
  }

  lemma GraphEdges<T(!new)>(nodes: set<T>, edges: set<(T, T)>)
    requires EdgesInside(nodes, edges)
    ensures forall a, b :: Edge(Graph(nodes, edges), a, b) <==> (a, b) in edges
    ensures WellFormed(Graph(nodes, edges))
  {
    forall a, b ensures Edge(Graph(nodes, edges), a, b) <==> (a, b) in edges {
      assert b in Deps(edges, a) <==> (a, b) in edges;
    }
  }

  // ---------- The order is least among all dependencies-first orders

  lemma GreedyDependenciesFirst<T(!new)>(le: (T, T) -> bool, nodes: set<T>, edges: set<(T, T)>, order: seq<T>)
    requires Greedy(le, nodes, edges, order)
    ensures DependenciesFirst(nodes, edges, order)
  {
    forall i | 0 <= i < |order| ensures Ready(nodes, edges, order[..i], order[i]) {
      assert LeastReady(le, nodes, edges, order[..i], order[i]);
    }
  }

  /** The first place where `t` departs from `order` holds something larger in `t`. */
  ghost predicate Precedes<T>(le: (T, T) -> bool, order: seq<T>, t: seq<T>) {
    exists i :: 0 <= i < |order| && i < |t| && order[..i] == t[..i] && order[i] != t[i] && le(order[i], t[i])
  }

  lemma {:induction false} CommonPrefix<T>(s: seq<T>, t: seq<T>) returns (i: nat)
    ensures i <= |s| && i <= |t| && s[..i] == t[..i]
    ensures i < |s| && i < |t| ==> s[i] != t[i]
  {
    i := 0;
    while i < |s| && i < |t| && s[i] == t[i]
      invariant i <= |s| && i <= |t| && s[..i] == t[..i]
    {
      i := i + 1;
    }
  }

  lemma StuckIsMaximal<T(!new)>(nodes: set<T>, edges: set<(T, T)>, s: seq<T>, t: seq<T>)
    requires DependenciesFirst(nodes, edges, t)
    ensures Stuck(nodes, edges, s) && |s| <= |t| && s == t[..|s|] ==> s == t
  {
    if |s| < |t| {
      assert Ready(nodes, edges, t[..|s|], t[|s|]);
    }
  }

  /** Every dependencies-first order, complete or not, is a prefix of the greedy
      one or comes after it in dictionary order. */
  lemma GreedyIsLeast<T(!new)>(le: (T, T) -> bool, nodes: set<T>, edges: set<(T, T)>, order: seq<T>, t: seq<T>)
    requires Greedy(le, nodes, edges, order) && Stuck(nodes, edges, order)
    requires DependenciesFirst(nodes, edges, t)
    ensures t <= order || Precedes(le, order, t)
  {
    var i := CommonPrefix(order, t);
    if i == |t| {
      assert t == order[..i];
    } else {
      assert Ready(nodes, edges, t[..i], t[i]);
      StuckIsMaximal(nodes, edges, order, t);
      if i < |order| { assert LeastReady(le, nodes, edges, order[..i], order[i]); }
    }
  }

  lemma GreedyAgree<T(!new)>(le: (T, T) -> bool, nodes: set<T>, edges: set<(T, T)>, s: seq<T>, t: seq<T>, i: nat)
    requires TotalOrder(le) && Greedy(le, nodes, edges, s) && Greedy(le, nodes, edges, t)
    requires i < |s| && i < |t| && s[..i] == t[..i]
    ensures s[i] == t[i]
  {
    assert LeastReady(le, nodes, edges, s[..i], s[i]);
    assert LeastReady(le, nodes, edges, t[..i], t[i]);
  }

  /** The promises determine the order. */
  lemma GreedyUnique<T(!new)>(le: (T, T) -> bool, nodes: set<T>, edges: set<(T, T)>, s: seq<T>, t: seq<T>)
    requires TotalOrder(le) && Greedy(le, nodes, edges, s) && Stuck(nodes, edges, s)
    requires Greedy(le, nodes, edges, t) && Stuck(nodes, edges, t)
    ensures s == t
  {
    var i := CommonPrefix(s, t);
    if i < |s| && i < |t| { GreedyAgree(le, nodes, edges, s, t, i); }
    GreedyDependenciesFirst(le, nodes, edges, s);
    GreedyDependenciesFirst(le, nodes, edges, t);
    StuckIsMaximal(nodes, edges, s, t);
    StuckIsMaximal(nodes, edges, t, s);
  }

  // ---------- What is left over

  lemma OrderedOnce<T(!new)>(nodes: set<T>, edges: set<(T, T)>, order: seq<T>)
    requires DependenciesFirst(nodes, edges, order)
    ensures NoDuplicates(order) && forall v | v in order :: v in nodes
  {
    forall i, j | 0 <= i < j < |order| ensures order[i] != order[j] {
      assert Ready(nodes, edges, order[..j], order[j]);
      assert order[..j][i] == order[i];
    }
    forall v | v in order ensures v in nodes {
      var i :| 0 <= i < |order| && order[i] == v;
      assert Ready(nodes, edges, order[..i], order[i]);
    }
  }

  lemma DependencyEarlier<T(!new)>(nodes: set<T>, edges: set<(T, T)>, order: seq<T>, i: nat, b: T) returns (j: nat)
    requires EdgesInside(nodes, edges) && DependenciesFirst(nodes, edges, order) && i < |order|
    requires Edge(Graph(nodes, edges), order[i], b)
    ensures j < i && order[j] == b
  {
    GraphEdges(nodes, edges);
    assert Ready(nodes, edges, order[..i], order[i]);
    assert b in Deps(edges, order[i]);
    assert b in order[..i];
    j :| 0 <= j < i && order[..i][j] == b;
  }

  lemma {:induction false} PathEarlier<T(!new)>(nodes: set<T>, edges: set<(T, T)>, order: seq<T>, i: nat, p: seq<T>, b: T)
      returns (j: nat)
    requires EdgesInside(nodes, edges) && DependenciesFirst(nodes, edges, order) && i < |order|
    requires IsPath(Graph(nodes, edges), order[i], p, b)
    ensures j <= i && order[j] == b
  {
    if p == [] {
      j := i;
    } else {
      var k := DependencyEarlier(nodes, edges, order, i, p[0]);
      j := PathEarlier(nodes, edges, order, k, p[1..], b);
    }
  }

  ghost predicate ReachesCycle<T(!new)>(adj: Adjacency<T>, n: T) {
    exists c :: Reach(adj, n, c) && OnCycle(adj, c)
  }

  lemma OrderedAvoidsCycles<T(!new)>(nodes: set<T>, edges: set<(T, T)>, order: seq<T>, n: T)
    requires EdgesInside(nodes, edges) && DependenciesFirst(nodes, edges, order) && n in order
    ensures !ReachesCycle(Graph(nodes, edges), n)
  {
    var adj := Graph(nodes, edges);
    if ReachesCycle(adj, n) {
      var c :| Reach(adj, n, c) && OnCycle(adj, c);
      var b :| Edge(adj, c, b) && Reach(adj, b, c);
      var p :| IsPath(adj, n, p, c);
      var q :| IsPath(adj, b, q, c);
      var i :| 0 <= i < |order| && order[i] == n;
      var j := PathEarlier(nodes, edges, order, i, p, c);
      var k := DependencyEarlier(nodes, edges, order, j, b);
      var l := PathEarlier(nodes, edges, order, k, q, c);
      OrderedOnce(nodes, edges, order);
      assert false;
    }
  }

  ghost predicate HasNext<T(!new)>(adj: Adjacency<T>, left: set<T>, m: T) {
    exists b :: b in left && Edge(adj, m, b)
  }

  ghost predicate Endless<T(!new)>(adj: Adjacency<T>, left: set<T>) {
    forall m {:trigger HasNext(adj, left, m)} | m in left :: HasNext(adj, left, m)
  }

  /** A finite set in which every node has a successor leads onto a cycle. */
  lemma {:induction false} EndlessWalkMeetsCycle<T(!new)>(adj: Adjacency<T>, left: set<T>, walked: set<T>, n: T)
    requires Endless(adj, left)
    requires n in left && n !in walked && forall v | v in walked :: Reach(adj, v, n)
    ensures ReachesCycle(adj, n)
    decreases left - walked
  {
    assert HasNext(adj, left, n);
    var b :| b in left && Edge(adj, n, b);
    ReachSelf(adj, n);
    ReachEdge(adj, n, b);
    if b in walked + {n} {
      assert Reach(adj, b, n);
      assert OnCycle(adj, n);
    } else {
      forall v | v in walked + {n} ensures Reach(adj, v, b) { ReachTransitive(adj, v, n, b); }
      EndlessWalkMeetsCycle(adj, left, walked + {n}, b);
      var c :| Reach(adj, b, c) && OnCycle(adj, c);
      ReachTransitive(adj, n, b, c);
    }
  }

  lemma LeftoverHasDependency<T(!new)>(nodes: set<T>, edges: set<(T, T)>, order: seq<T>, m: T) returns (b: T)
    requires EdgesInside(nodes, edges) && m in nodes && m !in order && !Ready(nodes, edges, order, m)
    ensures b in nodes - Elements(order) && (m, b) in edges
  {
    b :| b in Deps(edges, m) && b !in Elements(order);
  }

  lemma LeftoverMeetsCycle<T(!new)>(nodes: set<T>, edges: set<(T, T)>, order: seq<T>, n: T)
    requires EdgesInside(nodes, edges) && Stuck(nodes, edges, order) && n in nodes && n !in order
    ensures ReachesCycle(Graph(nodes, edges), n)
  {
    var adj := Graph(nodes, edges);
    var left := nodes - Elements(order);
    forall m | m in left ensures HasNext(adj, left, m) {
      assert !Ready(nodes, edges, order, m);
      var b := LeftoverHasDependency(nodes, edges, order, m);
      assert Edge(adj, m, b) by { GraphEdges(nodes, edges); }
    }
    EndlessWalkMeetsCycle(adj, left, {}, n);
  }

  /** A node is left over exactly when it can reach a dependency cycle. */
  lemma LeftoverIffReachesCycle<T(!new)>(le: (T, T) -> bool, nodes: set<T>, edges: set<(T, T)>, order: seq<T>, n: T)
    requires EdgesInside(nodes, edges) && n in nodes
    requires Greedy(le, nodes, edges, order) && Stuck(nodes, edges, order)
    ensures n !in order <==> ReachesCycle(Graph(nodes, edges), n)
  {
    GreedyDependenciesFirst(le, nodes, edges, order);
    if n in order {
      OrderedAvoidsCycles(nodes, edges, order, n);
    } else {
      LeftoverMeetsCycle(nodes, edges, order, n);
    }
  }

  lemma FullPrefix<T>(s: seq<T>, t: seq<T>)
    requires t <= s && NoDuplicates(s)
    ensures Elements(s) == Elements(t) ==> t == s
  {
    if |t| < |s| {
      assert s[|t|] in Elements(s);
      assert s[|t|] !in t;
    }
  }

  /** On an acyclic graph the order lists every node and no other complete
      dependencies-first order comes before it. */
  lemma AcyclicOrderIsLeastComplete<T(!new)>(le: (T, T) -> bool, nodes: set<T>, edges: set<(T, T)>, order: seq<T>)
    requires EdgesInside(nodes, edges) && Acyclic(Graph(nodes, edges))
    requires Greedy(le, nodes, edges, order) && Stuck(nodes, edges, order)
    ensures Elements(order) == nodes && NoDuplicates(order)
    ensures forall t | DependenciesFirst(nodes, edges, t) && Elements(t) == nodes :: t == order || Precedes(le, order, t)
  {
    GreedyDependenciesFirst(le, nodes, edges, order);
    OrderedOnce(nodes, edges, order);
    forall n | n in nodes ensures n in order {
      LeftoverIffReachesCycle(le, nodes, edges, order, n);
    }
    forall t | DependenciesFirst(nodes, edges, t) && Elements(t) == nodes ensures t == order || Precedes(le, order, t) {
      GreedyIsLeast(le, nodes, edges, order, t);
      if t <= order { FullPrefix(order, t); }
    }
  }
}
