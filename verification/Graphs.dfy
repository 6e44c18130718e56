/** Finite directed graphs as adjacency maps, paths and reachability. */
module Graphs {

  type Adjacency<T> = map<T, seq<T>>

  /** Every listed edge joins two nodes. */
  ghost predicate EdgesInside<T>(nodes: set<T>, edges: set<(T, T)>) {
    forall e | e in edges :: e.0 in nodes && e.1 in nodes
  }

  /** Every edge stays inside the node set. */
  ghost predicate WellFormed<T(!new)>(adj: Adjacency<T>) {
    forall n, m :: Edge(adj, n, m) ==> m in adj
  }

  predicate Edge<T(==)>(adj: Adjacency<T>, a: T, b: T) {
    a in adj && b in adj[a]
  }

  /** `p` lists the nodes after `a` on a walk from `a` to `b`. */
  ghost predicate IsPath<T>(adj: Adjacency<T>, a: T, p: seq<T>, b: T) {
    if p == [] then a == b else Edge(adj, a, p[0]) && IsPath(adj, p[0], p[1..], b)
  }

  ghost predicate Reach<T(!new)>(adj: Adjacency<T>, a: T, b: T) {
    exists p :: IsPath(adj, a, p, b)
  }

  ghost predicate Mutual<T(!new)>(adj: Adjacency<T>, a: T, b: T) {
    Reach(adj, a, b) && Reach(adj, b, a)
  }

  /** A node lies on a cycle: some walk of at least one edge leads back to it. */
  ghost predicate OnCycle<T(!new)>(adj: Adjacency<T>, a: T) {
    exists b :: Edge(adj, a, b) && Reach(adj, b, a)
  }

  ghost predicate Acyclic<T(!new)>(adj: Adjacency<T>) {
    forall a :: !OnCycle(adj, a)
  }

  lemma ReachSelf<T(!new)>(adj: Adjacency<T>, a: T)
    ensures Reach(adj, a, a)
  {
    assert IsPath(adj, a, [], a);
  }

  lemma {:induction false} PathConcat<T>(adj: Adjacency<T>, a: T, p: seq<T>, b: T, q: seq<T>, c: T)
    requires IsPath(adj, a, p, b) && IsPath(adj, b, q, c)
    ensures IsPath(adj, a, p + q, c)
  {
    if p == [] {
      assert p + q == q;
    } else {
      PathConcat(adj, p[0], p[1..], b, q, c);
      assert (p + q)[1..] == p[1..] + q;
    }
  }

  lemma ReachTransitive<T(!new)>(adj: Adjacency<T>, a: T, b: T, c: T)
    requires Reach(adj, a, b) && Reach(adj, b, c)
    ensures Reach(adj, a, c)
  {
    var p :| IsPath(adj, a, p, b);
    var q :| IsPath(adj, b, q, c);
    PathConcat(adj, a, p, b, q, c);
  }

  lemma ReachEdge<T(!new)>(adj: Adjacency<T>, a: T, b: T)
    requires Edge(adj, a, b)
    ensures Reach(adj, a, b)
  {
    assert IsPath(adj, b, [], b);
    assert IsPath(adj, a, [b], b) by { assert [b][1..] == []; }
  }
}
