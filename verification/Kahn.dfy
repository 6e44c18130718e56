/** The ordering loop of depmap_rust.py. */
module Kahn {
  import opened Ordering
  import opened Graphs
  import opened KahnOrder

  lemma ElementsSort<T(!new)>(le: (T, T) -> bool, s: seq<T>)
    requires NoDuplicates(s)
    ensures Elements(Sort(le, s)) == Elements(s) && NoDuplicates(Sort(le, s))
  {
    SortNoDuplicates(le, s);
    SameMembers(Sort(le, s), s);
  }

  /** Python's `sorted` on a set. */
  method SortedSet<T(==, !new)>(le: (T, T) -> bool, s: set<T>) returns (q: seq<T>)
    requires TotalOrder(le)
    ensures SortedBy(le, q) && NoDuplicates(q) && Elements(q) == s
  {
    q := [];
    var rest := s;
    while rest != {}
      invariant rest <= s && Elements(q) == s - rest && NoDuplicates(q)
      decreases rest
    {
      var x :| x in rest;
      assert x !in q by { assert x !in Elements(q); }
      ElementsSnoc(q, x);
      q := q + [x];
      rest := rest - {x};
    }
    ElementsSort(le, q);
    SortSorted(le, q);
    q := Sort(le, q);
  }

  /** The ready queue and the counters agree with the order built so far. */
  ghost predicate Consistent<T(!new)>(nodes: set<T>, edges: set<(T, T)>, order: seq<T>, queue: seq<T>, indeg: map<T, int>) {
    && NoDuplicates(queue) && (forall n :: n in queue <==> Ready(nodes, edges, order, n))
    && indeg.Keys == nodes && (forall n | n in nodes :: indeg[n] == |Deps(edges, n) - Elements(order)|)
  }

  lemma CounterZero<T>(edges: set<(T, T)>, order: seq<T>, n: T)
    ensures |Deps(edges, n) - Elements(order)| == 0 <==> Deps(edges, n) <= Elements(order)
  {
    if Deps(edges, n) <= Elements(order) {
      assert Deps(edges, n) - Elements(order) == {};
    } else {
      var b :| b in Deps(edges, n) && b !in Elements(order);
      assert b in Deps(edges, n) - Elements(order);
    }
  }

  /** Placing `n` lowers the counters of exactly its users, by one. */
  lemma CounterDrops<T>(edges: set<(T, T)>, order: seq<T>, n: T, r: T)
    requires n !in order
    ensures |Deps(edges, r) - Elements(order + [n])|
         == |Deps(edges, r) - Elements(order)| - (if r in Users(edges, n) then 1 else 0)
  {
    assert Elements(order + [n]) == Elements(order) + {n};
    assert r in Users(edges, n) <==> (r, n) in edges;
    assert n in Deps(edges, r) <==> (r, n) in edges;
    if r in Users(edges, n) {
      assert Deps(edges, r) - Elements(order) == (Deps(edges, r) - Elements(order + [n])) + {n};
    } else {
      assert Deps(edges, r) - Elements(order) == Deps(edges, r) - Elements(order + [n]);
    }
  }

  ghost predicate Settled<T>(edges: set<(T, T)>, order: seq<T>) {
    forall v | v in order :: Deps(edges, v) <= Elements(order)
  }

  /** After `n` is placed, the ready nodes are the other ready ones and those users
      of `n` that waited for nothing else. */
  lemma ReadyAfter<T>(nodes: set<T>, edges: set<(T, T)>, order: seq<T>, n: T, m: T)
    requires Ready(nodes, edges, order, n) && Settled(edges, order) && m in nodes
    ensures m in Users(edges, n) ==> m != n && m !in order && !Ready(nodes, edges, order, m)
    ensures Ready(nodes, edges, order + [n], m) <==>
              if m in Users(edges, n) then Deps(edges, m) <= Elements(order + [n])
              else m != n && Ready(nodes, edges, order, m)
  {
    assert Elements(order + [n]) == Elements(order) + {n};
    assert m in Users(edges, n) <==> (m, n) in edges;
    assert n in Deps(edges, m) <==> (m, n) in edges;
  }

  /** The users in `todo` have not had their counters lowered yet. */
  ghost predicate Counters<T(!new)>(before: T -> int, after: T -> int, todo: seq<T>, indeg: map<T, int>) {
    forall m | m in indeg :: indeg[m] == if m in todo then before(m) else after(m)
  }

  lemma CountersStep<T(!new)>(before: T -> int, after: T -> int, todo: seq<T>, indeg: map<T, int>)
    requires Counters(before, after, todo, indeg) && todo != [] && NoDuplicates(todo) && todo[0] in indeg
    ensures Counters(before, after, todo[1..], indeg[todo[0] := after(todo[0])])
  {
    assert todo == [todo[0]] + todo[1..];
  }

  /** The queue holds the ready nodes that are not still in `todo`. */
  ghost predicate Waiting<T(!new)>(ready: T -> bool, todo: seq<T>, queue: seq<T>) {
    NoDuplicates(queue) && forall m :: m in queue <==> m !in todo && ready(m)
  }

  lemma WaitingStep<T(!new)>(ready: T -> bool, todo: seq<T>, queue: seq<T>, now: bool)
    requires Waiting(ready, todo, queue) && todo != [] && NoDuplicates(todo) && (now <==> ready(todo[0]))
    ensures Waiting(ready, todo[1..], if now then queue + [todo[0]] else queue)
  {
    var next := if now then queue + [todo[0]] else queue;
    assert todo == [todo[0]] + todo[1..];
    forall m ensures m in next <==> m !in todo[1..] && ready(m) {
      assert m in todo <==> m == todo[0] || m in todo[1..];
    }
  }

  ghost function ReadyAt<T>(nodes: set<T>, edges: set<(T, T)>, order: seq<T>): T -> bool {
    m => Ready(nodes, edges, order, m)
  }

  /** For how many dependencies a node still waits. */
  ghost function WaitsFor<T>(edges: set<(T, T)>, order: seq<T>): T -> int {
    m => |Deps(edges, m) - Elements(order)|
  }

  /** `Consistent`, while the users in `todo` of the node just placed are still to be visited. */
  ghost predicate Visiting<T(!new)>(nodes: set<T>, edges: set<(T, T)>, order: seq<T>, n: T, todo: seq<T>,
                                    queue: seq<T>, indeg: map<T, int>) {
    && indeg.Keys == nodes
    && Waiting(ReadyAt(nodes, edges, order + [n]), todo, queue)
    && Counters(WaitsFor(edges, order), WaitsFor(edges, order + [n]), todo, indeg)
  }

  lemma VisitStart<T(!new)>(nodes: set<T>, edges: set<(T, T)>, order: seq<T>, n: T, users: seq<T>,
                            queue: seq<T>, indeg: map<T, int>)
    requires Consistent(nodes, edges, order, queue, indeg) && Settled(edges, order)
    requires queue != [] && n == queue[0] && Elements(users) == Users(edges, n)
    ensures Visiting(nodes, edges, order, n, users, queue[1..], indeg)
  {
    assert queue == [n] + queue[1..];
    assert Ready(nodes, edges, order, n) by { assert n in queue; }
    forall m ensures m in queue[1..] <==> m !in users && Ready(nodes, edges, order + [n], m) {
      assert m in queue[1..] <==> m in queue && m != n;
      assert m in users <==> m in Users(edges, n);
      if m in nodes { ReadyAfter(nodes, edges, order, n, m); }
    }
    forall m | m in nodes && m !in users ensures indeg[m] == |Deps(edges, m) - Elements(order + [n])| {
      assert m in users <==> m in Users(edges, n);
      CounterDrops(edges, order, n, m);
    }
  }

  /** The user about to be visited: its counter, and when it becomes ready. */
  lemma VisitedUser<T(!new)>(nodes: set<T>, edges: set<(T, T)>, order: seq<T>, n: T, r: T)
    requires EdgesInside(nodes, edges) && Ready(nodes, edges, order, n) && Settled(edges, order)
    requires r in Users(edges, n)
    ensures r in nodes
    ensures |Deps(edges, r) - Elements(order + [n])| == |Deps(edges, r) - Elements(order)| - 1
    ensures |Deps(edges, r) - Elements(order + [n])| == 0 <==> Ready(nodes, edges, order + [n], r)
  {
    assert (r, n) in edges;
    CounterDrops(edges, order, n, r);
    CounterZero(edges, order + [n], r);
    ReadyAfter(nodes, edges, order, n, r);
  }

  lemma VisitOne<T(!new)>(nodes: set<T>, edges: set<(T, T)>, order: seq<T>, n: T, todo: seq<T>,
                          queue: seq<T>, indeg: map<T, int>)
    requires EdgesInside(nodes, edges) && Ready(nodes, edges, order, n) && Settled(edges, order)
    requires Visiting(nodes, edges, order, n, todo, queue, indeg)
    requires todo != [] && NoDuplicates(todo) && todo[0] in Users(edges, n)
    ensures todo[0] in indeg
    ensures var left := indeg[todo[0]] - 1;
            Visiting(nodes, edges, order, n, todo[1..], if left == 0 then queue + [todo[0]] else queue, indeg[todo[0] := left])
  {
    var r := todo[0];
    VisitedUser(nodes, edges, order, n, r);
    CountersStep(WaitsFor(edges, order), WaitsFor(edges, order + [n]), todo, indeg);
    WaitingStep(ReadyAt(nodes, edges, order + [n]), todo, queue, indeg[r] - 1 == 0);
  }

  lemma SettledAfter<T>(nodes: set<T>, edges: set<(T, T)>, order: seq<T>, n: T)
    requires Ready(nodes, edges, order, n) && Settled(edges, order)
    ensures Settled(edges, order + [n])
  {
    assert Elements(order + [n]) == Elements(order) + {n};
  }

  lemma VisitEnd<T(!new)>(le: (T, T) -> bool, nodes: set<T>, edges: set<(T, T)>, order: seq<T>, n: T,
                          queue: seq<T>, indeg: map<T, int>)
    requires Visiting(nodes, edges, order, n, [], queue, indeg)
    ensures Consistent(nodes, edges, order + [n], Sort(le, queue), indeg)
  {
    SortNoDuplicates(le, queue);
    SameMembers(Sort(le, queue), queue);
  }

  lemma GreedySnoc<T(!new)>(le: (T, T) -> bool, nodes: set<T>, edges: set<(T, T)>, order: seq<T>, n: T)
    requires Greedy(le, nodes, edges, order) && LeastReady(le, nodes, edges, order, n)
    ensures Greedy(le, nodes, edges, order + [n])
  {
    var next := order + [n];
    forall i | 0 <= i < |next| ensures LeastReady(le, nodes, edges, next[..i], next[i]) {
      if i < |order| {
        assert next[..i] == order[..i];
      } else {
        assert next[..i] == order;
      }
    }
  }

  /** Counts down the users of the placed node and queues those that become ready. */
  method Release<T(==, !new)>(nodes: set<T>, edges: set<(T, T)>, users: seq<T>, queue0: seq<T>, indeg0: map<T, int>,
                              ghost order: seq<T>, ghost n: T)
      returns (queue: seq<T>, indeg: map<T, int>)
    requires EdgesInside(nodes, edges) && Ready(nodes, edges, order, n) && Settled(edges, order)
    requires NoDuplicates(users) && Elements(users) == Users(edges, n)
    requires Visiting(nodes, edges, order, n, users, queue0, indeg0)
    ensures Visiting(nodes, edges, order, n, [], queue, indeg)
  {
    queue, indeg := queue0, indeg0;
    assert users[0..] == users;
    for i := 0 to |users|
      invariant Visiting(nodes, edges, order, n, users[i..], queue, indeg)
    {
      var r := users[i];
      assert users[i..][0] == r && users[i..][1..] == users[i + 1..];
      assert r in Elements(users);
      VisitOne(nodes, edges, order, n, users[i..], queue, indeg);
      indeg := indeg[r := indeg[r] - 1];
      if indeg[r] == 0 { queue := queue + [r]; }
    }
    assert users[|users|..] == [];
  }

  lemma FirstIsLeast<T(!new)>(le: (T, T) -> bool, nodes: set<T>, edges: set<(T, T)>, order: seq<T>, queue: seq<T>)
    requires TotalOrder(le) && queue != [] && SortedBy(le, queue)
    requires forall n :: n in queue <==> Ready(nodes, edges, order, n)
    ensures LeastReady(le, nodes, edges, order, queue[0])
  {
    assert queue[0] in queue;
    forall m | Ready(nodes, edges, order, m) ensures le(queue[0], m) {
      var i :| 0 <= i < |queue| && queue[i] == m;
    }
  }

  /** One pass: pop the smallest ready node and release its users. */
  method Place<T(==, !new)>(le: (T, T) -> bool, nodes: set<T>, edges: set<(T, T)>, rdep: map<T, set<T>>,
                            queue0: seq<T>, indeg0: map<T, int>, ghost order: seq<T>)
      returns (n: T, queue: seq<T>, indeg: map<T, int>)
    requires TotalOrder(le) && EdgesInside(nodes, edges) && rdep == map m | m in nodes :: Users(edges, m)
    requires Consistent(nodes, edges, order, queue0, indeg0) && Settled(edges, order)
    requires queue0 != [] && SortedBy(le, queue0)
    ensures n == queue0[0] && LeastReady(le, nodes, edges, order, n)
    ensures Consistent(nodes, edges, order + [n], queue, indeg) && Settled(edges, order + [n])
    ensures SortedBy(le, queue)
  {
    n := queue0[0];
    FirstIsLeast(le, nodes, edges, order, queue0);
    var users := SortedSet(le, rdep[n]);
    VisitStart(nodes, edges, order, n, users, queue0, indeg0);
    queue, indeg := Release(nodes, edges, users, queue0[1..], indeg0, order, n);
    VisitEnd(le, nodes, edges, order, n, queue, indeg);
    SettledAfter(nodes, edges, order, n);
    SortSorted(le, queue);
    queue := Sort(le, queue);
  }

  lemma QueueEmpty<T(!new)>(nodes: set<T>, edges: set<(T, T)>, order: seq<T>, indeg: map<T, int>)
    requires Consistent(nodes, edges, order, [], indeg)
    ensures Stuck(nodes, edges, order)
  {
  }

  /** The whole ordering: `order`, and `cyc`, the sorted nodes never placed. */
  method TopologicalOrder<T(==, !new)>(le: (T, T) -> bool, nodes: set<T>, edges: set<(T, T)>)
      returns (order: seq<T>, cyc: seq<T>)
    requires TotalOrder(le) && EdgesInside(nodes, edges)
    ensures Greedy(le, nodes, edges, order) && Stuck(nodes, edges, order)
    ensures SortedBy(le, cyc) && NoDuplicates(cyc) && Elements(cyc) == nodes - Elements(order)
  {
    var depOf := map n | n in nodes :: Deps(edges, n);
    var rdep := map n | n in nodes :: Users(edges, n);
    var indeg: map<T, int> := map n | n in nodes :: |depOf[n]|;
    var seen: set<T> := {};
    order := [];
    var queue := SortedSet(le, set n | n in nodes && indeg[n] == 0);
    StartConsistent(nodes, edges, queue, indeg);
    order, seen := Drain(le, nodes, edges, rdep, queue, indeg);
    cyc := SortedSet(le, nodes - seen);
  }

  /** The `while queue` loop. */
  method Drain<T(==, !new)>(le: (T, T) -> bool, nodes: set<T>, edges: set<(T, T)>, rdep: map<T, set<T>>,
                            queue0: seq<T>, indeg0: map<T, int>)
      returns (order: seq<T>, seen: set<T>)
    requires TotalOrder(le) && EdgesInside(nodes, edges) && rdep == map m | m in nodes :: Users(edges, m)
    requires Consistent(nodes, edges, [], queue0, indeg0) && SortedBy(le, queue0)
    ensures Greedy(le, nodes, edges, order) && Stuck(nodes, edges, order) && seen == Elements(order)
  {
    var queue, indeg := queue0, indeg0;
    order, seen := [], {};
    while queue != []
      invariant Consistent(nodes, edges, order, queue, indeg) && Settled(edges, order) && SortedBy(le, queue)
      invariant Greedy(le, nodes, edges, order) && seen == Elements(order) && seen <= nodes
      decreases nodes - seen
    {
      var n;
      n, queue, indeg := Place(le, nodes, edges, rdep, queue, indeg, order);
      GreedySnoc(le, nodes, edges, order, n);
      ElementsSnoc(order, n);
      assert n in nodes - seen;
      order := order + [n];
      seen := seen + {n};
    }
    QueueEmpty(nodes, edges, order, indeg);
  }

  lemma StartConsistent<T(!new)>(nodes: set<T>, edges: set<(T, T)>, queue: seq<T>, indeg: map<T, int>)
    requires indeg == map n | n in nodes :: |Deps(edges, n)|
    requires NoDuplicates(queue) && Elements(queue) == set n | n in nodes && indeg[n] == 0
    ensures Consistent(nodes, edges, [], queue, indeg)
  {
    forall n | n in nodes ensures indeg[n] == |Deps(edges, n) - Elements([])| {
      assert Deps(edges, n) - Elements([]) == Deps(edges, n);
    }
    forall n ensures n in queue <==> Ready(nodes, edges, [], n) {
      assert n in queue <==> n in Elements(queue);
      CounterZero(edges, [], n);
    }
  }
}
