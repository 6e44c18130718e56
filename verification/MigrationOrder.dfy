/** depmap_python.py `tarjan_scc` and `migration_order`, and their depmap_c.py twin:
    from node and edge lists to batches in dependencies-first order. */
module MigrationOrder {
  import opened Ordering
  import opened Graphs
  import opened TarjanMachine
  import opened TarjanRun
  import opened TarjanRepeats
  import opened TarjanOrder
  import Tarjan

  /** A file path, as Python code points. */
  type Name = seq<nat>

  /** The targets listed for `n`, in edge order. */
  function Targets<T(==)>(edges: seq<(T, T)>, n: T): seq<T> {
    if edges == [] then []
    else
      var e := edges[|edges| - 1];
      Targets(edges[..|edges| - 1], n) + if e.0 == n then [e.1] else []
  }

  /** `adj` once every list is sorted. */
  function SortedAdjacency<T(==)>(le: (T, T) -> bool, nodes: seq<T>, edges: seq<(T, T)>): Adjacency<T> {
    map n | n in nodes :: Sort(le, Targets(edges, n))
  }

  lemma {:induction false} TargetsListed<T>(edges: seq<(T, T)>, n: T, m: T)
    ensures m in Targets(edges, n) <==> (n, m) in edges
  {
    if edges != [] {
      var init := edges[..|edges| - 1];
      TargetsListed(init, n, m);
      assert edges == init + [edges[|edges| - 1]];
      assert (n, m) in edges <==> (n, m) in init || (n, m) == edges[|edges| - 1];
    }
  }

  /** The adjacency map has exactly the listed edges. */
  lemma AdjacencyEdges<T(!new)>(le: (T, T) -> bool, nodes: seq<T>, edges: seq<(T, T)>)
    requires EdgesInside(Elements(nodes), Elements(edges))
    ensures forall a, b :: Edge(SortedAdjacency(le, nodes, edges), a, b) <==> (a, b) in edges
    ensures Input(SortedAdjacency(le, nodes, edges), nodes)
    ensures Input(SortedAdjacency(le, nodes, edges), Sort(le, nodes))
  {
    var adj := SortedAdjacency(le, nodes, edges);
    forall a, b ensures Edge(adj, a, b) <==> (a, b) in edges {
      TargetsListed(edges, a, b);
      SameMembers(Sort(le, Targets(edges, a)), Targets(edges, a));
    }
    SameMembers(Sort(le, nodes), nodes);
  }

  lemma TargetsSnoc<T>(edges: seq<(T, T)>, i: nat, n: T)
    requires i < |edges|
    ensures Targets(edges[..i + 1], n) == Targets(edges[..i], n) + if edges[i].0 == n then [edges[i].1] else []
  {
    assert edges[..i + 1][..i] == edges[..i];
  }

  method BuildAdjacency<T(==, !new)>(le: (T, T) -> bool, nodes: seq<T>, edges: seq<(T, T)>) returns (adj: Adjacency<T>)
    requires EdgesInside(Elements(nodes), Elements(edges))
    ensures adj == SortedAdjacency(le, nodes, edges)
  {
    adj := map n | n in nodes :: [];
    for i := 0 to |edges|
      invariant adj.Keys == set n | n in nodes
      invariant forall n | n in adj :: adj[n] == Targets(edges[..i], n)
    {
      var (a, b) := edges[i];
      assert edges[i] in edges;
      forall n ensures Targets(edges[..i + 1], n) == Targets(edges[..i], n) + if a == n then [b] else [] {
        TargetsSnoc(edges, i, n);
      }
      adj := adj[a := adj[a] + [b]];
    }
    assert edges[..|edges|] == edges;
    adj := map n | n in adj :: Sort(le, adj[n]);
  }

  /** The batches the algorithm emits when roots are tried in the order `starts`. */
  ghost function Batches(starts: seq<Name>, adj: Adjacency<Name>): seq<seq<Name>>
    requires Input(adj, starts)
  {
    Final(LexLe, adj, starts).sccs
  }

  lemma BatchesCorrect(starts: seq<Name>, adj: Adjacency<Name>)
    requires Input(adj, starts) && forall v | v in adj :: v in starts
    ensures Components(adj, Batches(starts, adj))
    ensures forall i | 0 <= i < |Batches(starts, adj)| :: Ascending(Batches(starts, adj)[i])
  {
    RunCorrect(LexLe, adj, starts);
    LexIsTotalOrder();
    FinalSorted(LexLe, adj, starts);
    BatchesAscend(adj, Batches(starts, adj));
  }

  lemma BatchesAscend(adj: Adjacency<Name>, sccs: seq<seq<Name>>)
    requires Components(adj, sccs) && AllSorted(LexLe, sccs)
    ensures forall i | 0 <= i < |sccs| :: Ascending(sccs[i])
  {
    forall i | 0 <= i < |sccs| ensures Ascending(sccs[i]) { SortedAscends(sccs[i]); }
  }

  /** depmap_python.py: roots are tried in sorted order. The ghost results count the nodes
      given an index, the runs of the `for` loop's body and those of the `while work` loop's. */
  method TarjanScc(nodes: seq<Name>, edges: seq<(Name, Name)>)
      returns (sccs: seq<seq<Name>>, ghost indexed: nat, ghost examined: nat, ghost passes: nat)
    requires EdgesInside(Elements(nodes), Elements(edges))
    ensures Input(SortedAdjacency(LexLe, nodes, edges), Sort(LexLe, nodes))
    ensures sccs == Batches(Sort(LexLe, nodes), SortedAdjacency(LexLe, nodes, edges))
    ensures Components(SortedAdjacency(LexLe, nodes, edges), sccs)
    ensures forall i | 0 <= i < |sccs| :: Ascending(sccs[i])
    ensures indexed == |Elements(nodes)| && examined == |edges| && passes <= 2 * indexed
  {
    AdjacencyEdges(LexLe, nodes, edges);
    SameMembers(Sort(LexLe, nodes), nodes);
    WorkIsLinear(nodes, edges, Sort(LexLe, nodes));
    var adj := BuildAdjacency(LexLe, nodes, edges);
    BatchesCorrect(Sort(LexLe, nodes), adj);
    sccs, indexed, examined, passes := Tarjan.Components(LexLe, adj, Sort(LexLe, nodes));
  }

  /** depmap_c.py: roots are tried in the order given. */
  method TarjanSccAsListed(nodes: seq<Name>, edges: seq<(Name, Name)>)
      returns (sccs: seq<seq<Name>>, ghost indexed: nat, ghost examined: nat, ghost passes: nat)
    requires EdgesInside(Elements(nodes), Elements(edges))
    ensures Input(SortedAdjacency(LexLe, nodes, edges), nodes)
    ensures sccs == Batches(nodes, SortedAdjacency(LexLe, nodes, edges))
    ensures Components(SortedAdjacency(LexLe, nodes, edges), sccs)
    ensures forall i | 0 <= i < |sccs| :: Ascending(sccs[i])
    ensures indexed == |Elements(nodes)| && examined == |edges| && passes <= 2 * indexed
  {
    AdjacencyEdges(LexLe, nodes, edges);
    WorkIsLinear(nodes, edges, nodes);
    var adj := BuildAdjacency(LexLe, nodes, edges);
    BatchesCorrect(nodes, adj);
    sccs, indexed, examined, passes := Tarjan.Components(LexLe, adj, nodes);
  }

  function Cyclic<T>(sccs: seq<seq<T>>): seq<seq<T>> {
    if sccs == [] then []
    else Cyclic(sccs[..|sccs| - 1]) + if |sccs[|sccs| - 1]| > 1 then [sccs[|sccs| - 1]] else []
  }

  method LargeBatches<T>(order: seq<seq<T>>) returns (cycles: seq<seq<T>>)
    ensures cycles == Cyclic(order)
  {
    cycles := [];
    for i := 0 to |order|
      invariant cycles == Cyclic(order[..i])
    {
      assert order[..i + 1][..i] == order[..i];
      if |order[i]| > 1 { cycles := cycles + [order[i]]; }
    }
    assert order[..|order|] == order;
  }

  method MigrationOrder(nodes: seq<Name>, edges: seq<(Name, Name)>)
      returns (order: seq<seq<Name>>, cycles: seq<seq<Name>>)
    requires EdgesInside(Elements(nodes), Elements(edges))
    ensures Input(SortedAdjacency(LexLe, nodes, edges), Sort(LexLe, nodes))
    ensures order == Batches(Sort(LexLe, nodes), SortedAdjacency(LexLe, nodes, edges))
    ensures Components(SortedAdjacency(LexLe, nodes, edges), order)
    ensures cycles == Cyclic(order)
  {
    ghost var indexed, examined, passes;
    order, indexed, examined, passes := TarjanScc(nodes, edges);
    cycles := LargeBatches(order);
  }

  // ---------- Properties

  lemma {:induction false} CyclicMembers<T(!new)>(sccs: seq<seq<T>>)
    ensures forall s :: s in Cyclic(sccs) <==> s in sccs && |s| > 1
  {
    if sccs != [] {
      var init := sccs[..|sccs| - 1];
      CyclicMembers(init);
      assert sccs == init + [sccs[|sccs| - 1]];
    }
  }

  /** Across batches every edge points to a strictly earlier batch. */
  lemma DependenciesFirst<T(!new)>(adj: Adjacency<T>, sccs: seq<seq<T>>, i: nat, j: nat, a: T, b: T)
    requires Components(adj, sccs) && i < |sccs| && j < |sccs| && a in sccs[i] && b in sccs[j]
    requires Edge(adj, a, b) && i != j
    ensures j < i
  {
    ReachEdge(adj, a, b);
  }

  ghost predicate NoSelfLoops<T(!new)>(adj: Adjacency<T>) {
    forall a :: !Edge(adj, a, a)
  }

  /** A batch of two nodes makes each of them lie on a cycle. */
  lemma MutualOnCycle<T(!new)>(adj: Adjacency<T>, a: T, b: T)
    requires Mutual(adj, a, b) && a != b
    ensures OnCycle(adj, a)
  {
    var p :| IsPath(adj, a, p, b);
    assert IsPath(adj, p[0], p[1..], b);
    ReachTransitive(adj, p[0], b, a);
  }

  lemma TwoMembers<T(!new)>(s: seq<T>)
    requires NoDuplicates(s) && s != []
    ensures |s| > 1 <==> exists a, b :: a in s && b in s && a != b
  {
    if |s| > 1 { assert s[0] in s && s[1] in s && s[0] != s[1]; }
  }

  lemma LargeBatchOnCycle<T(!new)>(adj: Adjacency<T>, sccs: seq<seq<T>>, i: nat)
    requires Components(adj, sccs) && i < |sccs| && |sccs[i]| > 1
    ensures !Acyclic(adj)
  {
    var a, b := sccs[i][0], sccs[i][1];
    assert a in sccs[i] && b in sccs[i] && a != b;
    MutualOnCycle(adj, a, b);
  }

  lemma CycleInLargeBatch<T(!new)>(adj: Adjacency<T>, sccs: seq<seq<T>>, a: T, b: T)
    requires WellFormed(adj) && Components(adj, sccs) && Edge(adj, a, b) && Reach(adj, b, a) && a != b
    ensures exists i :: 0 <= i < |sccs| && |sccs[i]| > 1
  {
    ReachEdge(adj, a, b);
    assert a in adj && b in adj;
    var i :| 0 <= i < |sccs| && a in sccs[i];
    var j :| 0 <= j < |sccs| && b in sccs[j];
    assert Mutual(adj, a, b);
    assert i == j;
    TwoMembers(sccs[i]);
  }

  /** With no self-loops the cycle list is empty exactly for acyclic graphs. */
  lemma CyclesEmptyIffAcyclic<T(!new)>(adj: Adjacency<T>, sccs: seq<seq<T>>)
    requires WellFormed(adj) && Components(adj, sccs) && NoSelfLoops(adj)
    ensures Cyclic(sccs) == [] <==> Acyclic(adj)
  {
    CyclicMembers(sccs);
    if Cyclic(sccs) != [] {
      assert Cyclic(sccs)[0] in Cyclic(sccs);
      var i :| 0 <= i < |sccs| && sccs[i] == Cyclic(sccs)[0];
      LargeBatchOnCycle(adj, sccs, i);
    }
    if !Acyclic(adj) {
      var a :| OnCycle(adj, a);
      var b :| Edge(adj, a, b) && Reach(adj, b, a);
      CycleInLargeBatch(adj, sccs, a, b);
      var i :| 0 <= i < |sccs| && |sccs[i]| > 1;
      assert sccs[i] in Cyclic(sccs);
    }
  }

  function Flatten<T>(sccs: seq<seq<T>>): seq<T> {
    if sccs == [] then [] else sccs[0] + Flatten(sccs[1..])
  }

  lemma {:induction false} FlattenSingletons<T(!new)>(sccs: seq<seq<T>>)
    requires forall s | s in sccs :: |s| == 1
    ensures |Flatten(sccs)| == |sccs|
    ensures forall k | 0 <= k < |sccs| :: Flatten(sccs)[k] == sccs[k][0]
  {
    if sccs != [] {
      assert sccs[0] in sccs;
      assert forall s | s in sccs[1..] :: s in sccs;
      FlattenSingletons(sccs[1..]);
      forall k | 0 <= k < |sccs| ensures Flatten(sccs)[k] == sccs[k][0] {
        if k > 0 { assert sccs[k] == sccs[1..][k - 1]; }
      }
    }
  }

  ghost predicate TopologicalSort<T(!new)>(adj: Adjacency<T>, order: seq<T>) {
    && NoDuplicates(order) && (forall v :: v in order <==> v in adj)
    && forall i, j | 0 <= i < |order| && 0 <= j < |order| && Edge(adj, order[i], order[j]) :: j < i
  }

  /** On an acyclic graph the batches are single nodes in topological order. */
  lemma AcyclicOrderIsTopological<T(!new)>(adj: Adjacency<T>, sccs: seq<seq<T>>)
    requires WellFormed(adj) && Components(adj, sccs) && Acyclic(adj)
    ensures TopologicalSort(adj, Flatten(sccs))
  {
    forall a ensures !Edge(adj, a, a) {
      ReachSelf(adj, a);
      assert !OnCycle(adj, a);
    }
    CyclesEmptyIffAcyclic(adj, sccs);
    CyclicMembers(sccs);
    forall s | s in sccs ensures |s| == 1 {
      assert s !in Cyclic(sccs);
      var i :| 0 <= i < |sccs| && sccs[i] == s;
    }
    FlattenSingletons(sccs);
    SingletonsTopological(adj, sccs, Flatten(sccs));
  }

  lemma SingletonsTopological<T(!new)>(adj: Adjacency<T>, sccs: seq<seq<T>>, flat: seq<T>)
    requires Components(adj, sccs) && NoSelfLoops(adj) && |flat| == |sccs|
    requires forall k | 0 <= k < |sccs| :: |sccs[k]| == 1 && sccs[k][0] == flat[k]
    ensures TopologicalSort(adj, flat)
  {
    forall i, j | 0 <= i < j < |flat| ensures flat[i] != flat[j] {
      assert flat[i] in sccs[i] && flat[j] in sccs[j];
      ReachSelf(adj, flat[i]);
    }
    forall v ensures v in flat <==> v in adj {
      if v in flat {
        var i :| 0 <= i < |flat| && flat[i] == v;
        assert v in sccs[i];
      }
      if v in adj {
        var i :| 0 <= i < |sccs| && v in sccs[i];
        assert v == flat[i];
      }
    }
    forall i, j | 0 <= i < |flat| && 0 <= j < |flat| && Edge(adj, flat[i], flat[j]) ensures j < i {
      assert flat[i] in sccs[i] && flat[j] in sccs[j];
      if i != j { DependenciesFirst(adj, sccs, i, j, flat[i], flat[j]); }
    }
  }

  // ---------- The order of the batches

  /** `s` from the first name to the last in dictionary order, repeats side by side. */
  ghost predicate InDictionaryOrder(s: seq<Name>) {
    forall i, j | 0 <= i < j < |s| :: s[i] == s[j] || ComesBefore(s[i], s[j])
  }

  lemma SortedNames(s: seq<Name>)
    ensures InDictionaryOrder(Sort(LexLe, s))
  {
    LexIsTotalOrder();
    SortSorted(LexLe, s);
    var t := Sort(LexLe, s);
    forall i, j | 0 <= i < j < |t| ensures t[i] == t[j] || ComesBefore(t[i], t[j]) { LexLeIff(t[i], t[j]); }
  }

  /** depmap_python.py: a recursive depth-first search that tries the names, and the
      targets of each, in dictionary order decides the order of the batches: of two nodes in
      different ones the node visited first is in the earlier, unless it reaches the other. */
  lemma BatchOrder(nodes: seq<Name>, edges: seq<(Name, Name)>, order: seq<Name>, p: nat, q: nat, i: nat, j: nat)
    requires EdgesInside(Elements(nodes), Elements(edges))
    requires Input(SortedAdjacency(LexLe, nodes, edges), Sort(LexLe, nodes))
    requires Nodes(SortedAdjacency(LexLe, nodes, edges), Sort(LexLe, nodes))
    requires order == Dfs(SortedAdjacency(LexLe, nodes, edges), [], Sort(LexLe, nodes)) && p < q < |order|
    requires var sccs := Batches(Sort(LexLe, nodes), SortedAdjacency(LexLe, nodes, edges));
             i < |sccs| && j < |sccs| && i != j && order[p] in sccs[i] && order[q] in sccs[j]
    ensures i < j <==> !Reach(SortedAdjacency(LexLe, nodes, edges), order[p], order[q])
    ensures InDictionaryOrder(Sort(LexLe, nodes))
    ensures forall n | n in SortedAdjacency(LexLe, nodes, edges) :: InDictionaryOrder(SortedAdjacency(LexLe, nodes, edges)[n])
  {
    EmissionOrder(LexLe, SortedAdjacency(LexLe, nodes, edges), Sort(LexLe, nodes), order, p, q, i, j);
    SortedNames(nodes);
    forall n | n in SortedAdjacency(LexLe, nodes, edges) ensures InDictionaryOrder(SortedAdjacency(LexLe, nodes, edges)[n]) {
      SortedNames(Targets(edges, n));
    }
  }

  // ---------- Only the sets of nodes and edges matter

  lemma LeanAdjacency(nodes: seq<Name>, edges: seq<(Name, Name)>, nodes': seq<Name>, edges': seq<(Name, Name)>)
    requires forall n :: n in nodes <==> n in nodes'
    requires forall e :: e in edges <==> e in edges'
    ensures Lean(SortedAdjacency(LexLe, nodes, edges)) == Lean(SortedAdjacency(LexLe, nodes', edges'))
  {
    LexIsTotalOrder();
    forall n ensures Distinct(Sort(LexLe, Targets(edges, n))) == Distinct(Sort(LexLe, Targets(edges', n))) {
      forall m ensures m in Targets(edges, n) <==> m in Targets(edges', n) {
        TargetsListed(edges, n, m);
        TargetsListed(edges', n, m);
      }
      DistinctSort(LexLe, Targets(edges, n), Targets(edges', n));
    }
  }

  /** depmap_python.py: however often and in whatever order nodes and edges are listed,
      the same batches are emitted in the same order. */
  lemma OnlySetsMatter(nodes: seq<Name>, edges: seq<(Name, Name)>, nodes': seq<Name>, edges': seq<(Name, Name)>)
    requires EdgesInside(Elements(nodes), Elements(edges))
    requires forall n :: n in nodes <==> n in nodes'
    requires forall e :: e in edges <==> e in edges'
    ensures EdgesInside(Elements(nodes'), Elements(edges'))
    ensures Input(SortedAdjacency(LexLe, nodes, edges), Sort(LexLe, nodes))
    ensures Input(SortedAdjacency(LexLe, nodes', edges'), Sort(LexLe, nodes'))
    ensures Batches(Sort(LexLe, nodes), SortedAdjacency(LexLe, nodes, edges))
         == Batches(Sort(LexLe, nodes'), SortedAdjacency(LexLe, nodes', edges'))
  {
    LexIsTotalOrder();
    AdjacencyEdges(LexLe, nodes, edges);
    AdjacencyEdges(LexLe, nodes', edges');
    LeanAdjacency(nodes, edges, nodes', edges');
    DistinctSort(LexLe, nodes, nodes');
    RepeatsIrrelevant(LexLe, SortedAdjacency(LexLe, nodes, edges), Sort(LexLe, nodes));
    RepeatsIrrelevant(LexLe, SortedAdjacency(LexLe, nodes', edges'), Sort(LexLe, nodes'));
  }

  /** depmap_c.py: given the order of the nodes, only the set of edges matters. */
  lemma OnlyEdgeSetMatters(nodes: seq<Name>, edges: seq<(Name, Name)>, edges': seq<(Name, Name)>)
    requires EdgesInside(Elements(nodes), Elements(edges))
    requires forall e :: e in edges <==> e in edges'
    ensures EdgesInside(Elements(nodes), Elements(edges'))
    ensures Input(SortedAdjacency(LexLe, nodes, edges), nodes)
    ensures Input(SortedAdjacency(LexLe, nodes, edges'), nodes)
    ensures Batches(nodes, SortedAdjacency(LexLe, nodes, edges)) == Batches(nodes, SortedAdjacency(LexLe, nodes, edges'))
  {
    AdjacencyEdges(LexLe, nodes, edges);
    AdjacencyEdges(LexLe, nodes, edges');
    LeanAdjacency(nodes, edges, nodes, edges');
    RepeatsIrrelevant(LexLe, SortedAdjacency(LexLe, nodes, edges), nodes);
    RepeatsIrrelevant(LexLe, SortedAdjacency(LexLe, nodes, edges'), nodes);
  }

  // ---------- Linear work

  /** One adjacency slot per listed edge. */
  ghost function Slots<T>(edges: seq<(T, T)>): seq<(T, nat)> {
    if edges == [] then []
    else
      var init := edges[..|edges| - 1];
      Slots(init) + [(edges[|edges| - 1].0, |Targets(init, edges[|edges| - 1].0)|)]
  }

  lemma {:induction false} SlotsListed<T(!new)>(edges: seq<(T, T)>)
    ensures |Slots(edges)| == |edges| && NoDuplicates(Slots(edges))
    ensures forall n, q: nat :: (n, q) in Slots(edges) <==> q < |Targets(edges, n)|
  {
    if edges != [] {
      var init := edges[..|edges| - 1];
      var e := edges[|edges| - 1];
      SlotsListed(init);
      var last := (e.0, |Targets(init, e.0)|);
      assert last !in Slots(init);
      forall n, q: nat ensures (n, q) in Slots(edges) <==> q < |Targets(edges, n)| {
        assert (n, q) in Slots(edges) <==> (n, q) in Slots(init) || (n, q) == last;
      }
    }
  }

  lemma TargetsOutside<T(!new)>(nodes: seq<T>, edges: seq<(T, T)>, n: T)
    requires EdgesInside(Elements(nodes), Elements(edges)) && n !in nodes
    ensures Targets(edges, n) == []
  {
    if Targets(edges, n) != [] { TargetsListed(edges, n, Targets(edges, n)[0]); }
  }

  /** The slots of the adjacency lists are those of the listed edges. */
  lemma SlotsOfLists(nodes: seq<Name>, edges: seq<(Name, Name)>, n: Name, q: nat)
    requires EdgesInside(Elements(nodes), Elements(edges))
    ensures var adj := SortedAdjacency(LexLe, nodes, edges);
            n in adj && q < |adj[n]| <==> q < |Targets(edges, n)|
  {
    if n in nodes {
      SameMembers(Sort(LexLe, Targets(edges, n)), Targets(edges, n));
    } else {
      TargetsOutside(nodes, edges, n);
    }
  }

  lemma LooksAreSlots(nodes: seq<Name>, edges: seq<(Name, Name)>, looks: seq<(Name, nat)>)
    requires EdgesInside(Elements(nodes), Elements(edges)) && NoDuplicates(looks)
    requires var adj := SortedAdjacency(LexLe, nodes, edges);
             forall n, q: nat :: (n, q) in looks <==> n in adj && q < |adj[n]|
    ensures |looks| == |edges|
  {
    SlotsListed(edges);
    forall x ensures x in looks <==> x in Slots(edges) {
      assert x == (x.0, x.1);
      SlotsOfLists(nodes, edges, x.0, x.1);
    }
    SetsAsMultisets(looks, Slots(edges));
  }

  lemma WorkOf(nodes: seq<Name>, edges: seq<(Name, Name)>, adj: Adjacency<Name>, f: State<Name>)
    requires EdgesInside(Elements(nodes), Elements(edges)) && adj == SortedAdjacency(LexLe, nodes, edges)
    requires LinearWork(adj, f)
    ensures NoDuplicates(f.opens) && (forall v :: v in f.opens <==> v in nodes) && |f.opens| == |Elements(nodes)|
    ensures NoDuplicates(f.looks) && |f.looks| == |edges|
  {
    LooksAreSlots(nodes, edges, f.looks);
    ElementsCount(f.opens);
    assert Elements(f.opens) == Elements(nodes);
  }

  lemma StartsInput(nodes: seq<Name>, edges: seq<(Name, Name)>, starts: seq<Name>)
    requires EdgesInside(Elements(nodes), Elements(edges)) && forall v :: v in starts <==> v in nodes
    ensures var adj := SortedAdjacency(LexLe, nodes, edges); Input(adj, starts) && forall v | v in adj :: v in starts
  {
    AdjacencyEdges(LexLe, nodes, edges);
  }

  /** Every node is opened once and every listed edge examined once. */
  lemma WorkIsLinear(nodes: seq<Name>, edges: seq<(Name, Name)>, starts: seq<Name>)
    requires EdgesInside(Elements(nodes), Elements(edges)) && forall v :: v in starts <==> v in nodes
    ensures Input(SortedAdjacency(LexLe, nodes, edges), starts)
    ensures var f := Final(LexLe, SortedAdjacency(LexLe, nodes, edges), starts);
            && NoDuplicates(f.opens) && (forall v :: v in f.opens <==> v in nodes) && |f.opens| == |Elements(nodes)|
            && NoDuplicates(f.looks) && |f.looks| == |edges|
  {
    var adj := SortedAdjacency(LexLe, nodes, edges);
    StartsInput(nodes, edges, starts);
    assert LinearWork(adj, Final(LexLe, adj, starts)) by { RunCorrect(LexLe, adj, starts); }
    WorkOf(nodes, edges, adj, Final(LexLe, adj, starts));
  }
}
