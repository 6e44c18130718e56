/** Whole runs of the machine: termination, what the final state says about the
    graph, and the loop that carries the machine out. */
module TarjanRun {
  import opened Ordering
  import opened Graphs
  import opened TarjanMachine
  import opened TarjanInvariant
  import opened TarjanClose

  ghost function Reaches<T(!new)>(adj: Adjacency<T>): (T, T) -> bool {
    (a, b) => Reach(adj, a, b)
  }

  lemma ReachesPreorder<T(!new)>(adj: Adjacency<T>)
    ensures Preorder(adj, Reaches(adj))
  {
    var r := Reaches(adj);
    forall a ensures r(a, a) { ReachSelf(adj, a); }
    forall a, b | Edge(adj, a, b) ensures r(a, b) { ReachEdge(adj, a, b); }
    forall a, b, c | r(a, b) && r(b, c) ensures r(a, c) { ReachTransitive(adj, a, b, c); }
  }

  ghost predicate Input<T(!new)>(adj: Adjacency<T>, starts: seq<T>) {
    WellFormed(adj) && forall v | v in starts :: v in adj
  }

  lemma TopFacts<T(!new)>(adj: Adjacency<T>, r: (T, T) -> bool, starts: seq<T>, s: State<T>)
    requires Inv(adj, r, starts, s) && s.work != []
    ensures TopReady(adj, s) && s.pos[Last(s.work)] <= |adj[Last(s.work)]|
    ensures NoDuplicates(s.work) && NoDuplicates(s.stack) && s.pos.Keys == s.index.Keys
  {
    assert Last(s.work) in s.work;
    IncreasingDistinct(s.index, s.work);
    IncreasingDistinct(s.index, s.stack);
  }

  lemma NextStarted<T>(starts: seq<T>, k: nat, index: map<T, nat>)
    requires Started(starts, k, index) && k < |starts| && starts[k] in index
    ensures Started(starts, k + 1, index)
  {
  }

  lemma MarkStarted<T(!new)>(adj: Adjacency<T>, r: (T, T) -> bool, starts: seq<T>, s: State<T>)
    requires Inv(adj, r, starts, s) && s.started < |starts| && starts[s.started] in s.index
    ensures Inv(adj, r, starts, s.(started := s.started + 1))
  {
    var n := s.(started := s.started + 1);
    NextStarted(starts, s.started, s.index);
    forall u | u in n.stack ensures LowReached(r, n, u) { assert LowReached(r, s, u); }
    forall u, q: nat | Slot(adj, n, u, q) ensures Accounted(n, u, adj[u][q]) { assert Slot(adj, s, u, q); }
  }

  lemma OpenRoot<T(!new)>(adj: Adjacency<T>, r: (T, T) -> bool, starts: seq<T>, s: State<T>, v: T)
    requires Preorder(adj, r) && Inv(adj, r, starts, s) && s.work == [] && v in adj && v !in s.index
    ensures Inv(adj, r, starts, Open(s, v))
  {
    assert s.stack == [];
    assert ScannedBut(adj, s, v);
    OpenInv(adj, r, starts, s, v);
  }

  lemma StartRoot<T(!new)>(adj: Adjacency<T>, r: (T, T) -> bool, starts: seq<T>, s: State<T>)
    requires Preorder(adj, r) && Inv(adj, r, starts, s) && s.work == [] && s.started < |starts|
    requires starts[s.started] in adj && starts[s.started] !in s.index
    ensures Inv(adj, r, starts, Open(s.(started := s.started + 1), starts[s.started]))
  {
    var v := starts[s.started];
    var o := Open(s, v);
    OpenRoot(adj, r, starts, s, v);
    MarkStarted(adj, r, starts, o);
    assert o.(started := s.started + 1) == Open(s.(started := s.started + 1), v);
  }

  lemma StepInv<T(!new)>(le: (T, T) -> bool, adj: Adjacency<T>, r: (T, T) -> bool, starts: seq<T>, s: State<T>)
    requires Preorder(adj, r) && Input(adj, starts) && Inv(adj, r, starts, s) && !Done(starts, s)
    ensures s.work != [] ==> TopReady(adj, s)
    ensures Inv(adj, r, starts, Step(le, adj, starts, s))
  {
    if s.work == [] {
      if starts[s.started] in s.index {
        MarkStarted(adj, r, starts, s);
      } else {
        assert starts[s.started] in starts;
        StartRoot(adj, r, starts, s);
      }
    } else {
      TopFacts(adj, r, starts, s);
      if s.pos[Last(s.work)] < |adj[Last(s.work)]| {
        LookInv(adj, r, starts, s);
      } else {
        CloseInv(le, adj, r, starts, s);
      }
    }
  }

  ghost function Left<T>(adj: Adjacency<T>, s: State<T>): nat {
    if s.work != [] && Last(s.work) in adj && Last(s.work) in s.pos && s.pos[Last(s.work)] <= |adj[Last(s.work)]|
    then |adj[Last(s.work)]| - s.pos[Last(s.work)] else 0
  }

  lemma OpenDecreases<T(!new)>(adj: Adjacency<T>, s: State<T>, n: State<T>, v: T)
    requires v in adj && v !in s.index && n.index.Keys == s.index.Keys + {v}
    ensures adj.Keys - n.index.Keys < adj.Keys - s.index.Keys
  {
    assert v in adj.Keys - s.index.Keys && v !in adj.Keys - n.index.Keys;
  }

  lemma StepDecreases<T(!new)>(le: (T, T) -> bool, adj: Adjacency<T>, starts: seq<T>, s: State<T>)
    requires Input(adj, starts) && !Done(starts, s)
    requires s.work != [] ==> TopReady(adj, s)
    ensures var n := Step(le, adj, starts, s);
            || adj.Keys - n.index.Keys < adj.Keys - s.index.Keys
            || (n.index == s.index
                && (|starts| - n.started < |starts| - s.started
                    || (n.started == s.started
                        && (|n.work| < |s.work| || (|n.work| == |s.work| && Left(adj, n) < Left(adj, s))))))
  {
    var n := Step(le, adj, starts, s);
    if s.work == [] {
      if starts[s.started] !in s.index { OpenDecreases(adj, s, n, starts[s.started]); }
    } else if s.pos[Last(s.work)] < |adj[Last(s.work)]| {
      var v := Last(s.work);
      var y := adj[v][s.pos[v]];
      assert Edge(adj, v, y);
      if y !in s.index { OpenDecreases(adj, s, n, y); }
    }
  }

  /** A set of states closed under steps, with what a step needs to know of its members. */
  ghost predicate Follows<T(!new)>(le: (T, T) -> bool, adj: Adjacency<T>, starts: seq<T>, live: State<T> -> bool) {
    && Input(adj, starts)
    && (forall s {:trigger live(s)} | live(s) && s.work != [] ::
          && TopReady(adj, s) && s.pos[Last(s.work)] <= |adj[Last(s.work)]|
          && NoDuplicates(s.work) && NoDuplicates(s.stack) && s.pos.Keys == s.index.Keys)
    && (forall s {:trigger Step(le, adj, starts, s)} | live(s) && !Done(starts, s) :: live(Step(le, adj, starts, s)))
  }

  /** The final state: the machine always comes to rest. */
  ghost function Run<T(!new)>(le: (T, T) -> bool, adj: Adjacency<T>, starts: seq<T>, live: State<T> -> bool,
                              s: State<T>): (f: State<T>)
    requires Follows(le, adj, starts, live) && live(s)
    ensures live(f) && Done(starts, f)
    decreases adj.Keys - s.index.Keys, |starts| - s.started, |s.work|, Left(adj, s)
  {
    if Done(starts, s) then s
    else
      StepDecreases(le, adj, starts, s);
      Run(le, adj, starts, live, Step(le, adj, starts, s))
  }

  ghost function LiveStates<T(!new)>(adj: Adjacency<T>, starts: seq<T>): State<T> -> bool {
    s => Inv(adj, Reaches(adj), starts, s)
  }

  lemma LiveFollows<T(!new)>(le: (T, T) -> bool, adj: Adjacency<T>, starts: seq<T>)
    requires Input(adj, starts)
    ensures Follows(le, adj, starts, LiveStates(adj, starts))
    ensures LiveStates(adj, starts)(Initial())
  {
    var live := LiveStates(adj, starts);
    InitialInv(adj, Reaches(adj), starts);
    ReachesPreorder(adj);
    forall s | live(s) && s.work != []
      ensures TopReady(adj, s) && s.pos[Last(s.work)] <= |adj[Last(s.work)]|
      ensures NoDuplicates(s.work) && NoDuplicates(s.stack) && s.pos.Keys == s.index.Keys
    {
      TopFacts(adj, Reaches(adj), starts, s);
    }
    forall s | live(s) && !Done(starts, s) ensures live(Step(le, adj, starts, s)) {
      StepInv(le, adj, Reaches(adj), starts, s);
    }
  }

  /** The state in which the whole computation ends. */
  ghost function Final<T(!new)>(le: (T, T) -> bool, adj: Adjacency<T>, starts: seq<T>): State<T>
    requires Input(adj, starts)
  {
    LiveFollows(le, adj, starts);
    Run(le, adj, starts, LiveStates(adj, starts), Initial())
  }

  // ---------- What the final state means

  /** `sccs` partitions the nodes into the classes of mutual reachability, and
      whatever a node reaches is in its own batch or an earlier one. */
  ghost predicate Components<T(!new)>(adj: Adjacency<T>, sccs: seq<seq<T>>) {
    && (forall v :: v in adj <==> exists i :: 0 <= i < |sccs| && v in sccs[i])
    && (forall i | 0 <= i < |sccs| :: sccs[i] != [] && NoDuplicates(sccs[i]))
    && (forall i, j, a, b | 0 <= i < |sccs| && 0 <= j < |sccs| && a in sccs[i] && b in sccs[j] ::
          && (i == j <==> Mutual(adj, a, b))
          && (Reach(adj, a, b) ==> j <= i))
  }

  lemma {:induction false} BatchesClosed<T(!new)>(adj: Adjacency<T>, r: (T, T) -> bool, s: State<T>, a: T, p: seq<T>, b: T)
    requires Emitted(adj, r, s.comp, s.sccs) && a in s.comp && IsPath(adj, a, p, b)
    ensures b in s.comp && s.comp[b] <= s.comp[a]
  {
    if p != [] { BatchesClosed(adj, r, s, p[0], p[1..], b); }
  }

  lemma ReachEarlier<T(!new)>(adj: Adjacency<T>, r: (T, T) -> bool, s: State<T>, a: T, b: T)
    requires Emitted(adj, r, s.comp, s.sccs) && a in s.comp && Reach(adj, a, b)
    ensures b in s.comp && s.comp[b] <= s.comp[a]
  {
    var p :| IsPath(adj, a, p, b);
    BatchesClosed(adj, r, s, a, p, b);
  }

  lemma BatchesOrdered<T(!new)>(adj: Adjacency<T>, s: State<T>, a: T, b: T)
    requires Emitted(adj, Reaches(adj), s.comp, s.sccs) && a in s.comp && b in s.comp
    ensures s.comp[a] == s.comp[b] <==> Mutual(adj, a, b)
    ensures Reach(adj, a, b) ==> s.comp[b] <= s.comp[a]
  {
    var r := Reaches(adj);
    if Reach(adj, a, b) { ReachEarlier(adj, r, s, a, b); }
    if Reach(adj, b, a) { ReachEarlier(adj, r, s, b, a); }
    if s.comp[a] == s.comp[b] { assert r(a, b) && r(b, a); }
  }

  lemma EmittedOnce<T(!new)>(adj: Adjacency<T>, r: (T, T) -> bool, comp: map<T, nat>, sccs: seq<seq<T>>)
    requires Emitted(adj, r, comp, sccs)
    ensures forall v :: v in comp <==> exists i :: 0 <= i < |sccs| && v in sccs[i]
    ensures forall i, v | 0 <= i < |sccs| && v in sccs[i] :: v in comp && comp[v] == i
    ensures forall i | 0 <= i < |sccs| :: sccs[i] != [] && NoDuplicates(sccs[i])
  {
    forall v | v in comp ensures exists i :: 0 <= i < |sccs| && v in sccs[i] {
      assert v in sccs[comp[v]];
    }
  }

  lemma ClassesAreComponents<T(!new)>(adj: Adjacency<T>, comp: map<T, nat>, sccs: seq<seq<T>>)
    requires comp.Keys == adj.Keys
    requires forall v :: v in comp <==> exists i :: 0 <= i < |sccs| && v in sccs[i]
    requires forall i, v | 0 <= i < |sccs| && v in sccs[i] :: v in comp && comp[v] == i
    requires forall i | 0 <= i < |sccs| :: sccs[i] != [] && NoDuplicates(sccs[i])
    requires forall a, b | a in comp && b in comp ::
               (comp[a] == comp[b] <==> Mutual(adj, a, b)) && (Reach(adj, a, b) ==> comp[b] <= comp[a])
    ensures Components(adj, sccs)
  {
    assert forall v :: v in adj <==> v in comp;
  }

  lemma EmittedComponents<T(!new)>(adj: Adjacency<T>, s: State<T>)
    requires Emitted(adj, Reaches(adj), s.comp, s.sccs) && s.comp.Keys == adj.Keys
    ensures Components(adj, s.sccs)
  {
    EmittedOnce(adj, Reaches(adj), s.comp, s.sccs);
    forall a, b | a in s.comp && b in s.comp
      ensures (s.comp[a] == s.comp[b] <==> Mutual(adj, a, b)) && (Reach(adj, a, b) ==> s.comp[b] <= s.comp[a])
    {
      BatchesOrdered(adj, s, a, b);
    }
    ClassesAreComponents(adj, s.comp, s.sccs);
  }

  /** Each node is opened once and each adjacency slot examined once. */
  ghost predicate LinearWork<T(!new)>(adj: Adjacency<T>, s: State<T>) {
    && NoDuplicates(s.opens) && (forall v :: v in s.opens <==> v in adj)
    && NoDuplicates(s.looks) && (forall v, q: nat :: (v, q) in s.looks <==> v in adj && q < |adj[v]|)
  }

  lemma AllOpened<T(!new)>(starts: seq<T>, index: map<T, nat>, adj: Adjacency<T>)
    requires Started(starts, |starts|, index) && forall v | v in adj :: v in starts
    ensures forall v | v in adj :: v in index
  {
    forall v | v in adj ensures v in index {
      var i :| 0 <= i < |starts| && starts[i] == v;
    }
  }

  lemma OpensOnce<T(!new)>(adj: Adjacency<T>, index: map<T, nat>, opens: seq<T>)
    requires Numbered(adj, index, opens)
    ensures NoDuplicates(opens) && forall v :: v in opens <==> v in index
  {
    forall i, j | 0 <= i < j < |opens| ensures opens[i] != opens[j] {
      assert index[opens[i]] == i && index[opens[j]] == j;
    }
  }

  lemma AllEmitted<T(!new)>(adj: Adjacency<T>, r: (T, T) -> bool, starts: seq<T>, f: State<T>)
    requires Inv(adj, r, starts, f) && Done(starts, f) && forall v | v in adj :: v in starts
    ensures f.comp.Keys == adj.Keys && LinearWork(adj, f)
  {
    assert f.stack == [];
    assert f.started == |starts|;
    AllOpened(starts, f.index, adj);
    assert f.index.Keys == adj.Keys;
    OpensOnce(adj, f.index, f.opens);
    forall v, q: nat ensures (v, q) in f.looks <==> v in adj && q < |adj[v]| {
      assert v in f.pos <==> v in adj;
      if v in f.pos { assert f.pos[v] == |adj[v]|; }
    }
  }

  lemma RunCorrect<T(!new)>(le: (T, T) -> bool, adj: Adjacency<T>, starts: seq<T>)
    requires Input(adj, starts) && forall v | v in adj :: v in starts
    ensures Components(adj, Final(le, adj, starts).sccs)
    ensures LinearWork(adj, Final(le, adj, starts))
  {
    LiveFollows(le, adj, starts);
    var f := Final(le, adj, starts);
    AllEmitted(adj, Reaches(adj), starts, f);
    EmittedComponents(adj, f);
  }

  ghost predicate AllSorted<T>(le: (T, T) -> bool, sccs: seq<seq<T>>) {
    forall i | 0 <= i < |sccs| :: SortedBy(le, sccs[i])
  }

  lemma AppendSorted<T(!new)>(le: (T, T) -> bool, sccs: seq<seq<T>>, s: seq<T>)
    requires TotalOrder(le) && AllSorted(le, sccs)
    ensures AllSorted(le, sccs + [Sort(le, s)])
  {
    SortSorted(le, s);
  }

  lemma StepSorted<T(!new)>(le: (T, T) -> bool, adj: Adjacency<T>, starts: seq<T>, s: State<T>)
    requires !Done(starts, s) && (s.work != [] ==> TopReady(adj, s))
    requires AllSorted(le, s.sccs) && TotalOrder(le)
    ensures AllSorted(le, Step(le, adj, starts, s).sccs)
  {
    if s.work != [] && s.pos[Last(s.work)] >= |adj[Last(s.work)]| {
      CloseTables(le, adj, s);
      AppendSorted(le, s.sccs, Reversed(s.stack[IndexOf(s.stack, Last(s.work))..]));
    }
  }

  lemma {:induction false} RunSorted<T(!new)>(le: (T, T) -> bool, adj: Adjacency<T>, starts: seq<T>,
                                              live: State<T> -> bool, s: State<T>)
    requires Follows(le, adj, starts, live) && live(s) && TotalOrder(le) && AllSorted(le, s.sccs)
    ensures AllSorted(le, Run(le, adj, starts, live, s).sccs)
    decreases adj.Keys - s.index.Keys, |starts| - s.started, |s.work|, Left(adj, s)
  {
    if !Done(starts, s) {
      StepDecreases(le, adj, starts, s);
      StepSorted(le, adj, starts, s);
      RunSorted(le, adj, starts, live, Step(le, adj, starts, s));
    }
  }

  lemma FinalSorted<T(!new)>(le: (T, T) -> bool, adj: Adjacency<T>, starts: seq<T>)
    requires Input(adj, starts) && TotalOrder(le)
    ensures AllSorted(le, Final(le, adj, starts).sccs)
  {
    LiveFollows(le, adj, starts);
    RunSorted(le, adj, starts, LiveStates(adj, starts), Initial());
  }
}
