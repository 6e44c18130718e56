/** Closing a frame keeps the invariant: either the node joins a component still
    being built, or everything stacked from it upwards is one component. */
module TarjanClose {
  import opened Ordering
  import opened Graphs
  import opened TarjanMachine
  import opened TarjanInvariant

  ghost predicate CanClose<T(!new)>(adj: Adjacency<T>, s: State<T>) {
    && TopReady(adj, s) && s.pos[Last(s.work)] == |adj[Last(s.work)]|
  }

  function Rest<T>(work: seq<T>): seq<T>
    requires work != []
  {
    work[..|work| - 1]
  }

  lemma IncreasingDistinct<T>(index: map<T, nat>, q: seq<T>)
    requires Increasing(index, q)
    ensures NoDuplicates(q)
  {
    forall i, j | 0 <= i < j < |q| ensures q[i] != q[j] {
      assert index[q[i]] < index[q[j]];
    }
  }

  /** The top frame has the highest number of all frames. */
  lemma RestFacts<T>(index: map<T, nat>, work: seq<T>)
    requires Increasing(index, work) && work != []
    ensures Increasing(index, Rest(work))
    ensures forall w :: w in work <==> w in Rest(work) || w == Last(work)
    ensures forall w | w in Rest(work) :: index[w] < index[Last(work)]
    ensures forall i | 0 <= i < |Rest(work)| :: index[Rest(work)[i]] < index[Last(work)]
  {
    assert work == Rest(work) + [Last(work)];
    forall w | w in Rest(work) ensures index[w] < index[Last(work)] {
      var i :| 0 <= i < |Rest(work)| && Rest(work)[i] == w;
      assert work[i] == w;
    }
  }

  lemma RestNextFrame<T>(index: map<T, nat>, work: seq<T>, u: T, y: T)
    requires Increasing(index, work) && work != [] && NextFrame(work, u, y)
    ensures NextFrame(Rest(work), u, y) || (Rest(work) != [] && u == Last(Rest(work)) && y == Last(work))
    ensures u != Last(work)
  {
    IncreasingDistinct(index, work);
    var j :| 0 <= j && j + 1 < |work| && work[j] == u && work[j + 1] == y;
    if j + 1 < |Rest(work)| {
      assert Rest(work)[j] == u && Rest(work)[j + 1] == y;
    }
  }

  lemma SliceIncreasing<T>(index: map<T, nat>, q: seq<T>, lo: nat, hi: nat)
    requires Increasing(index, q) && lo <= hi <= |q|
    ensures Increasing(index, q[lo..hi])
  {
    var t := q[lo..hi];
    forall i, j | 0 <= i < j < |t| ensures index[t[i]] < index[t[j]] {
      assert t[i] == q[lo + i] && t[j] == q[lo + j];
    }
  }

  /** The stack from `v` upwards is the part numbered at least `index[v]`. */
  lemma CutBounds<T>(index: map<T, nat>, stack: seq<T>, cut: nat)
    requires Increasing(index, stack) && cut < |stack|
    ensures forall u | u in stack[..cut] :: index[u] < index[stack[cut]]
    ensures forall u | u in stack[cut..] :: index[stack[cut]] <= index[u]
  {
    forall u | u in stack[..cut] ensures index[u] < index[stack[cut]] {
      var i :| 0 <= i < cut && stack[i] == u;
    }
    forall u | u in stack[cut..] ensures index[stack[cut]] <= index[u] {
      var i :| cut <= i < |stack| && stack[i] == u;
    }
  }

  lemma CutFacts<T>(index: map<T, nat>, stack: seq<T>, v: T)
    requires Increasing(index, stack) && v in stack
    ensures var cut := IndexOf(stack, v);
            && Increasing(index, stack[..cut]) && Increasing(index, stack[cut..])
            && (forall u :: u in stack <==> u in stack[..cut] || u in stack[cut..])
            && (forall u | u in stack[..cut] :: index[u] < index[v])
            && (forall u | u in stack[cut..] :: index[v] <= index[u])
  {
    var cut := IndexOf(stack, v);
    assert stack == stack[..cut] + stack[cut..];
    SliceIncreasing(index, stack, 0, cut);
    SliceIncreasing(index, stack, cut, |stack|);
    CutBounds(index, stack, cut);
  }

  /** What closing the top frame does to the tables. */
  lemma CloseTables<T>(le: (T, T) -> bool, adj: Adjacency<T>, s: State<T>)
    requires TopReady(adj, s)
    ensures var v := Last(s.work);
            var e := if s.low[v] == s.index[v] then Emit(le, s, v) else s;
            var n := Close(le, adj, s);
            var rest := Rest(s.work);
            && n.index == s.index && n.opens == s.opens && n.pos == s.pos && n.work == rest && n.started == s.started
            && n.looks == s.looks
            && n.stack == e.stack && n.sccs == e.sccs && n.comp == e.comp
            && (rest != [] ==> Last(rest) in s.low)
            && n.low == if rest == [] then s.low else s.low[Last(rest) := Min(s.low[Last(rest)], s.low[v])]
  {
    if Rest(s.work) != [] { assert Last(Rest(s.work)) in s.work; }
  }

  // ---------- The node is not the root of its component

  lemma PoppedScanned<T(!new)>(adj: Adjacency<T>, s: State<T>)
    requires CanClose(adj, s) && Scanned(adj, s) && Increasing(s.index, s.work)
    ensures ScannedBut(adj, s.(work := Rest(s.work)), Last(s.work))
  {
    var p := s.(work := Rest(s.work));
    forall u, q: nat | Slot(adj, p, u, q)
      ensures Accounted(p, u, adj[u][q]) || (p.work != [] && u == Last(p.work) && adj[u][q] == Last(s.work))
    {
      assert Slot(adj, s, u, q);
      assert Accounted(s, u, adj[u][q]);
      if NextFrame(s.work, u, adj[u][q]) { RestNextFrame(s.index, s.work, u, adj[u][q]); }
    }
  }

  lemma PoppedLinked<T(!new)>(r: (T, T) -> bool, s: State<T>)
    requires s.work != [] && Linked(r, s) && Increasing(s.index, s.work)
    requires Last(s.work) in s.low && s.low[Last(s.work)] < s.index[Last(s.work)]
    ensures Linked(r, s.(work := Rest(s.work)))
  {
    var p := s.(work := Rest(s.work));
    RestFacts(s.index, s.work);
    forall u | u in p.stack ensures LowReached(r, p, u) { assert LowReached(r, s, u); }
  }

  /** The outermost frame is always the root of its component. */
  lemma OutermostIsRoot<T(!new)>(adj: Adjacency<T>, r: (T, T) -> bool, starts: seq<T>, s: State<T>)
    requires Core(adj, r, starts, s) && |s.work| == 1
    ensures Last(s.work) in s.low && s.low[Last(s.work)] == s.index[Last(s.work)]
  {
    var v := s.work[0];
    assert v in s.work;
    assert LowReached(r, s, v);
    var x := s.opens[s.low[v]];
    var i :| 0 <= i < |s.stack| && s.stack[i] == x;
    assert s.stack[0] in s.stack;
    assert s.index[s.stack[0]] <= s.index[s.stack[i]];
  }

  lemma PoppedCore<T(!new)>(adj: Adjacency<T>, r: (T, T) -> bool, starts: seq<T>, s: State<T>)
    requires Core(adj, r, starts, s) && CanClose(adj, s)
    requires s.low[Last(s.work)] != s.index[Last(s.work)]
    ensures |s.work| > 1
    ensures Core(adj, r, starts, s.(work := Rest(s.work)))
  {
    var v := Last(s.work);
    assert LowReached(r, s, v);
    if |s.work| == 1 { OutermostIsRoot(adj, r, starts, s); }
    RestFacts(s.index, s.work);
    PoppedLinked(r, s);
  }

  lemma PoppedCovered<T(!new)>(adj: Adjacency<T>, s: State<T>)
    requires Numbered(adj, s.index, s.opens)
    requires Framed(s.index, s.work, s.stack) && s.low.Keys == s.index.Keys && |s.work| > 1
    requires Covered(s.work, s.index, s.low, s.stack)
    ensures var n := Lower(s.(work := Rest(s.work)), Last(Rest(s.work)), s.low[Last(s.work)]);
            Covered(n.work, n.index, n.low, n.stack)
  {
    var v := Last(s.work);
    var rest := Rest(s.work);
    var n := Lower(s.(work := rest), Last(rest), s.low[v]);
    RestFacts(s.index, s.work);
    forall u, j: nat | u in n.stack && u !in n.work && Covers(n.work, n.index, j, u)
      ensures u in n.low && n.work[j] in n.low && n.low[n.work[j]] <= n.low[u]
    {
      assert rest[j] in rest && s.work[j] == rest[j];
      assert u != Last(rest) by { assert Last(rest) in rest; }
      if u == v {
        assert j == |rest| - 1;
      } else if j + 1 < |rest| || s.index[u] < s.index[v] {
        assert Covers(s.work, s.index, j, u) by {
          if j + 1 < |rest| { assert s.work[j + 1] == rest[j + 1]; }
        }
      } else {
        assert s.index[u] != s.index[v] by { assert s.opens[s.index[u]] == u; }
        assert Covers(s.work, s.index, |rest|, u);
      }
    }
  }

  lemma PoppedInv<T(!new)>(le: (T, T) -> bool, adj: Adjacency<T>, r: (T, T) -> bool, starts: seq<T>, s: State<T>)
    requires Preorder(adj, r) && Inv(adj, r, starts, s) && CanClose(adj, s)
    requires s.low[Last(s.work)] != s.index[Last(s.work)]
    ensures Inv(adj, r, starts, Close(le, adj, s))
  {
    var v := Last(s.work);
    var p := s.(work := Rest(s.work));
    PoppedCore(adj, r, starts, s);
    PoppedScanned(adj, s);
    PoppedCovered(adj, s);
    var parent := Last(p.work);
    var k := s.low[v];
    assert CanLower(r, p, parent, k) by {
      assert LowReached(r, s, v);
      assert parent in p.work && parent in s.work;
      RestFacts(s.index, s.work);
      assert r(parent, v) && r(v, s.opens[k]);
    }
    LowerCore(adj, r, starts, p, parent, k);
    LowerScanned(adj, p, v, k);
  }

  // ---------- The node is the root of its component

  /** The links of everything stacked above a root stay at or above it. */
  lemma RootBounds<T(!new)>(s: State<T>)
    requires s.work != [] && Framed(s.index, s.work, s.stack) && Covered(s.work, s.index, s.low, s.stack)
    requires Increasing(s.index, s.stack) && s.low.Keys == s.index.Keys
    requires s.low[Last(s.work)] == s.index[Last(s.work)]
    ensures forall u | u in Batch(s) ::
              u == Last(s.work) || (u !in s.work && s.index[Last(s.work)] <= s.low[u])
  {
    var v := Last(s.work);
    var cut := IndexOf(s.stack, v);
    CutFacts(s.index, s.stack, v);
    RestFacts(s.index, s.work);
    IncreasingDistinct(s.index, s.stack);
    forall u | u in s.stack[cut..] && u != v ensures u !in s.work && s.index[v] <= s.low[u] {
      var i :| 0 <= i < |s.stack[cut..]| && s.stack[cut..][i] == u;
      assert s.stack[cut + i] == u && i > 0;
      assert s.index[s.stack[cut]] < s.index[s.stack[cut + i]];
      assert Covers(s.work, s.index, |s.work| - 1, u);
    }
  }

  /** Everything stacked above a root reaches it, by descent on the low-links. */
  lemma {:induction false} RootReached<T(!new)>(adj: Adjacency<T>, r: (T, T) -> bool, s: State<T>, u: T)
    requires Preorder(adj, r) && Numbered(adj, s.index, s.opens) && Linked(r, s)
    requires Increasing(s.index, s.stack) && s.low.Keys == s.index.Keys && s.work != [] && Last(s.work) in s.stack
    requires forall w | w in Batch(s) ::
               w == Last(s.work) || (w !in s.work && s.index[Last(s.work)] <= s.low[w])
    requires u in Batch(s)
    ensures r(u, Last(s.work))
    decreases s.index[u]
  {
    var v := Last(s.work);
    if u != v {
      CutFacts(s.index, s.stack, v);
      assert LowReached(r, s, u);
      var x := s.opens[s.low[u]];
      assert s.index[x] == s.low[u];
      RootReached(adj, r, s, x);
      assert r(u, x) && r(x, v);
    }
  }

  /** No edge leaves the part of the stack above a root downwards. */
  lemma RootClosed<T(!new)>(adj: Adjacency<T>, s: State<T>)
    requires CanClose(adj, s) && Scanned(adj, s) && Placed(adj, s.pos, s.work) && s.pos.Keys == s.index.Keys
    requires Stacked(s.index, s.stack, s.comp) && Increasing(s.index, s.work) && s.low.Keys == s.index.Keys
    requires s.low[Last(s.work)] == s.index[Last(s.work)]
    requires forall w | w in Batch(s) ::
               w == Last(s.work) || (w !in s.work && s.index[Last(s.work)] <= s.low[w])
    ensures forall u, y | u in Batch(s) && Edge(adj, u, y) :: y in s.comp || y in Batch(s)
  {
    var v := Last(s.work);
    CutFacts(s.index, s.stack, v);
    forall u, y | u in Batch(s) && Edge(adj, u, y) ensures y in s.comp || y in Batch(s)
    {
      var q: nat :| q < |adj[u]| && adj[u][q] == y;
      assert Slot(adj, s, u, q);
      assert Accounted(s, u, y);
      if NextFrame(s.work, u, y) { RestNextFrame(s.index, s.work, u, y); }
    }
  }

  lemma BatchFacts<T>(le: (T, T) -> bool, batch: seq<T>)
    requires NoDuplicates(batch)
    ensures NoDuplicates(Sort(le, Reversed(batch))) && |Sort(le, Reversed(batch))| == |batch|
    ensures forall x :: x in Sort(le, Reversed(batch)) <==> x in batch
  {
    NoDuplicatesMultiset(batch);
    NoDuplicatesMultiset(Sort(le, Reversed(batch)));
    SameMembers(Sort(le, Reversed(batch)), batch);
  }

  lemma EmitNumbered<T(!new)>(comp: map<T, nat>, sccs: seq<seq<T>>, next: map<T, nat>, batch: seq<T>)
    requires forall v | v in comp :: comp[v] < |sccs| && v in sccs[comp[v]]
    requires forall i, v | 0 <= i < |sccs| && v in sccs[i] :: v in comp && comp[v] == i
    requires forall u | u in batch :: u !in comp
    requires forall v :: v in next <==> v in comp || v in batch
    requires forall v | v in next :: next[v] == if v in comp then comp[v] else |sccs|
    ensures var out := sccs + [batch];
            && (forall v | v in next :: next[v] < |out| && v in out[next[v]])
            && (forall i, v | 0 <= i < |out| && v in out[i] :: v in next && next[v] == i)
  {
    var out := sccs + [batch];
    forall i, v | 0 <= i < |out| && v in out[i] ensures v in next && next[v] == i {
      if i < |sccs| { assert v in sccs[i]; }
    }
  }

  lemma EmitEmitted<T(!new)>(adj: Adjacency<T>, r: (T, T) -> bool, comp: map<T, nat>, sccs: seq<seq<T>>,
                             next: map<T, nat>, batch: seq<T>)
    requires Emitted(adj, r, comp, sccs) && batch != [] && NoDuplicates(batch)
    requires forall u | u in batch :: u !in comp
    requires forall v :: v in next <==> v in comp || v in batch
    requires forall v | v in next :: next[v] == if v in comp then comp[v] else |sccs|
    requires forall u, y | u in batch && Edge(adj, u, y) :: y in comp || y in batch
    requires forall a, b | a in batch && b in batch :: r(a, b)
    ensures Emitted(adj, r, next, sccs + [batch])
  {
    EmitNumbered(comp, sccs, next, batch);
    forall v, y | v in next && Edge(adj, v, y) ensures y in next && next[y] <= next[v] {
      if v in comp { assert y in comp && comp[y] <= comp[v] < |sccs|; }
    }
    forall a, b | a in next && b in next && next[a] == next[b] ensures r(a, b) {
      if a in comp || b in comp { assert comp[a] == comp[b]; }
    }
  }

  lemma EmitLinked<T(!new)>(adj: Adjacency<T>, r: (T, T) -> bool, s: State<T>, n: State<T>)
    requires s.work != [] && Last(s.work) in s.stack && Numbered(adj, s.index, s.opens) && Linked(r, s)
    requires Increasing(s.index, s.stack) && Increasing(s.index, s.work)
    requires n.low == s.low && n.index == s.index && n.opens == s.opens && n.work == Rest(s.work)
    requires n.stack == s.stack[..IndexOf(s.stack, Last(s.work))]
    ensures Linked(r, n)
  {
    CutFacts(s.index, s.stack, Last(s.work));
    RestFacts(s.index, s.work);
    forall u | u in n.stack ensures LowReached(r, n, u) {
      assert LowReached(r, s, u);
      var x := s.opens[s.low[u]];
      assert s.index[x] == s.low[u];
    }
  }

  lemma EmitScanned<T(!new)>(adj: Adjacency<T>, s: State<T>, n: State<T>)
    requires s.work != [] && Last(s.work) in s.stack && Scanned(adj, s)
    requires Increasing(s.index, s.stack) && Increasing(s.index, s.work)
    requires n.low == s.low && n.index == s.index && n.pos == s.pos && n.work == Rest(s.work)
    requires n.stack == s.stack[..IndexOf(s.stack, Last(s.work))]
    ensures Scanned(adj, n)
  {
    CutFacts(s.index, s.stack, Last(s.work));
    forall u, q: nat | Slot(adj, n, u, q) ensures Accounted(n, u, adj[u][q]) {
      assert Slot(adj, s, u, q);
      if NextFrame(s.work, u, adj[u][q]) { RestNextFrame(s.index, s.work, u, adj[u][q]); }
    }
  }

  lemma EmitCovered<T(!new)>(s: State<T>, n: State<T>)
    requires s.work != [] && Last(s.work) in s.stack && Covered(s.work, s.index, s.low, s.stack)
    requires Increasing(s.index, s.stack) && Increasing(s.index, s.work)
    requires n.low == s.low && n.index == s.index && n.work == Rest(s.work)
    requires n.stack == s.stack[..IndexOf(s.stack, Last(s.work))]
    ensures Covered(n.work, n.index, n.low, n.stack)
  {
    CutFacts(s.index, s.stack, Last(s.work));
    RestFacts(s.index, s.work);
    forall u, j: nat | u in n.stack && u !in n.work && Covers(n.work, n.index, j, u)
      ensures u in n.low && n.work[j] in n.low && n.low[n.work[j]] <= n.low[u]
    {
      assert s.work[j] == n.work[j];
      assert Covers(s.work, s.index, j, u) by {
        if j + 1 < |n.work| { assert s.work[j + 1] == n.work[j + 1]; }
      }
    }
  }

  lemma EmitStacked<T(!new)>(s: State<T>, n: State<T>, next: nat)
    requires s.work != [] && Last(s.work) in s.stack
    requires Stacked(s.index, s.stack, s.comp) && Framed(s.index, s.work, s.stack)
    requires n.index == s.index && n.work == Rest(s.work)
    requires n.stack == s.stack[..IndexOf(s.stack, Last(s.work))]
    requires n.comp == Joined(s.comp, Batch(s), next)
    ensures Stacked(n.index, n.stack, n.comp) && Framed(n.index, n.work, n.stack)
  {
    var cut := IndexOf(s.stack, Last(s.work));
    CutFacts(s.index, s.stack, Last(s.work));
    RestFacts(s.index, s.work);
    if n.stack != [] { assert n.stack[0] in s.stack[..cut]; }
  }

  function Batch<T(==)>(s: State<T>): (b: seq<T>)
    requires s.work != [] && Last(s.work) in s.stack
  {
    s.stack[IndexOf(s.stack, Last(s.work))..]
  }

  lemma RootBatch<T(!new)>(le: (T, T) -> bool, adj: Adjacency<T>, r: (T, T) -> bool, s: State<T>)
    requires s.work != [] && Last(s.work) in s.stack
    requires Increasing(s.index, s.stack) && Emitted(adj, r, s.comp, s.sccs)
    requires forall u | u in s.stack :: u !in s.comp
    requires forall u, y | u in Batch(s) && Edge(adj, u, y) :: y in s.comp || y in Batch(s)
    requires forall a, b | a in Batch(s) && b in Batch(s) :: r(a, b)
    ensures Emitted(adj, r, Emit(le, s, Last(s.work)).comp, Emit(le, s, Last(s.work)).sccs)
  {
    var batch := Batch(s);
    assert batch[0] == Last(s.work);
    assert Increasing(s.index, batch) && forall u | u in batch :: u in s.stack by {
      CutFacts(s.index, s.stack, Last(s.work));
    }
    IncreasingDistinct(s.index, batch);
    BatchFacts(le, batch);
    EmitEmitted(adj, r, s.comp, s.sccs, Emit(le, s, Last(s.work)).comp, Sort(le, Reversed(batch)));
  }

  lemma RootComponent<T(!new)>(le: (T, T) -> bool, adj: Adjacency<T>, r: (T, T) -> bool, starts: seq<T>, s: State<T>)
    requires Preorder(adj, r) && Inv(adj, r, starts, s) && CanClose(adj, s)
    requires s.low[Last(s.work)] == s.index[Last(s.work)]
    ensures Emitted(adj, r, Emit(le, s, Last(s.work)).comp, Emit(le, s, Last(s.work)).sccs)
  {
    assert Last(s.work) in s.work;
    RootBounds(s);
    RootClosed(adj, s);
    RootMutual(adj, r, s);
    RootBatch(le, adj, r, s);
  }

  lemma EmitTables<T(!new)>(adj: Adjacency<T>, r: (T, T) -> bool, s: State<T>, n: State<T>)
    requires CanClose(adj, s) && Placed(adj, s.pos, s.work) && Above(r, s.index, s.work, s.stack)
    requires Increasing(s.index, s.stack) && Increasing(s.index, s.work)
    requires n.pos == s.pos && n.index == s.index && n.work == Rest(s.work)
    requires n.stack == s.stack[..IndexOf(s.stack, Last(s.work))]
    ensures Placed(adj, n.pos, n.work) && Above(r, n.index, n.work, n.stack)
  {
    RestFacts(s.index, s.work);
    CutFacts(s.index, s.stack, Last(s.work));
  }

  lemma RootInv<T(!new)>(le: (T, T) -> bool, adj: Adjacency<T>, r: (T, T) -> bool, starts: seq<T>, s: State<T>)
    requires Preorder(adj, r) && Inv(adj, r, starts, s) && CanClose(adj, s)
    requires s.low[Last(s.work)] == s.index[Last(s.work)]
    ensures Inv(adj, r, starts, Emit(le, s, Last(s.work)).(work := Rest(s.work)))
  {
    var n := Emit(le, s, Last(s.work)).(work := Rest(s.work));
    RootComponent(le, adj, r, starts, s);
    EmitTables(adj, r, s, n);
    EmitStacked(s, n, |s.sccs|);
    EmitLinked(adj, r, s, n);
    EmitScanned(adj, s, n);
    EmitCovered(s, n);
  }

  lemma RootMutual<T(!new)>(adj: Adjacency<T>, r: (T, T) -> bool, s: State<T>)
    requires Preorder(adj, r) && Numbered(adj, s.index, s.opens) && Linked(r, s) && s.work != []
    requires Increasing(s.index, s.stack) && s.low.Keys == s.index.Keys && Last(s.work) in s.stack
    requires Above(r, s.index, s.work, s.stack)
    requires forall w | w in Batch(s) ::
               w == Last(s.work) || (w !in s.work && s.index[Last(s.work)] <= s.low[w])
    ensures forall a, b | a in Batch(s) && b in Batch(s) :: r(a, b)
  {
    var v := Last(s.work);
    var batch := s.stack[IndexOf(s.stack, v)..];
    CutFacts(s.index, s.stack, v);
    forall a, b | a in batch && b in batch ensures r(a, b) {
      assert v in s.work;
      RootReached(adj, r, s, a);
      assert r(a, v) && r(v, b);
    }
  }

  /** The update of the parent's link after a component is emitted changes nothing. */
  lemma EmitLowerIdle<T(!new)>(r: (T, T) -> bool, s: State<T>)
    requires Framed(s.index, s.work, s.stack) && Linked(r, s) && |s.work| > 1
    requires Last(s.work) in s.low && Last(s.work) in s.index && s.low[Last(s.work)] == s.index[Last(s.work)]
    ensures Last(Rest(s.work)) in s.low
    ensures s.low[Last(Rest(s.work)) := Min(s.low[Last(Rest(s.work))], s.low[Last(s.work)])] == s.low
  {
    var p := Last(Rest(s.work));
    assert p in Rest(s.work);
    RestFacts(s.index, s.work);
    assert LowReached(r, s, p);
    assert s.low[p := s.low[p]] == s.low;
  }

  lemma CloseInv<T(!new)>(le: (T, T) -> bool, adj: Adjacency<T>, r: (T, T) -> bool, starts: seq<T>, s: State<T>)
    requires Preorder(adj, r) && Inv(adj, r, starts, s) && CanClose(adj, s)
    ensures Inv(adj, r, starts, Close(le, adj, s))
  {
    if s.low[Last(s.work)] != s.index[Last(s.work)] {
      PoppedInv(le, adj, r, starts, s);
    } else {
      RootInv(le, adj, r, starts, s);
      if |s.work| > 1 { EmitLowerIdle(r, s); }
    }
  }
}
