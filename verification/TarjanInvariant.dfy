/** The inductive invariant of the machine, and that every step keeps it. */
module TarjanInvariant {
  import opened Ordering
  import opened Graphs
  import opened TarjanMachine

  /** The invariant is stated for any reflexive, transitive relation that contains
      the edges; reachability is one. */
  ghost predicate Preorder<T(!new)>(adj: Adjacency<T>, r: (T, T) -> bool) {
    && (forall a :: r(a, a))
    && (forall a, b :: Edge(adj, a, b) ==> r(a, b))
    && (forall a, b, c :: r(a, b) && r(b, c) ==> r(a, c))
  }

  /** Discovery numbers are positions in `opens`. */
  ghost predicate Numbered<T(!new)>(adj: Adjacency<T>, index: map<T, nat>, opens: seq<T>) {
    && (forall v | v in index :: v in adj && index[v] < |opens| && opens[index[v]] == v)
    && (forall i | 0 <= i < |opens| :: opens[i] in index && index[opens[i]] == i)
  }

  ghost predicate Increasing<T>(index: map<T, nat>, q: seq<T>) {
    && (forall v | v in q :: v in index)
    && forall i, j | 0 <= i < j < |q| :: index[q[i]] < index[q[j]]
  }

  /** Opened nodes are split between the node stack and the emitted batches. */
  ghost predicate Stacked<T(!new)>(index: map<T, nat>, stack: seq<T>, comp: map<T, nat>) {
    && Increasing(index, stack)
    && (forall v :: v in index <==> v in stack || v in comp)
    && (forall v | v in stack :: v !in comp)
  }

  ghost predicate Framed<T(!new)>(index: map<T, nat>, work: seq<T>, stack: seq<T>) {
    && Increasing(index, work)
    && (forall v | v in work :: v in stack)
    && (stack != [] ==> work != [] && work[0] == stack[0])
  }

  ghost predicate Placed<T(!new)>(adj: Adjacency<T>, pos: map<T, nat>, work: seq<T>) {
    forall v | v in pos :: v in adj && pos[v] <= |adj[v]| && (v !in work ==> pos[v] == |adj[v]|)
  }

  /** An open frame reaches everything stacked above it. */
  ghost predicate Above<T(!new)>(r: (T, T) -> bool, index: map<T, nat>, work: seq<T>, stack: seq<T>) {
    forall w, u | w in work && u in stack :: w in index && u in index && (index[w] <= index[u] ==> r(w, u))
  }

  ghost predicate LowReached<T>(r: (T, T) -> bool, s: State<T>, u: T) {
    && u in s.low && u in s.index && s.low[u] <= s.index[u] < |s.opens|
    && s.opens[s.low[u]] in s.stack && r(u, s.opens[s.low[u]])
    && (u !in s.work ==> s.low[u] < s.index[u])
  }

  /** The low-link of a stacked node is the number of a stacked node it reaches,
      an earlier one once the node is finished. */
  ghost predicate Linked<T(!new)>(r: (T, T) -> bool, s: State<T>) {
    forall u {:trigger LowReached(r, s, u)} | u in s.stack :: LowReached(r, s, u)
  }

  /** Frame `j` is the topmost one below the stacked node `u`. */
  ghost predicate Covers<T>(work: seq<T>, index: map<T, nat>, j: nat, u: T) {
    && j < |work| && work[j] in index && u in index && index[work[j]] < index[u]
    && (j + 1 < |work| ==> work[j + 1] in index && index[u] < index[work[j + 1]])
  }

  ghost predicate NextFrame<T>(work: seq<T>, u: T, y: T) {
    exists j :: 0 <= j && j + 1 < |work| && work[j] == u && work[j + 1] == y
  }

  /** The examined edge from the stacked node `u` to `y` has been accounted for. */
  ghost predicate Accounted<T>(s: State<T>, u: T, y: T) {
    u in s.low && y in s.index && (y in s.stack ==> s.low[u] <= s.index[y] || NextFrame(s.work, u, y))
  }

  ghost predicate Slot<T>(adj: Adjacency<T>, s: State<T>, u: T, q: nat) {
    u in s.stack && u in s.pos && u in adj && q < s.pos[u] && q < |adj[u]|
  }

  ghost predicate Scanned<T(!new)>(adj: Adjacency<T>, s: State<T>) {
    forall u, q: nat {:trigger Slot(adj, s, u, q)} | Slot(adj, s, u, q) :: Accounted(s, u, adj[u][q])
  }

  /** As `Scanned`, with the edge from the top frame to `v` still open. */
  ghost predicate ScannedBut<T(!new)>(adj: Adjacency<T>, s: State<T>, v: T) {
    forall u, q: nat {:trigger Slot(adj, s, u, q)} | Slot(adj, s, u, q) ::
      Accounted(s, u, adj[u][q]) || (s.work != [] && u == Last(s.work) && adj[u][q] == v)
  }

  /** A frame's low-link bounds those of the finished nodes it covers. */
  ghost predicate Covered<T(!new)>(work: seq<T>, index: map<T, nat>, low: map<T, nat>, stack: seq<T>) {
    forall u, j: nat | u in stack && u !in work && Covers(work, index, j, u) ::
      u in low && work[j] in low && low[work[j]] <= low[u]
  }

  /** Emitted batches: numbered consistently, mutually reachable inside, and no
      edge leads from a batch to a later one. */
  ghost predicate Emitted<T(!new)>(adj: Adjacency<T>, r: (T, T) -> bool, comp: map<T, nat>, sccs: seq<seq<T>>) {
    && (forall v | v in comp :: comp[v] < |sccs| && v in sccs[comp[v]])
    && (forall i, v | 0 <= i < |sccs| && v in sccs[i] :: v in comp && comp[v] == i)
    && (forall i | 0 <= i < |sccs| :: sccs[i] != [] && NoDuplicates(sccs[i]))
    && (forall v, y | v in comp && Edge(adj, v, y) :: y in comp && comp[y] <= comp[v])
    && (forall a, b | a in comp && b in comp && comp[a] == comp[b] :: r(a, b))
  }

  ghost predicate Started<T>(starts: seq<T>, started: nat, index: map<T, nat>) {
    && started <= |starts|
    && forall i | 0 <= i < started :: starts[i] in index
  }

  /** Each slot of an opened node below its position was examined exactly once. */
  ghost predicate Logged<T(!new)>(pos: map<T, nat>, looks: seq<(T, nat)>) {
    && NoDuplicates(looks)
    && forall v, q :: (v, q) in looks <==> v in pos && q < pos[v]
  }

  /** All of the invariant except `Scanned` and `Covered`. */
  ghost predicate Core<T(!new)>(adj: Adjacency<T>, r: (T, T) -> bool, starts: seq<T>, s: State<T>) {
    && s.low.Keys == s.index.Keys && s.pos.Keys == s.index.Keys
    && Numbered(adj, s.index, s.opens)
    && Stacked(s.index, s.stack, s.comp)
    && Framed(s.index, s.work, s.stack)
    && Placed(adj, s.pos, s.work)
    && Above(r, s.index, s.work, s.stack)
    && Linked(r, s)
    && Emitted(adj, r, s.comp, s.sccs)
    && Started(starts, s.started, s.index)
    && Logged(s.pos, s.looks)
  }

  ghost predicate Inv<T(!new)>(adj: Adjacency<T>, r: (T, T) -> bool, starts: seq<T>, s: State<T>) {
    Core(adj, r, starts, s) && Scanned(adj, s) && Covered(s.work, s.index, s.low, s.stack)
  }

  lemma InitialInv<T(!new)>(adj: Adjacency<T>, r: (T, T) -> bool, starts: seq<T>)
    ensures Inv(adj, r, starts, Initial())
  {
  }

  lemma InSnoc<T>(q: seq<T>, v: T)
    ensures forall x :: x in q + [v] <==> x in q || x == v
  {
  }

  // ---------- Opening a node

  ghost predicate CanOpen<T(!new)>(adj: Adjacency<T>, s: State<T>, v: T) {
    v in adj && v !in s.index && (s.work != [] ==> Edge(adj, Last(s.work), v))
  }

  lemma OpenIncreasing<T(!new)>(index: map<T, nat>, k: nat, v: T, q: seq<T>)
    requires Increasing(index, q) && v !in index
    requires forall u | u in index :: index[u] < k
    ensures Increasing(index[v := k], q + [v])
  {
    InSnoc(q, v);
    forall i, j | 0 <= i < j < |q + [v]| ensures index[v := k][(q + [v])[i]] < index[v := k][(q + [v])[j]] {
      assert q[i] in q;
      if j < |q| { assert q[j] in q; }
    }
  }

  lemma OpenAbove<T(!new)>(adj: Adjacency<T>, r: (T, T) -> bool, s: State<T>, v: T)
    requires Preorder(adj, r) && CanOpen(adj, s, v)
    requires Framed(s.index, s.work, s.stack) && Increasing(s.index, s.stack) && Above(r, s.index, s.work, s.stack)
    requires forall u | u in s.index :: s.index[u] < |s.opens|
    ensures Above(r, Open(s, v).index, Open(s, v).work, Open(s, v).stack)
  {
    var n := Open(s, v);
    InSnoc(s.stack, v);
    InSnoc(s.work, v);
    forall w, u | w in n.work && u in n.stack && n.index[w] <= n.index[u] ensures r(w, u) {
      if u == v && w != v {
        var top := Last(s.work);
        assert s.index[w] <= s.index[top];
        assert r(w, top) && r(top, v);
      }
    }
  }

  lemma OpenLinked<T(!new)>(r: (T, T) -> bool, s: State<T>, v: T)
    requires Linked(r, s) && r(v, v) && v !in s.index
    ensures Linked(r, Open(s, v))
  {
    var n := Open(s, v);
    InSnoc(s.stack, v);
    InSnoc(s.work, v);
    forall u | u in n.stack ensures LowReached(r, n, u) {
      if u in s.stack { assert LowReached(r, s, u); }
    }
  }

  lemma NextFrameSnoc<T>(work: seq<T>, v: T, u: T, y: T)
    requires NextFrame(work, u, y) || (work != [] && u == Last(work) && y == v)
    ensures NextFrame(work + [v], u, y)
  {
    var w := work + [v];
    if NextFrame(work, u, y) {
      var j :| 0 <= j && j + 1 < |work| && work[j] == u && work[j + 1] == y;
      assert w[j] == u && w[j + 1] == y;
    } else {
      var j := |work| - 1;
      assert w[j] == u && w[j + 1] == y;
    }
  }

  lemma OpenScanned<T(!new)>(adj: Adjacency<T>, s: State<T>, v: T)
    requires CanOpen(adj, s, v) && ScannedBut(adj, s, v)
    requires s.low.Keys == s.index.Keys && forall u | u in s.stack :: u in s.index
    ensures Scanned(adj, Open(s, v))
  {
    var n := Open(s, v);
    InSnoc(s.stack, v);
    forall u, q: nat | Slot(adj, n, u, q) ensures Accounted(n, u, adj[u][q]) {
      var y := adj[u][q];
      assert u != v && Slot(adj, s, u, q);
      if NextFrame(s.work, u, y) || !Accounted(s, u, y) { NextFrameSnoc(s.work, v, u, y); }
    }
  }

  lemma OpenCovered<T(!new)>(s: State<T>, v: T)
    requires Covered(s.work, s.index, s.low, s.stack) && v !in s.index
    requires Increasing(s.index, s.stack) && Increasing(s.index, s.work)
    requires forall u | u in s.index :: s.index[u] < |s.opens|
    ensures Covered(Open(s, v).work, Open(s, v).index, Open(s, v).low, Open(s, v).stack)
  {
    var n := Open(s, v);
    InSnoc(s.stack, v);
    InSnoc(s.work, v);
    forall u, j: nat | u in n.stack && u !in n.work && Covers(n.work, n.index, j, u)
      ensures u in n.low && n.work[j] in n.low && n.low[n.work[j]] <= n.low[u]
    {
      assert j < |s.work| by { assert n.index[v] > n.index[u]; }
      assert s.work[j] in s.work;
      assert Covers(s.work, s.index, j, u);
    }
  }

  lemma OpenStacked<T(!new)>(adj: Adjacency<T>, s: State<T>, v: T)
    requires Numbered(adj, s.index, s.opens) && v in adj && v !in s.index
    requires Stacked(s.index, s.stack, s.comp) && Framed(s.index, s.work, s.stack)
    ensures Stacked(Open(s, v).index, Open(s, v).stack, s.comp)
    ensures Framed(Open(s, v).index, Open(s, v).work, Open(s, v).stack)
  {
    InSnoc(s.stack, v);
    InSnoc(s.work, v);
    OpenIncreasing(s.index, |s.opens|, v, s.stack);
    OpenIncreasing(s.index, |s.opens|, v, s.work);
  }

  lemma OpenTables<T(!new)>(adj: Adjacency<T>, starts: seq<T>, s: State<T>, v: T)
    requires Numbered(adj, s.index, s.opens) && Placed(adj, s.pos, s.work)
    requires Started(starts, s.started, s.index) && Logged(s.pos, s.looks)
    requires v in adj && v !in s.index && s.pos.Keys == s.index.Keys
    ensures var n := Open(s, v);
            Numbered(adj, n.index, n.opens) && Placed(adj, n.pos, n.work)
            && Started(starts, n.started, n.index) && Logged(n.pos, n.looks)
  {
    InSnoc(s.work, v);
  }

  lemma OpenKeys<T(!new)>(s: State<T>, v: T)
    requires s.low.Keys == s.index.Keys && s.pos.Keys == s.index.Keys
    ensures Open(s, v).low.Keys == Open(s, v).index.Keys && Open(s, v).pos.Keys == Open(s, v).index.Keys
  {
  }

  /** Opening keeps the invariant and settles the one edge left open. */
  lemma OpenInv<T(!new)>(adj: Adjacency<T>, r: (T, T) -> bool, starts: seq<T>, s: State<T>, v: T)
    requires Preorder(adj, r) && CanOpen(adj, s, v) && Core(adj, r, starts, s)
    requires ScannedBut(adj, s, v) && Covered(s.work, s.index, s.low, s.stack)
    ensures Inv(adj, r, starts, Open(s, v))
  {
    OpenKeys(s, v);
    OpenAbove(adj, r, s, v);
    OpenLinked(r, s, v);
    OpenScanned(adj, s, v);
    OpenCovered(s, v);
    OpenStacked(adj, s, v);
    OpenTables(adj, starts, s, v);
  }

  // ---------- Moving past a slot

  ghost predicate CanLook<T(!new)>(adj: Adjacency<T>, s: State<T>) {
    && TopReady(adj, s) && s.pos[Last(s.work)] < |adj[Last(s.work)]|
  }

  lemma AdvanceLogged<T(!new)>(s: State<T>, v: T)
    requires Logged(s.pos, s.looks) && v in s.pos
    ensures Logged(Advance(s, v).pos, Advance(s, v).looks)
  {
    var n := Advance(s, v);
    assert (v, s.pos[v]) !in s.looks;
    forall u, q ensures (u, q) in n.looks <==> u in n.pos && q < n.pos[u] {
      assert (u, q) in n.looks <==> (u, q) in s.looks || (u, q) == (v, s.pos[v]);
    }
  }

  lemma AdvanceLinked<T(!new)>(r: (T, T) -> bool, s: State<T>, v: T)
    requires Linked(r, s) && v in s.pos
    ensures Linked(r, Advance(s, v))
  {
    var n := Advance(s, v);
    forall u | u in n.stack ensures LowReached(r, n, u) { assert LowReached(r, s, u); }
  }

  lemma AdvanceScanned<T(!new)>(adj: Adjacency<T>, s: State<T>)
    requires CanLook(adj, s) && Scanned(adj, s)
    ensures ScannedBut(adj, Advance(s, Last(s.work)), adj[Last(s.work)][s.pos[Last(s.work)]])
  {
    var v := Last(s.work);
    var n := Advance(s, v);
    forall u, q: nat | Slot(adj, n, u, q)
      ensures Accounted(n, u, adj[u][q]) || (u == v && adj[u][q] == adj[v][s.pos[v]])
    {
      if u != v || q < s.pos[v] {
        assert Slot(adj, s, u, q);
        assert Accounted(s, u, adj[u][q]);
      }
    }
  }

  lemma AdvanceCore<T(!new)>(adj: Adjacency<T>, r: (T, T) -> bool, starts: seq<T>, s: State<T>)
    requires Core(adj, r, starts, s) && CanLook(adj, s)
    ensures Core(adj, r, starts, Advance(s, Last(s.work)))
  {
    var v := Last(s.work);
    assert v in s.work;
    assert Advance(s, v).pos.Keys == s.pos.Keys;
    AdvanceLinked(r, s, v);
    AdvanceLogged(s, v);
  }

  /** The slot just passed leads to an emitted node: nothing more to account for. */
  lemma PassedScanned<T(!new)>(adj: Adjacency<T>, s: State<T>, y: T)
    requires ScannedBut(adj, s, y) && s.work != [] && Last(s.work) in s.low
    requires y in s.index && y !in s.stack
    ensures Scanned(adj, s)
  {
    forall u, q: nat | Slot(adj, s, u, q) ensures Accounted(s, u, adj[u][q]) { }
  }

  // ---------- Lowering the link of an open frame

  ghost predicate CanLower<T(!new)>(r: (T, T) -> bool, s: State<T>, v: T, k: nat) {
    v in s.work && v in s.low && k < |s.opens| && s.opens[k] in s.stack && r(v, s.opens[k])
  }

  lemma LowerLinked<T(!new)>(r: (T, T) -> bool, s: State<T>, v: T, k: nat)
    requires CanLower(r, s, v, k) && Linked(r, s)
    ensures Linked(r, Lower(s, v, k))
  {
    var n := Lower(s, v, k);
    forall u | u in n.stack ensures LowReached(r, n, u) { assert LowReached(r, s, u); }
  }

  lemma LowerScanned<T(!new)>(adj: Adjacency<T>, s: State<T>, y: T, k: nat)
    requires s.work != [] && Last(s.work) in s.low && ScannedBut(adj, s, y)
    requires y in s.index && (y in s.stack ==> k <= s.index[y])
    ensures Scanned(adj, Lower(s, Last(s.work), k))
  {
    var n := Lower(s, Last(s.work), k);
    forall u, q: nat | Slot(adj, n, u, q) ensures Accounted(n, u, adj[u][q]) {
      assert Slot(adj, s, u, q);
    }
  }

  lemma LowerCore<T(!new)>(adj: Adjacency<T>, r: (T, T) -> bool, starts: seq<T>, s: State<T>, v: T, k: nat)
    requires Core(adj, r, starts, s) && CanLower(r, s, v, k)
    ensures Core(adj, r, starts, Lower(s, v, k))
  {
    assert Lower(s, v, k).low.Keys == s.low.Keys;
    LowerLinked(r, s, v, k);
  }

  /** The examined slot leads to a stacked node. */
  lemma LookStacked<T(!new)>(adj: Adjacency<T>, r: (T, T) -> bool, starts: seq<T>, n: State<T>, y: T)
    requires Core(adj, r, starts, n) && n.work != [] && ScannedBut(adj, n, y)
    requires Covered(n.work, n.index, n.low, n.stack)
    requires y in n.stack && r(Last(n.work), y)
    ensures Last(n.work) in n.low && Inv(adj, r, starts, Lower(n, Last(n.work), n.index[y]))
  {
    var v := Last(n.work);
    assert v in n.work;
    assert n.opens[n.index[y]] == y;
    LowerCore(adj, r, starts, n, v, n.index[y]);
    LowerScanned(adj, n, y, n.index[y]);
  }

  lemma LookInv<T(!new)>(adj: Adjacency<T>, r: (T, T) -> bool, starts: seq<T>, s: State<T>)
    requires WellFormed(adj) && Preorder(adj, r) && Inv(adj, r, starts, s) && CanLook(adj, s)
    ensures Inv(adj, r, starts, Look(adj, s))
  {
    var v := Last(s.work);
    var y := adj[v][s.pos[v]];
    var n := Advance(s, v);
    assert Edge(adj, v, y);
    AdvanceCore(adj, r, starts, s);
    AdvanceScanned(adj, s);
    if y !in s.index {
      OpenInv(adj, r, starts, n, y);
    } else if y in s.stack {
      LookStacked(adj, r, starts, n, y);
    } else {
      PassedScanned(adj, n, y);
    }
  }
}
