/** `tarjan_scc` of depmap_python.py and depmap_c.py: the loops over the explicit
    frame stack, proved to carry out the machine. */
module Tarjan {
  import opened Ordering
  import opened Graphs
  import opened TarjanMachine
  import opened TarjanInvariant
  import opened TarjanClose
  import opened TarjanRun

  lemma ReversedSlice<T>(s: seq<T>, k: nat)
    requires k < |s|
    ensures Reversed(s[k..]) == Reversed(s[k + 1..]) + [s[k]]
  {
    assert s[k..][1..] == s[k + 1..];
  }

  lemma ElementsOfPrefix<T>(s: seq<T>, k: nat)
    requires k < |s| && NoDuplicates(s)
    ensures Elements(s[..k + 1]) - {s[k]} == Elements(s[..k])
  {
    assert s[..k + 1] == s[..k] + [s[k]];
    assert s[k] !in s[..k];
  }

  lemma PopOne<T>(stack: seq<T>, k: nat, node: T)
    requires k < |stack| && NoDuplicates(stack) && node in stack
    ensures stack[..k + 1][..k] == stack[..k] && Last(stack[..k + 1]) == stack[k]
    ensures stack[k] == node <==> k == IndexOf(stack, node)
    ensures Elements(stack[..k + 1]) - {stack[k]} == Elements(stack[..k])
    ensures Reversed(stack[k..]) == Reversed(stack[k + 1..]) + [stack[k]]
  {
    ElementsOfPrefix(stack, k);
    ReversedSlice(stack, k);
  }

  /** Pops the node stack down to and including `node`. */
  method PopComponent<T(==, !new)>(stack0: seq<T>, onStack0: set<T>, node: T)
      returns (stack: seq<T>, onStack: set<T>, scc: seq<T>)
    requires node in stack0 && NoDuplicates(stack0) && onStack0 == Elements(stack0)
    ensures stack == stack0[..IndexOf(stack0, node)]
    ensures scc == Reversed(stack0[IndexOf(stack0, node)..])
    ensures onStack == Elements(stack)
  {
    ghost var cut := IndexOf(stack0, node);
    ghost var k: nat := |stack0|;
    stack, onStack, scc := stack0, onStack0, [];
    var running := true;
    assert stack0[..k] == stack0 && stack0[k..] == [];
    while running
      invariant cut <= k <= |stack0| && (running <==> k > cut)
      invariant stack == stack0[..k] && scc == Reversed(stack0[k..]) && onStack == Elements(stack0[..k])
      decreases k
    {
      k := k - 1;
      PopOne(stack0, k, node);
      assert |stack| == k + 1;
      var w := Last(stack);
      stack := stack[..|stack| - 1];
      onStack := onStack - {w};
      scc := scc + [w];
      running := w != node;
    }
  }

  ghost function OnTheWay<T(!new)>(le: (T, T) -> bool, adj: Adjacency<T>, starts: seq<T>, live: State<T> -> bool,
                                   goal: State<T>): State<T> -> bool
    requires Follows(le, adj, starts, live)
  {
    s => live(s) && Run(le, adj, starts, live, s) == goal
  }

  lemma OnTheWayFollows<T(!new)>(le: (T, T) -> bool, adj: Adjacency<T>, starts: seq<T>, live: State<T> -> bool,
                                 goal: State<T>)
    requires Follows(le, adj, starts, live)
    ensures Follows(le, adj, starts, OnTheWay(le, adj, starts, live, goal))
  {
  }

  /** `n` is `m` after more slots of the top frame were examined. */
  ghost predicate SameFrames<T>(m: State<T>, n: State<T>) {
    && m.work != [] && n.started == m.started && n.work == m.work && n.index == m.index
    && n.stack == m.stack && n.sccs == m.sccs && n.opens == m.opens
    && n.pos.Keys == m.pos.Keys
    && (forall v | v in m.pos && v != Last(m.work) :: v in n.pos && n.pos[v] == m.pos[v])
  }

  /** The `for` loop over the adjacency slots of `node`, from slot `pi`. */
  method Scan<T(==, !new)>(le: (T, T) -> bool, adj: Adjacency<T>, node: T, pi: nat, index: map<T, nat>,
                           low0: map<T, nat>, onStack: set<T>,
                           ghost starts: seq<T>, ghost live: State<T> -> bool, ghost m0: State<T>)
      returns (i: nat, low: map<T, nat>, recurse: bool, ghost m: State<T>, ghost examined: nat)
    requires Follows(le, adj, starts, live) && live(m0)
    requires m0.work != [] && Last(m0.work) == node && node in m0.pos && m0.pos[node] == pi
    requires m0.index == index && m0.low == low0 && onStack == Elements(m0.stack)
    ensures live(m) && node in adj && |m.looks| == |m0.looks| + examined
    ensures !recurse ==> SameFrames(m0, m) && m.low == low && node in m.pos && m.pos[node] == |adj[node]|
    ensures recurse ==> i < |adj[node]| && adj[node][i] !in index
    ensures recurse ==> exists s :: SameFrames(m0, s) && s.low == low && node in s.pos && s.pos[node] == i + 1
                                    && m == Open(s, adj[node][i])
  {
    i, low, recurse, m, examined := pi, low0, false, m0, 0;
    while i < |adj[node]|
      invariant pi <= i <= |adj[node]| && |m.looks| == |m0.looks| + examined
      invariant live(m) && SameFrames(m0, m)
      invariant m.low == low && node in m.pos && m.pos[node] == i
    {
      examined := examined + 1;
      var succ := adj[node][i];
      ghost var n := Step(le, adj, starts, m);
      if succ !in index {
        recurse := true;
        assert SameFrames(m0, Advance(m, node)) && n == Open(Advance(m, node), succ);
        m := n;
        return;
      } else if succ in onStack {
        low := low[node := Min(low[node], index[succ])];
      }
      m := n;
      i := i + 1;
    }
  }

  /** The program's frames are the machine's, with the slot positions beside the nodes. */
  ghost predicate Frames<T>(work: seq<(T, nat)>, m: State<T>) {
    && |work| == |m.work|
    && (forall j | 0 <= j < |work| :: work[j].0 == m.work[j] && m.work[j] in m.pos && work[j].1 == m.pos[m.work[j]])
    && (forall j | 0 <= j < |work| - 1 :: work[j].1 > 0)
  }

  /** The program's tables are the machine's. */
  ghost predicate Tables<T>(index: map<T, nat>, low: map<T, nat>, counter: nat, stack: seq<T>, onStack: set<T>,
                            sccs: seq<seq<T>>, m: State<T>) {
    && m.index == index && m.low == low && |m.opens| == counter && m.stack == stack && m.sccs == sccs
    && onStack == Elements(stack)
  }

  /** As `Tables`, when the machine has already opened the frame on top. */
  ghost predicate TablesBefore<T>(v: T, index: map<T, nat>, low: map<T, nat>, counter: nat, stack: seq<T>,
                                  onStack: set<T>, sccs: seq<seq<T>>, m: State<T>) {
    Tables(index[v := counter], low[v := counter], counter + 1, stack + [v], onStack + {v}, sccs, m)
  }

  /** As `Frames`, but saying nothing of the top frame's position. */
  ghost predicate ScannedFrames<T>(work: seq<(T, nat)>, m: State<T>) {
    && work != [] && |work| == |m.work| && Last(work).0 == Last(m.work)
    && forall j | 0 <= j < |work| - 1 ::
         work[j].0 == m.work[j] && m.work[j] in m.pos && work[j].1 == m.pos[m.work[j]] && work[j].1 > 0
  }

  lemma FramesScanned<T>(work: seq<(T, nat)>, m: State<T>, s: State<T>, k: nat)
    requires work != [] && Frames(work, m) && SameFrames(m, s) && NoDuplicates(m.work)
    requires Last(work).0 in s.pos && s.pos[Last(work).0] == k
    ensures k > 0 ==> Frames(work[..|work| - 1] + [(Last(work).0, k)], s)
    ensures ScannedFrames(work, s)
  {
    forall j | 0 <= j < |work| - 1
      ensures work[j].0 == s.work[j] && s.work[j] in s.pos && work[j].1 == s.pos[s.work[j]] && work[j].1 > 0
    {
      assert m.work[j] != m.work[|work| - 1];
    }
  }

  lemma FramesOpened<T>(work: seq<(T, nat)>, s: State<T>, v: T)
    requires Frames(work, s) && v !in s.pos && (work != [] ==> Last(work).1 > 0)
    ensures Frames(work + [(v, 0)], Open(s, v))
  {
  }

  lemma FramesClosed<T>(work: seq<(T, nat)>, m: State<T>, n: State<T>)
    requires ScannedFrames(work, m)
    requires n.work == Rest(m.work) && n.pos == m.pos
    ensures Frames(Rest(work), n)
    ensures Rest(work) != [] ==> Last(Rest(work)).1 > 0 && Last(Rest(work)).0 == Last(n.work)
  {
  }

  /** The emission of a component, if the frame on top is its root. */
  method EmitComponent<T(==, !new)>(le: (T, T) -> bool, node: T, isRoot: bool, stack0: seq<T>, onStack0: set<T>,
                                    sccs0: seq<seq<T>>, ghost s: State<T>)
      returns (stack: seq<T>, onStack: set<T>, sccs: seq<seq<T>>)
    requires node in stack0 && NoDuplicates(stack0) && onStack0 == Elements(stack0)
    requires s.stack == stack0 && s.sccs == sccs0
    ensures var e := if isRoot then Emit(le, s, node) else s;
            stack == e.stack && sccs == e.sccs && onStack == Elements(stack)
  {
    stack, onStack, sccs := stack0, onStack0, sccs0;
    if isRoot {
      var scc;
      stack, onStack, scc := PopComponent(stack, onStack, node);
      sccs := sccs + [Sort(le, scc)];
    }
  }

  /** What follows the `for` loop when no slot recursed: emit if `node` is the root
      of its component, pop its frame, hand its link to the parent. */
  method CloseFrame<T(==, !new)>(le: (T, T) -> bool, adj: Adjacency<T>, work0: seq<(T, nat)>,
                                 index: map<T, nat>, low0: map<T, nat>, ghost counter: nat, stack0: seq<T>,
                                 onStack0: set<T>, sccs0: seq<seq<T>>,
                                 ghost starts: seq<T>, ghost live: State<T> -> bool, ghost s: State<T>)
      returns (work: seq<(T, nat)>, low: map<T, nat>, stack: seq<T>, onStack: set<T>, sccs: seq<seq<T>>)
    requires Follows(le, adj, starts, live) && live(s) && ScannedFrames(work0, s)
    requires Tables(index, low0, counter, stack0, onStack0, sccs0, s)
    requires Last(s.work) in s.pos && Last(s.work) in adj && s.pos[Last(s.work)] == |adj[Last(s.work)]|
    ensures var n := Step(le, adj, starts, s);
            && Frames(work, n) && Tables(index, low, counter, stack, onStack, sccs, n)
            && n.work == Rest(s.work) && n.started == s.started && n.looks == s.looks
    ensures work != [] ==> Last(work).1 > 0
  {
    ghost var n := Step(le, adj, starts, s);
    var node := Last(work0).0;
    CloseTables(le, adj, s);
    low := low0;
    stack, onStack, sccs := EmitComponent(le, node, low[node] == index[node], stack0, onStack0, sccs0, s);
    FramesClosed(work0, s, n);
    work := work0[..|work0| - 1];
    if work != [] {
      var parent := Last(work).0;
      low := low[parent := Min(low[parent], low[node])];
    }
  }

  lemma OpenShrinks<T(!new)>(adj: Adjacency<T>, index: map<T, nat>, y: T, k: nat)
    requires y in adj && y !in index
    ensures adj.Keys - index[y := k].Keys < adj.Keys - index.Keys
  {
    assert y in adj.Keys - index.Keys;
  }

  /** What the inner loop keeps: the tables agree, up to a frame still to be opened. */
  ghost predicate AtHead<T>(work: seq<(T, nat)>, index: map<T, nat>, low: map<T, nat>, counter: nat, stack: seq<T>,
                            onStack: set<T>, sccs: seq<seq<T>>, m: State<T>) {
    && Frames(work, m)
    && if work != [] && Last(work).1 == 0
       then TablesBefore(Last(work).0, index, low, counter, stack, onStack, sccs, m)
       else Tables(index, low, counter, stack, onStack, sccs, m)
  }

  ghost predicate Smaller<T>(adj: Adjacency<T>, n: State<T>, m: State<T>) {
    adj.Keys - n.index.Keys < adj.Keys - m.index.Keys || (n.index == m.index && |n.work| < |m.work|)
  }

  lemma Descended<T(!new)>(adj: Adjacency<T>, work: seq<(T, nat)>, index: map<T, nat>, low: map<T, nat>, counter: nat,
                           stack: seq<T>, onStack: set<T>, sccs: seq<seq<T>>, m: State<T>, s: State<T>, i: nat)
    requires WellFormed(adj) && Frames(work, m) && work != [] && NoDuplicates(m.work) && m.pos.Keys == m.index.Keys
    requires Tables(index, m.low, counter, stack, onStack, sccs, m)
    requires var node := Last(work).0;
             node in adj && i < |adj[node]| && adj[node][i] !in index
             && SameFrames(m, s) && s.low == low && node in s.pos && s.pos[node] == i + 1
    ensures var node := Last(work).0; var n := Open(s, adj[node][i]);
            && AtHead(work[..|work| - 1] + [(node, i + 1)] + [(adj[node][i], 0)],
                      index, low, counter, stack, onStack, sccs, n)
            && Smaller(adj, n, m)
  {
    var node := Last(work).0;
    var y := adj[node][i];
    assert Edge(adj, node, y);
    FramesScanned(work, m, s, i + 1);
    FramesOpened(work[..|work| - 1] + [(node, i + 1)], s, y);
    OpenShrinks(adj, index, y, counter);
    ElementsSnoc(stack, y);
  }

  /** One pass through the body of the inner loop, after the frame on top is open. */
  method Pass<T(==, !new)>(le: (T, T) -> bool, adj: Adjacency<T>, work0: seq<(T, nat)>, index: map<T, nat>,
                           low0: map<T, nat>, ghost counter: nat, stack0: seq<T>, onStack0: set<T>, sccs0: seq<seq<T>>,
                           ghost starts: seq<T>, ghost live: State<T> -> bool, ghost m0: State<T>)
      returns (work: seq<(T, nat)>, low: map<T, nat>, stack: seq<T>, onStack: set<T>,
               sccs: seq<seq<T>>, ghost m: State<T>, ghost examined: nat)
    requires WellFormed(adj) && Follows(le, adj, starts, live) && live(m0) && work0 != [] && Frames(work0, m0)
    requires Tables(index, low0, counter, stack0, onStack0, sccs0, m0)
    ensures live(m) && m.started == m0.started && Smaller(adj, m, m0)
    ensures AtHead(work, index, low, counter, stack, onStack, sccs, m)
    ensures |m.looks| == |m0.looks| + examined && |m.work| + 1 - |m0.work| <= 2 * (|m.opens| - |m0.opens|)
  {
    var (node, pi) := Last(work0);
    stack, onStack, sccs := stack0, onStack0, sccs0;
    ghost var s;
    var i, newLow, recurse;
    i, newLow, recurse, s, examined := Scan(le, adj, node, pi, index, low0, onStack, starts, live, m0);
    low := newLow;
    if recurse {
      ghost var scanned :| SameFrames(m0, scanned) && scanned.low == low && node in scanned.pos
        && scanned.pos[node] == i + 1 && s == Open(scanned, adj[node][i]);
      work := work0[..|work0| - 1] + [(node, i + 1)];
      work := work + [(adj[node][i], 0)];
      Descended(adj, work0, index, low, counter, stack, onStack, sccs, m0, scanned, i);
      m := s;
    } else {
      FramesScanned(work0, m0, s, |adj[node]|);
      work, low, stack, onStack, sccs :=
        CloseFrame(le, adj, work0, index, low, counter, stack, onStack, sccs, starts, live, s);
      m := Step(le, adj, starts, s);
    }
  }

  /** The `while work` loop: explores everything `start` leads to. */
  method Explore<T(==, !new)>(le: (T, T) -> bool, adj: Adjacency<T>, start: T,
                              index0: map<T, nat>, low0: map<T, nat>, counter0: nat, stack0: seq<T>, onStack0: set<T>,
                              sccs0: seq<seq<T>>, ghost starts: seq<T>, ghost live: State<T> -> bool, ghost m0: State<T>)
      returns (index: map<T, nat>, low: map<T, nat>, counter: nat, stack: seq<T>, onStack: set<T>,
               sccs: seq<seq<T>>, ghost m: State<T>, ghost examined: nat, ghost passes: nat)
    requires WellFormed(adj) && Follows(le, adj, starts, live) && live(Open(m0, start)) && m0.work == []
    requires Tables(index0, low0, counter0, stack0, onStack0, sccs0, m0)
    ensures live(m) && m.work == [] && m.started == m0.started
    ensures Tables(index, low, counter, stack, onStack, sccs, m)
    ensures |m.looks| == |m0.looks| + examined && passes <= 2 * (|m.opens| - |m0.opens|)
  {
    index, low, counter, stack, onStack, sccs := index0, low0, counter0, stack0, onStack0, sccs0;
    m, examined, passes := Open(m0, start), 0, 0;
    var work := [(start, 0)];
    ElementsSnoc(stack, start);
    while work != []
      invariant live(m) && m.started == m0.started
      invariant AtHead(work, index, low, counter, stack, onStack, sccs, m)
      invariant |m.looks| == |m0.looks| + examined && passes + |m.work| <= 2 * (|m.opens| - |m0.opens|)
      decreases adj.Keys - m.index.Keys, |m.work|
    {
      var (node, pi) := Last(work);
      if pi == 0 {
        index, low := index[node := counter], low[node := counter];
        counter := counter + 1;
        stack := stack + [node];
        onStack := onStack + {node};
      }
      ghost var more;
      work, low, stack, onStack, sccs, m, more :=
        Pass(le, adj, work, index, low, counter, stack, onStack, sccs, starts, live, m);
      examined, passes := examined + more, passes + 1;
    }
  }

  /** The whole of `tarjan_scc`, once the adjacency lists are built. The ghost results
      count the nodes given an index, the runs of the innermost loop's body and the runs
      of the `while work` loop's body. */
  method Components<T(==, !new)>(le: (T, T) -> bool, adj: Adjacency<T>, starts: seq<T>)
      returns (sccs: seq<seq<T>>, ghost indexed: nat, ghost examined: nat, ghost passes: nat)
    requires Input(adj, starts)
    ensures sccs == Final(le, adj, starts).sccs
    ensures indexed == |Final(le, adj, starts).opens| && examined == |Final(le, adj, starts).looks| && passes <= 2 * indexed
  {
    examined, passes := 0, 0;
    LiveFollows(le, adj, starts);
    ghost var m := Initial<T>();
    ghost var goal := Final(le, adj, starts);
    ghost var live := OnTheWay(le, adj, starts, LiveStates(adj, starts), goal);
    OnTheWayFollows(le, adj, starts, LiveStates(adj, starts), goal);
    var counter: nat := 0;
    var stack: seq<T>, onStack: set<T> := [], {};
    var index: map<T, nat>, low: map<T, nat> := map[], map[];
    sccs := [];
    for k := 0 to |starts|
      invariant live(m) && m.work == [] && m.started == k
      invariant Tables(index, low, counter, stack, onStack, sccs, m)
      invariant |m.looks| == examined && passes <= 2 * |m.opens|
    {
      var start := starts[k];
      ghost var n := Step(le, adj, starts, m);
      if start in index {
        m := n;
      } else {
        ghost var looked, passed;
        index, low, counter, stack, onStack, sccs, m, looked, passed :=
          Explore(le, adj, start, index, low, counter, stack, onStack, sccs, starts, live, m.(started := k + 1));
        examined, passes := examined + looked, passes + passed;
      }
    }
    assert Done(starts, m);
    indexed := counter;
  }
}
