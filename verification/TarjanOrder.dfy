/** In which order batches are emitted: nodes are opened as a recursive depth-first
    search visits them, and that order and reachability decide between any two batches. */
module TarjanOrder {
  import opened Ordering
  import opened Graphs
  import opened TarjanMachine
  import opened TarjanInvariant
  import opened TarjanClose
  import opened TarjanRun

  // ---------- Nodes are opened in depth-first order

  ghost predicate Nodes<T>(adj: Adjacency<T>, vs: seq<T>) {
    forall v | v in vs :: v in adj
  }

  lemma Successors<T(!new)>(adj: Adjacency<T>, v: T)
    requires WellFormed(adj) && v in adj
    ensures Nodes(adj, adj[v])
  {
    forall w | w in adj[v] ensures w in adj { assert Edge(adj, v, w); }
  }

  lemma SeenShrinks<T>(adj: Adjacency<T>, seen: seq<T>, v: T)
    requires v in adj && v !in seen
    ensures adj.Keys - Elements(seen + [v]) < adj.Keys - Elements(seen)
  {
    ElementsSnoc(seen, v);
    assert v in adj.Keys - Elements(seen) && v !in adj.Keys - Elements(seen + [v]);
  }

  lemma SeenMore<T>(adj: Adjacency<T>, seen: seq<T>, v: T, more: seq<T>)
    requires v in adj && v !in seen && forall w | w in seen + [v] :: w in more
    ensures adj.Keys - Elements(more) < adj.Keys - Elements(seen)
  {
    assert v in adj.Keys - Elements(seen) && v !in adj.Keys - Elements(more);
    assert forall w | w in seen :: w in seen + [v];
  }

  /** The recursive depth-first search: the nodes in the order of their first visit, when
      those of `seen` were visited before and `vs` are tried in turn. */
  ghost function Dfs<T(!new)>(adj: Adjacency<T>, seen: seq<T>, vs: seq<T>): (r: seq<T>)
    requires WellFormed(adj) && Nodes(adj, vs)
    ensures forall v | v in seen :: v in r
    decreases adj.Keys - Elements(seen), |vs|
  {
    if vs == [] then seen
    else if vs[0] in seen then Dfs(adj, seen, vs[1..])
    else
      assert vs[0] in seen + [vs[0]];
      assert forall v | v in seen :: v in seen + [vs[0]];
      Successors(adj, vs[0]);
      SeenShrinks(adj, seen, vs[0]);
      var below := Dfs(adj, seen + [vs[0]], adj[vs[0]]);
      SeenMore(adj, seen, vs[0], below);
      Dfs(adj, below, vs[1..])
  }

  ghost predicate AllNodes<T>(adj: Adjacency<T>, frames: seq<seq<T>>) {
    forall i | 0 <= i < |frames| :: Nodes(adj, frames[i])
  }

  /** The search goes on: each frame's remaining nodes in turn, the topmost frame first. */
  ghost function Resume<T(!new)>(adj: Adjacency<T>, seen: seq<T>, frames: seq<seq<T>>): seq<T>
    requires WellFormed(adj) && AllNodes(adj, frames)
    decreases |frames|
  {
    if frames == [] then seen else Resume(adj, Dfs(adj, seen, frames[|frames| - 1]), frames[..|frames| - 1])
  }

  lemma ResumeTop<T(!new)>(adj: Adjacency<T>, seen: seq<T>, frames: seq<seq<T>>, top: seq<T>)
    requires WellFormed(adj) && AllNodes(adj, frames) && Nodes(adj, top)
    ensures AllNodes(adj, frames + [top])
    ensures Resume(adj, seen, frames + [top]) == Resume(adj, Dfs(adj, seen, top), frames)
  {
    assert (frames + [top])[..|frames|] == frames;
  }

  lemma ResumeSeen<T(!new)>(adj: Adjacency<T>, seen: seq<T>, frames: seq<seq<T>>, v: T, rest: seq<T>)
    requires WellFormed(adj) && AllNodes(adj, frames) && Nodes(adj, rest) && v in adj && v in seen
    ensures AllNodes(adj, frames + [[v] + rest]) && AllNodes(adj, frames + [rest])
    ensures Resume(adj, seen, frames + [[v] + rest]) == Resume(adj, seen, frames + [rest])
  {
    assert Nodes(adj, [v] + rest) && ([v] + rest)[1..] == rest;
    ResumeTop(adj, seen, frames, [v] + rest);
    ResumeTop(adj, seen, frames, rest);
  }

  lemma ResumeNew<T(!new)>(adj: Adjacency<T>, seen: seq<T>, frames: seq<seq<T>>, v: T, rest: seq<T>)
    requires WellFormed(adj) && AllNodes(adj, frames) && Nodes(adj, rest) && v in adj && v !in seen
    ensures AllNodes(adj, frames + [[v] + rest]) && AllNodes(adj, frames + [rest] + [adj[v]])
    ensures Resume(adj, seen, frames + [[v] + rest]) == Resume(adj, seen + [v], frames + [rest] + [adj[v]])
  {
    assert Nodes(adj, [v] + rest) && ([v] + rest)[1..] == rest;
    Successors(adj, v);
    ResumeTop(adj, seen, frames, [v] + rest);
    ResumeTop(adj, Dfs(adj, seen + [v], adj[v]), frames, rest);
    ResumeTop(adj, seen + [v], frames + [rest], adj[v]);
  }

  /** What each frame has still to try, the roots not yet tried below them all. */
  ghost predicate Ahead<T>(adj: Adjacency<T>, starts: seq<T>, started: nat, work: seq<T>, pos: map<T, nat>, frames: seq<seq<T>>) {
    && |frames| == |work| + 1 && started <= |starts| && frames[0] == starts[started..]
    && forall i | 0 <= i < |work| ::
         work[i] in adj && work[i] in pos && pos[work[i]] <= |adj[work[i]]| && frames[i + 1] == adj[work[i]][pos[work[i]]..]
  }

  lemma AheadNodes<T(!new)>(adj: Adjacency<T>, starts: seq<T>, started: nat, work: seq<T>, pos: map<T, nat>, frames: seq<seq<T>>)
    requires Input(adj, starts) && Ahead(adj, starts, started, work, pos, frames)
    ensures AllNodes(adj, frames)
  {
    forall i | 0 <= i < |frames| ensures Nodes(adj, frames[i]) {
      if i == 0 {
        forall v | v in frames[0] ensures v in adj { assert v in starts; }
      } else {
        Successors(adj, work[i - 1]);
        forall v | v in frames[i] ensures v in adj { assert v in adj[work[i - 1]]; }
      }
    }
  }

  /** `goal` is what the search from this state leads to. */
  ghost predicate LeadsTo<T(!new)>(adj: Adjacency<T>, starts: seq<T>, s: State<T>, goal: seq<T>) {
    exists frames :: Ahead(adj, starts, s.started, s.work, s.pos, frames) && WellFormed(adj) && AllNodes(adj, frames)
                     && Resume(adj, s.opens, frames) == goal
  }

  /** The frames below the top. */
  lemma Below<T(!new)>(adj: Adjacency<T>, starts: seq<T>, started: nat, work: seq<T>, pos: map<T, nat>, frames: seq<seq<T>>)
      returns (lower: seq<seq<T>>, top: seq<T>)
    requires Input(adj, starts) && Ahead(adj, starts, started, work, pos, frames) && work != []
    ensures frames == lower + [top] && Ahead(adj, starts, started, work[..|work| - 1], pos, lower)
    ensures AllNodes(adj, lower) && Nodes(adj, top) && Last(work) in adj && Last(work) in pos && pos[Last(work)] <= |adj[Last(work)]|
    ensures top == adj[Last(work)][pos[Last(work)]..]
  {
    lower, top := frames[..|work|], frames[|work|];
    AheadNodes(adj, starts, started, work, pos, frames);
    var init := work[..|work| - 1];
    forall i | 0 <= i < |init|
      ensures init[i] in adj && init[i] in pos && pos[init[i]] <= |adj[init[i]]| && lower[i + 1] == adj[init[i]][pos[init[i]]..]
    {
      assert init[i] == work[i] && lower[i + 1] == frames[i + 1];
    }
    assert work[|work| - 1] == Last(work) && frames[|work| - 1 + 1] == top;
  }

  /** Frames do not depend on the positions of nodes outside them. */
  lemma SameFrames<T(!new)>(adj: Adjacency<T>, starts: seq<T>, started: nat, work: seq<T>, pos: map<T, nat>, other: map<T, nat>,
                            frames: seq<seq<T>>)
    requires Ahead(adj, starts, started, work, pos, frames)
    requires forall v | v in work :: v in pos ==> v in other && other[v] == pos[v]
    ensures Ahead(adj, starts, started, work, other, frames)
  {
    forall i | 0 <= i < |work| ensures work[i] in other && other[work[i]] == pos[work[i]] { assert work[i] in work; }
  }

  lemma PushFrame<T(!new)>(adj: Adjacency<T>, starts: seq<T>, started: nat, work: seq<T>, pos: map<T, nat>, lower: seq<seq<T>>,
                           v: T, k: nat)
    requires Ahead(adj, starts, started, work, pos, lower) && v in adj && v in pos && pos[v] == k <= |adj[v]|
    ensures Ahead(adj, starts, started, work + [v], pos, lower + [adj[v][k..]])
  {
    var w, frames := work + [v], lower + [adj[v][k..]];
    forall i | 0 <= i < |w|
      ensures w[i] in adj && w[i] in pos && pos[w[i]] <= |adj[w[i]]| && frames[i + 1] == adj[w[i]][pos[w[i]]..]
    {
      if i < |work| { assert w[i] == work[i] && frames[i + 1] == lower[i + 1]; }
    }
  }

  lemma LeadsWith<T(!new)>(adj: Adjacency<T>, starts: seq<T>, s: State<T>, frames: seq<seq<T>>, goal: seq<T>)
    requires Input(adj, starts) && Ahead(adj, starts, s.started, s.work, s.pos, frames)
    requires AllNodes(adj, frames) ==> Resume(adj, s.opens, frames) == goal
    ensures LeadsTo(adj, starts, s, goal)
  {
    AheadNodes(adj, starts, s.started, s.work, s.pos, frames);
  }

  lemma InWork<T>(work: seq<T>, v: T)
    requires NoDuplicates(work) && work != []
    ensures Last(work) !in work[..|work| - 1] && work == work[..|work| - 1] + [Last(work)]
    ensures forall w | w in work[..|work| - 1] :: w in work
  {
  }

  lemma RootLeads<T(!new)>(adj: Adjacency<T>, starts: seq<T>, s: State<T>, n: State<T>, goal: seq<T>)
    requires Input(adj, starts) && LeadsTo(adj, starts, s, goal) && s.work == [] && s.started < |starts|
    requires n == var m := s.(started := s.started + 1); if starts[s.started] in s.opens then m else Open(m, starts[s.started])
    ensures LeadsTo(adj, starts, n, goal)
  {
    var frames :| Ahead(adj, starts, s.started, s.work, s.pos, frames) && WellFormed(adj) && AllNodes(adj, frames)
      && Resume(adj, s.opens, frames) == goal;
    var v, rest := starts[s.started], starts[s.started + 1..];
    assert v in starts;
    assert frames[0] == starts[s.started..] == [v] + rest;
    assert frames == [] + [[v] + rest];
    assert Nodes(adj, rest) by { forall w | w in rest ensures w in adj { assert w in starts; } }
    if v in s.opens {
      ResumeSeen(adj, s.opens, [], v, rest);
      LeadsWith(adj, starts, n, [] + [rest], goal);
    } else {
      ResumeNew(adj, s.opens, [], v, rest);
      assert Ahead(adj, starts, n.started, [], n.pos, [] + [rest]);
      PushFrame(adj, starts, n.started, [], n.pos, [] + [rest], v, 0);
      assert adj[v][0..] == adj[v] && [] + [v] == [v];
      LeadsWith(adj, starts, n, [] + [rest] + [adj[v]], goal);
    }
  }

  /** The topmost frame, taken off the search. */
  lemma TopLeads<T(!new)>(adj: Adjacency<T>, starts: seq<T>, s: State<T>, goal: seq<T>)
      returns (lower: seq<seq<T>>, top: seq<T>)
    requires Input(adj, starts) && LeadsTo(adj, starts, s, goal) && s.work != []
    ensures Ahead(adj, starts, s.started, s.work[..|s.work| - 1], s.pos, lower) && AllNodes(adj, lower) && Nodes(adj, top)
    ensures var v := Last(s.work); v in adj && v in s.pos && s.pos[v] <= |adj[v]| && top == adj[v][s.pos[v]..]
    ensures AllNodes(adj, lower + [top]) && Resume(adj, s.opens, lower + [top]) == goal
  {
    var frames :| Ahead(adj, starts, s.started, s.work, s.pos, frames) && WellFormed(adj) && AllNodes(adj, frames)
      && Resume(adj, s.opens, frames) == goal;
    lower, top := Below(adj, starts, s.started, s.work, s.pos, frames);
  }

  lemma CloseLeads<T(!new)>(adj: Adjacency<T>, starts: seq<T>, s: State<T>, n: State<T>, goal: seq<T>)
    requires Input(adj, starts) && LeadsTo(adj, starts, s, goal) && s.work != []
    requires Last(s.work) in adj && Last(s.work) in s.pos && s.pos[Last(s.work)] == |adj[Last(s.work)]|
    requires n.started == s.started && n.work == s.work[..|s.work| - 1] && n.pos == s.pos && n.opens == s.opens
    ensures LeadsTo(adj, starts, n, goal)
  {
    var lower, top := TopLeads(adj, starts, s, goal);
    assert top == [];
    ResumeTop(adj, s.opens, lower, top);
    LeadsWith(adj, starts, n, lower, goal);
  }

  lemma LookLeads<T(!new)>(adj: Adjacency<T>, starts: seq<T>, s: State<T>, n: State<T>, goal: seq<T>)
    requires Input(adj, starts) && LeadsTo(adj, starts, s, goal) && s.work != [] && NoDuplicates(s.work)
    requires Last(s.work) in adj && Last(s.work) in s.pos && s.pos[Last(s.work)] < |adj[Last(s.work)]|
    requires var v := Last(s.work); var y := adj[v][s.pos[v]];
             && n.started == s.started
             && if y in s.opens then n.opens == s.opens && n.work == s.work && n.pos == s.pos[v := s.pos[v] + 1]
                else y !in s.work && y != v && n.opens == s.opens + [y] && n.work == s.work + [y]
                     && n.pos == s.pos[v := s.pos[v] + 1][y := 0]
    ensures LeadsTo(adj, starts, n, goal)
  {
    var v := Last(s.work);
    var k, y, init := s.pos[v], adj[v][s.pos[v]], s.work[..|s.work| - 1];
    var lower, top := TopLeads(adj, starts, s, goal);
    var rest := adj[v][k + 1..];
    assert top == [y] + rest;
    InWork(s.work, v);
    Successors(adj, v);
    assert Nodes(adj, rest) && y in adj[v];
    SameFrames(adj, starts, n.started, init, s.pos, n.pos, lower);
    PushFrame(adj, starts, n.started, init, n.pos, lower, v, k + 1);
    if y in s.opens {
      ResumeSeen(adj, s.opens, lower, y, rest);
      LeadsWith(adj, starts, n, lower + [rest], goal);
    } else {
      ResumeNew(adj, s.opens, lower, y, rest);
      PushFrame(adj, starts, n.started, s.work, n.pos, lower + [rest], y, 0);
      assert adj[y][0..] == adj[y];
      LeadsWith(adj, starts, n, lower + [rest] + [adj[y]], goal);
    }
  }

  lemma LookStep<T(!new)>(adj: Adjacency<T>, s: State<T>)
    requires TopReady(adj, s) && s.pos[Last(s.work)] < |adj[Last(s.work)]| && s.pos.Keys == s.index.Keys
    requires (forall w | w in s.work :: w in s.index) && forall w :: w in s.opens <==> w in s.index
    ensures var v := Last(s.work); var y := adj[v][s.pos[v]]; var n := Look(adj, s);
            && n.started == s.started
            && if y in s.opens then n.opens == s.opens && n.work == s.work && n.pos == s.pos[v := s.pos[v] + 1]
               else y !in s.work && y != v && n.opens == s.opens + [y] && n.work == s.work + [y]
                    && n.pos == s.pos[v := s.pos[v] + 1][y := 0]
  {
  }

  lemma StepLeads<T(!new)>(le: (T, T) -> bool, adj: Adjacency<T>, starts: seq<T>, s: State<T>, goal: seq<T>)
    requires Input(adj, starts) && Inv(adj, Reaches(adj), starts, s) && !Done(starts, s) && LeadsTo(adj, starts, s, goal)
    ensures s.work != [] ==> TopReady(adj, s)
    ensures LeadsTo(adj, starts, Step(le, adj, starts, s), goal)
  {
    OpensOnce(adj, s.index, s.opens);
    if s.work == [] {
      RootLeads(adj, starts, s, Step(le, adj, starts, s), goal);
    } else {
      TopFacts(adj, Reaches(adj), starts, s);
      if s.pos[Last(s.work)] < |adj[Last(s.work)]| {
        LookStep(adj, s);
        LookLeads(adj, starts, s, Look(adj, s), goal);
      } else {
        CloseTables(le, adj, s);
        CloseLeads(adj, starts, s, Close(le, adj, s), goal);
      }
    }
  }

  lemma {:induction false} RunLeads<T(!new)>(le: (T, T) -> bool, adj: Adjacency<T>, starts: seq<T>, s: State<T>, goal: seq<T>)
    requires Follows(le, adj, starts, LiveStates(adj, starts)) && LiveStates(adj, starts)(s) && LeadsTo(adj, starts, s, goal)
    ensures Run(le, adj, starts, LiveStates(adj, starts), s).opens == goal
    decreases adj.Keys - s.index.Keys, |starts| - s.started, |s.work|, Left(adj, s)
  {
    if Done(starts, s) {
      var frames :| Ahead(adj, starts, s.started, s.work, s.pos, frames) && WellFormed(adj) && AllNodes(adj, frames)
        && Resume(adj, s.opens, frames) == goal;
      assert frames == [] + [starts[s.started..]] && starts[s.started..] == [];
      ResumeTop(adj, s.opens, [], []);
    } else {
      StepDecreases(le, adj, starts, s);
      StepLeads(le, adj, starts, s, goal);
      RunLeads(le, adj, starts, Step(le, adj, starts, s), goal);
    }
  }

  /** Nodes get their index in the order in which a recursive depth-first search over the
      roots, with the lists as they are sorted, visits them first. */
  lemma OpensDepthFirst<T(!new)>(le: (T, T) -> bool, adj: Adjacency<T>, starts: seq<T>)
    requires Input(adj, starts)
    ensures Nodes(adj, starts) && Final(le, adj, starts).opens == Dfs(adj, [], starts)
  {
    LiveFollows(le, adj, starts);
    assert starts[0..] == starts;
    ResumeTop(adj, [], [], starts);
    LeadsWith(adj, starts, Initial<T>(), [] + [starts], Dfs(adj, [], starts));
    RunLeads(le, adj, starts, Initial(), Dfs(adj, [], starts));
  }

  // ---------- Batches follow that order unless an edge forbids it

  /** A stacked node reaches a frame at or below it. */
  lemma {:induction false} FrameBelow<T(!new)>(adj: Adjacency<T>, r: (T, T) -> bool, s: State<T>, u: T) returns (w: T)
    requires Preorder(adj, r) && Numbered(adj, s.index, s.opens) && Linked(r, s) && u in s.stack && u in s.index
    ensures w in s.work && w in s.index && r(u, w) && s.index[w] <= s.index[u]
    decreases if u in s.index then s.index[u] else 0
  {
    assert LowReached(r, s, u);
    if u in s.work {
      w := u;
    } else {
      var x := s.opens[s.low[u]];
      assert x in s.index && s.index[x] == s.low[u];
      w := FrameBelow(adj, r, s, x);
      assert r(u, x) && r(x, w);
    }
  }

  /** So a stacked node reaches every node stacked above it. */
  lemma StackReaches<T(!new)>(adj: Adjacency<T>, r: (T, T) -> bool, s: State<T>, a: T, b: T)
    requires Preorder(adj, r) && Numbered(adj, s.index, s.opens) && Linked(r, s) && Above(r, s.index, s.work, s.stack)
    requires a in s.stack && b in s.stack && a in s.index && b in s.index && s.index[a] <= s.index[b]
    ensures r(a, b)
  {
    var w := FrameBelow(adj, r, s, a);
    assert r(a, w) && r(w, b);
  }

  /** A node opened before an emitted one, and not emitted before it, reaches it. */
  ghost predicate InOrder<T(!new)>(r: (T, T) -> bool, index: map<T, nat>, comp: map<T, nat>) {
    forall a, b | a in index && b in index && b in comp && index[a] < index[b] && (a in comp ==> comp[b] < comp[a]) :: r(a, b)
  }

  lemma EmitInOrder<T(!new)>(adj: Adjacency<T>, r: (T, T) -> bool, s: State<T>, batch: seq<T>, comp: map<T, nat>)
    requires Preorder(adj, r) && Numbered(adj, s.index, s.opens) && Linked(r, s) && Above(r, s.index, s.work, s.stack)
    requires Stacked(s.index, s.stack, s.comp) && InOrder(r, s.index, s.comp)
    requires (forall v | v in batch :: v in s.stack) && (forall v | v in s.comp :: s.comp[v] < |s.sccs|)
    requires comp == Joined(s.comp, batch, |s.sccs|)
    ensures InOrder(r, s.index, comp)
  {
    forall a, b | a in s.index && b in s.index && b in comp && s.index[a] < s.index[b] && (a in comp ==> comp[b] < comp[a])
      ensures r(a, b)
    {
      if b in batch {
        assert a !in batch;
        assert a !in s.comp;
        StackReaches(adj, r, s, a, b);
      } else {
        assert b in s.comp && comp[b] == s.comp[b];
      }
    }
  }

  lemma OpenInOrder<T(!new)>(adj: Adjacency<T>, r: (T, T) -> bool, index: map<T, nat>, opens: seq<T>, stack: seq<T>,
                             comp: map<T, nat>, v: T)
    requires Numbered(adj, index, opens) && Stacked(index, stack, comp) && InOrder(r, index, comp) && v !in index
    ensures InOrder(r, index[v := |opens|], comp)
  {
  }

  lemma CloseInOrder<T(!new)>(le: (T, T) -> bool, adj: Adjacency<T>, r: (T, T) -> bool, starts: seq<T>, s: State<T>)
    requires Preorder(adj, r) && Inv(adj, r, starts, s) && TopReady(adj, s) && InOrder(r, s.index, s.comp)
    ensures InOrder(r, Close(le, adj, s).index, Close(le, adj, s).comp)
  {
    var v := Last(s.work);
    CloseTables(le, adj, s);
    if s.low[v] == s.index[v] {
      var batch := s.stack[IndexOf(s.stack, v)..];
      forall u | u in batch ensures u in s.stack {}
      EmitInOrder(adj, r, s, batch, Joined(s.comp, batch, |s.sccs|));
    }
  }

  lemma StepInOrder<T(!new)>(le: (T, T) -> bool, adj: Adjacency<T>, r: (T, T) -> bool, starts: seq<T>, s: State<T>)
    requires Preorder(adj, r) && Inv(adj, r, starts, s) && !Done(starts, s) && InOrder(r, s.index, s.comp)
    ensures s.work != [] ==> TopReady(adj, s)
    ensures InOrder(r, Step(le, adj, starts, s).index, Step(le, adj, starts, s).comp)
  {
    if s.work == [] {
      if starts[s.started] !in s.index { OpenInOrder(adj, r, s.index, s.opens, s.stack, s.comp, starts[s.started]); }
    } else {
      TopFacts(adj, r, starts, s);
      if s.pos[Last(s.work)] < |adj[Last(s.work)]| {
        var y := adj[Last(s.work)][s.pos[Last(s.work)]];
        if y !in s.index { OpenInOrder(adj, r, s.index, s.opens, s.stack, s.comp, y); }
      } else {
        CloseInOrder(le, adj, r, starts, s);
      }
    }
  }

  lemma {:induction false} RunInOrder<T(!new)>(le: (T, T) -> bool, adj: Adjacency<T>, starts: seq<T>, s: State<T>)
    requires Follows(le, adj, starts, LiveStates(adj, starts)) && LiveStates(adj, starts)(s)
    requires InOrder(Reaches(adj), s.index, s.comp)
    ensures var f := Run(le, adj, starts, LiveStates(adj, starts), s); InOrder(Reaches(adj), f.index, f.comp)
    decreases adj.Keys - s.index.Keys, |starts| - s.started, |s.work|, Left(adj, s)
  {
    if !Done(starts, s) {
      ReachesPreorder(adj);
      StepDecreases(le, adj, starts, s);
      StepInOrder(le, adj, Reaches(adj), starts, s);
      RunInOrder(le, adj, starts, Step(le, adj, starts, s));
    }
  }

  lemma OrderDecided<T(!new)>(adj: Adjacency<T>, f: State<T>, p: nat, q: nat, i: nat, j: nat)
    requires Numbered(adj, f.index, f.opens) && Emitted(adj, Reaches(adj), f.comp, f.sccs) && InOrder(Reaches(adj), f.index, f.comp)
    requires p < q < |f.opens| && i < |f.sccs| && j < |f.sccs| && i != j && f.opens[p] in f.sccs[i] && f.opens[q] in f.sccs[j]
    ensures i < j <==> !Reach(adj, f.opens[p], f.opens[q])
  {
    var a, b := f.opens[p], f.opens[q];
    assert f.index[a] == p && f.index[b] == q && f.comp[a] == i && f.comp[b] == j;
    BatchesOrdered(adj, f, a, b);
    if j < i { assert Reaches(adj)(a, b); }
  }

  lemma FinalInOrder<T(!new)>(le: (T, T) -> bool, adj: Adjacency<T>, starts: seq<T>)
    requires Input(adj, starts)
    ensures var f := Final(le, adj, starts);
            Numbered(adj, f.index, f.opens) && Emitted(adj, Reaches(adj), f.comp, f.sccs) && InOrder(Reaches(adj), f.index, f.comp)
  {
    LiveFollows(le, adj, starts);
    RunInOrder(le, adj, starts, Initial());
    assert LiveStates(adj, starts)(Final(le, adj, starts));
  }

  /** Of two nodes in different batches the one a depth-first search visits first is in the
      earlier batch, unless it reaches the other: this decides the order of all batches. */
  lemma EmissionOrder<T(!new)>(le: (T, T) -> bool, adj: Adjacency<T>, starts: seq<T>, order: seq<T>, p: nat, q: nat, i: nat, j: nat)
    requires Input(adj, starts) && Nodes(adj, starts) && order == Dfs(adj, [], starts) && p < q < |order|
    requires i < |Final(le, adj, starts).sccs| && j < |Final(le, adj, starts).sccs| && i != j
    requires order[p] in Final(le, adj, starts).sccs[i] && order[q] in Final(le, adj, starts).sccs[j]
    ensures i < j <==> !Reach(adj, order[p], order[q])
  {
    OpensDepthFirst(le, adj, starts);
    FinalInOrder(le, adj, starts);
    OrderDecided(adj, Final(le, adj, starts), p, q, i, j);
  }
}
