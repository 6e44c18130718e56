/** Listing an edge or a root more than once changes nothing but the work. */
module TarjanRepeats {
  import opened Ordering
  import opened Graphs
  import opened TarjanMachine
  import opened TarjanInvariant
  import opened TarjanClose
  import opened TarjanRun

  /** The first occurrences in `s`. */
  ghost function Distinct<T>(s: seq<T>): seq<T> {
    if s == [] then []
    else
      var init, x := s[..|s| - 1], s[|s| - 1];
      if x in init then Distinct(init) else Distinct(init) + [x]
  }

  lemma {:induction false} DistinctMembers<T>(s: seq<T>)
    ensures NoDuplicates(Distinct(s)) && forall x :: x in Distinct(s) <==> x in s
  {
    if s != [] {
      DistinctMembers(s[..|s| - 1]);
      assert s == s[..|s| - 1] + [s[|s| - 1]];
    }
  }

  /** The first occurrences in a prefix come first. */
  lemma {:induction false} DistinctPrefix<T>(s: seq<T>, k: nat)
    requires k <= |s|
    ensures Distinct(s[..k]) <= Distinct(s)
  {
    if k == |s| {
      assert s[..k] == s;
    } else {
      DistinctPrefix(s[..|s| - 1], k);
      assert s[..|s| - 1][..k] == s[..k];
    }
  }

  lemma DistinctNext<T>(s: seq<T>, k: nat)
    requires k < |s|
    ensures Distinct(s[..k + 1]) == if s[k] in s[..k] then Distinct(s[..k]) else Distinct(s[..k]) + [s[k]]
    ensures s[k] !in s[..k] ==> |Distinct(s[..k])| < |Distinct(s)| && Distinct(s)[|Distinct(s[..k])|] == s[k]
  {
    assert s[..k + 1][..k] == s[..k];
    DistinctPrefix(s, k + 1);
  }

  lemma {:induction false} DistinctSorted<T(!new)>(le: (T, T) -> bool, s: seq<T>)
    requires SortedBy(le, s)
    ensures SortedBy(le, Distinct(s))
  {
    if s != [] {
      var init := s[..|s| - 1];
      DistinctSorted(le, init);
      DistinctMembers(init);
      forall i | 0 <= i < |Distinct(init)| ensures le(Distinct(init)[i], s[|s| - 1]) {
        assert Distinct(init)[i] in init;
      }
    }
  }

  /** Sorted and without repeats, a list is determined by its members. */
  lemma DistinctSort<T(!new)>(le: (T, T) -> bool, s: seq<T>, t: seq<T>)
    requires TotalOrder(le) && forall x :: x in s <==> x in t
    ensures Distinct(Sort(le, s)) == Distinct(Sort(le, t))
  {
    var a, b := Sort(le, s), Sort(le, t);
    SameMembers(a, s);
    SameMembers(b, t);
    SortSorted(le, s);
    SortSorted(le, t);
    DistinctSorted(le, a);
    DistinctSorted(le, b);
    DistinctMembers(a);
    DistinctMembers(b);
    SetsAsMultisets(Distinct(a), Distinct(b));
    SortedUnique(le, Distinct(a), Distinct(b));
  }

  // ---------- The machine skips repeats

  ghost predicate RepeatedSlot<T(!new)>(adj: Adjacency<T>, s: State<T>) {
    && s.work != []
    && var v := Last(s.work);
       v in adj && v in s.pos && s.pos[v] < |adj[v]| && adj[v][s.pos[v]] in adj[v][..s.pos[v]]
  }

  ghost predicate RepeatedRoot<T(!new)>(starts: seq<T>, s: State<T>) {
    s.work == [] && s.started < |starts| && starts[s.started] in starts[..s.started]
  }

  /** Of an edge examined before, nothing is left to learn. */
  lemma RepeatTeachesNothing<T(!new)>(adj: Adjacency<T>, r: (T, T) -> bool, starts: seq<T>, s: State<T>)
    requires Inv(adj, r, starts, s) && RepeatedSlot(adj, s)
    ensures TopReady(adj, s) && Look(adj, s) == Advance(s, Last(s.work))
  {
    TopFacts(adj, r, starts, s);
    var v := Last(s.work);
    var y := adj[v][s.pos[v]];
    var q :| 0 <= q < s.pos[v] && adj[v][q] == y;
    assert Slot(adj, s, v, q);
    assert Accounted(s, v, y);
    assert !NextFrame(s.work, v, y);
    if y in s.stack { assert s.low[v := Min(s.low[v], s.index[y])] == s.low; }
  }

  /** What the run of `live` states needs to know of repeats. */
  ghost predicate Skips<T(!new)>(adj: Adjacency<T>, starts: seq<T>, live: State<T> -> bool) {
    && (forall s {:trigger live(s)} | live(s) && RepeatedSlot(adj, s) ::
          TopReady(adj, s) && Look(adj, s) == Advance(s, Last(s.work)))
    && (forall s {:trigger live(s)} | live(s) && RepeatedRoot(starts, s) :: starts[s.started] in s.index)
    && (forall s {:trigger live(s)} | live(s) :: s.started <= |starts|)
  }

  lemma LiveSkips<T(!new)>(adj: Adjacency<T>, starts: seq<T>)
    ensures Skips(adj, starts, LiveStates(adj, starts))
  {
    forall s | LiveStates(adj, starts)(s) && RepeatedSlot(adj, s)
      ensures TopReady(adj, s) && Look(adj, s) == Advance(s, Last(s.work))
    {
      RepeatTeachesNothing(adj, Reaches(adj), starts, s);
    }
  }

  ghost predicate Reduced<T(!new)>(adj: Adjacency<T>, lean: Adjacency<T>) {
    adj.Keys == lean.Keys && forall v | v in adj :: lean[v] == Distinct(adj[v])
  }

  ghost predicate Positioned<T(!new)>(adj: Adjacency<T>, work: seq<T>, pos: map<T, nat>, leanPos: map<T, nat>) {
    forall v | v in work :: v in adj && v in pos && v in leanPos
                            && pos[v] <= |adj[v]| && leanPos[v] == |Distinct(adj[v][..pos[v]])|
  }

  /** `t` is `s`, had every repeat been left out. */
  ghost predicate Shadows<T(!new)>(adj: Adjacency<T>, starts: seq<T>, s: State<T>, t: State<T>) {
    && t.work == s.work && t.index == s.index && t.low == s.low && t.opens == s.opens
    && t.stack == s.stack && t.comp == s.comp && t.sccs == s.sccs
    && s.started <= |starts| && t.started == |Distinct(starts[..s.started])|
    && Positioned(adj, s.work, s.pos, t.pos)
  }

  lemma SkipPositioned<T(!new)>(adj: Adjacency<T>, work: seq<T>, pos: map<T, nat>, leanPos: map<T, nat>, v: T)
    requires Positioned(adj, work, pos, leanPos) && v in work && v in adj && v in pos && pos[v] < |adj[v]|
    requires Distinct(adj[v][..pos[v] + 1]) == Distinct(adj[v][..pos[v]])
    ensures Positioned(adj, work, pos[v := pos[v] + 1], leanPos)
  {
  }

  lemma SkipSlot<T(!new)>(adj: Adjacency<T>, starts: seq<T>, s: State<T>, t: State<T>)
    requires Shadows(adj, starts, s, t) && RepeatedSlot(adj, s)
    ensures Shadows(adj, starts, Advance(s, Last(s.work)), t)
  {
    RepeatAddsNothing(adj, s);
    SkipPositioned(adj, s.work, s.pos, t.pos, Last(s.work));
  }

  lemma RepeatAddsNothing<T(!new)>(adj: Adjacency<T>, s: State<T>)
    requires RepeatedSlot(adj, s)
    ensures var v := Last(s.work); Distinct(adj[v][..s.pos[v] + 1]) == Distinct(adj[v][..s.pos[v]])
  {
    DistinctNext(adj[Last(s.work)], s.pos[Last(s.work)]);
  }

  lemma SkipRoot<T(!new)>(adj: Adjacency<T>, starts: seq<T>, s: State<T>, t: State<T>)
    requires Shadows(adj, starts, s, t) && RepeatedRoot(starts, s)
    ensures Shadows(adj, starts, s.(started := s.started + 1), t)
  {
    DistinctNext(starts, s.started);
  }

  lemma OpenShadows<T(!new)>(adj: Adjacency<T>, starts: seq<T>, s: State<T>, t: State<T>, v: T)
    requires Shadows(adj, starts, s, t) && v in adj && v !in s.work
    ensures Shadows(adj, starts, Open(s, v), Open(t, v))
  {
    assert adj[v][..0] == [];
  }

  lemma AdvancePositioned<T(!new)>(adj: Adjacency<T>, work: seq<T>, pos: map<T, nat>, leanPos: map<T, nat>, v: T)
    requires Positioned(adj, work, pos, leanPos) && v in work && v in adj && v in pos && v in leanPos && pos[v] < |adj[v]|
    requires |Distinct(adj[v][..pos[v] + 1])| == leanPos[v] + 1
    ensures Positioned(adj, work, pos[v := pos[v] + 1], leanPos[v := leanPos[v] + 1])
  {
  }

  lemma NewSlotAdds<T(!new)>(adj: Adjacency<T>, s: State<T>)
    requires s.work != [] && !RepeatedSlot(adj, s)
    requires var v := Last(s.work); v in adj && v in s.pos && s.pos[v] < |adj[v]|
    ensures var v := Last(s.work); |Distinct(adj[v][..s.pos[v] + 1])| == |Distinct(adj[v][..s.pos[v]])| + 1
  {
    DistinctNext(adj[Last(s.work)], s.pos[Last(s.work)]);
  }

  lemma AdvanceShadows<T(!new)>(adj: Adjacency<T>, starts: seq<T>, s: State<T>, t: State<T>)
    requires s.work != [] && Shadows(adj, starts, s, t) && !RepeatedSlot(adj, s)
    requires var v := Last(s.work); v in adj && s.pos[v] < |adj[v]|
    ensures Shadows(adj, starts, Advance(s, Last(s.work)), Advance(t, Last(s.work)))
  {
    NewSlotAdds(adj, s);
    AdvancePositioned(adj, s.work, s.pos, t.pos, Last(s.work));
  }

  lemma LookShadows<T(!new)>(adj: Adjacency<T>, lean: Adjacency<T>, starts: seq<T>, s: State<T>, t: State<T>)
    requires WellFormed(adj) && Reduced(adj, lean) && Shadows(adj, starts, s, t) && !RepeatedSlot(adj, s)
    requires TopReady(adj, s) && TopReady(lean, t) && s.pos[Last(s.work)] < |adj[Last(s.work)]|
    requires forall w | w in s.work :: w in s.index
    ensures t.pos[Last(t.work)] < |lean[Last(t.work)]|
    ensures Shadows(adj, starts, Look(adj, s), Look(lean, t))
  {
    var v := Last(s.work);
    DistinctNext(adj[v], s.pos[v]);
    AdvanceShadows(adj, starts, s, t);
    var y := adj[v][s.pos[v]];
    assert lean[v][t.pos[v]] == y;
    assert Edge(adj, v, y);
    if y !in s.index { OpenShadows(adj, starts, Advance(s, v), Advance(t, v), y); }
  }

  lemma CloseShadows<T(!new)>(le: (T, T) -> bool, adj: Adjacency<T>, lean: Adjacency<T>, starts: seq<T>, s: State<T>, t: State<T>)
    requires Reduced(adj, lean) && Shadows(adj, starts, s, t) && TopReady(adj, s) && TopReady(lean, t)
    requires s.pos[Last(s.work)] == |adj[Last(s.work)]|
    ensures t.pos[Last(t.work)] == |lean[Last(t.work)]|
    ensures Shadows(adj, starts, Close(le, adj, s), Close(le, lean, t))
  {
    var v := Last(s.work);
    assert adj[v][..s.pos[v]] == adj[v];
    CloseTables(le, adj, s);
    CloseTables(le, lean, t);
  }

  lemma NextRootShadows<T(!new)>(adj: Adjacency<T>, starts: seq<T>, s: State<T>, t: State<T>)
    requires Shadows(adj, starts, s, t) && s.started < |starts| && starts[s.started] !in starts[..s.started]
    ensures t.started < |Distinct(starts)| && Distinct(starts)[t.started] == starts[s.started]
    ensures Shadows(adj, starts, s.(started := s.started + 1), t.(started := t.started + 1))
  {
    DistinctNext(starts, s.started);
  }

  lemma RootShadows<T(!new)>(le: (T, T) -> bool, adj: Adjacency<T>, lean: Adjacency<T>, starts: seq<T>, s: State<T>, t: State<T>)
    requires Shadows(adj, starts, s, t) && s.work == [] && s.started < |starts| && !RepeatedRoot(starts, s)
    requires starts[s.started] in adj
    ensures t.started < |Distinct(starts)|
    ensures Shadows(adj, starts, Step(le, adj, starts, s), Step(le, lean, Distinct(starts), t))
  {
    var v := starts[s.started];
    var n, m := s.(started := s.started + 1), t.(started := t.started + 1);
    NextRootShadows(adj, starts, s, t);
    if v !in s.index { OpenShadows(adj, starts, n, m, v); }
  }

  lemma StepShadows<T(!new)>(le: (T, T) -> bool, adj: Adjacency<T>, lean: Adjacency<T>, starts: seq<T>, live: State<T> -> bool,
                             s: State<T>, leanLive: State<T> -> bool, t: State<T>)
    requires Follows(le, adj, starts, live) && live(s) && Skips(adj, starts, live) && !Done(starts, s)
    requires Follows(le, lean, Distinct(starts), leanLive) && leanLive(t)
    requires Reduced(adj, lean) && Shadows(adj, starts, s, t)
    ensures s.work != [] ==> TopReady(adj, s)
    ensures || Shadows(adj, starts, Step(le, adj, starts, s), t)
            || (!Done(Distinct(starts), t) && (t.work != [] ==> TopReady(lean, t))
                && Shadows(adj, starts, Step(le, adj, starts, s), Step(le, lean, Distinct(starts), t)))
  {
    if s.work == [] {
      assert starts[s.started] in starts;
      if RepeatedRoot(starts, s) { SkipRoot(adj, starts, s, t); } else { RootShadows(le, adj, lean, starts, s, t); }
    } else {
      if RepeatedSlot(adj, s) {
        SkipSlot(adj, starts, s, t);
      } else if s.pos[Last(s.work)] < |adj[Last(s.work)]| {
        LookShadows(adj, lean, starts, s, t);
      } else {
        CloseShadows(le, adj, lean, starts, s, t);
      }
    }
  }

  lemma {:induction false} RunShadows<T(!new)>(le: (T, T) -> bool, adj: Adjacency<T>, lean: Adjacency<T>, starts: seq<T>,
                                               live: State<T> -> bool, s: State<T>, leanLive: State<T> -> bool, t: State<T>)
    requires Follows(le, adj, starts, live) && live(s) && Skips(adj, starts, live)
    requires Follows(le, lean, Distinct(starts), leanLive) && leanLive(t)
    requires Reduced(adj, lean) && Shadows(adj, starts, s, t)
    ensures Run(le, adj, starts, live, s).sccs == Run(le, lean, Distinct(starts), leanLive, t).sccs
    decreases adj.Keys - s.index.Keys, |starts| - s.started, |s.work|, Left(adj, s)
  {
    if Done(starts, s) {
      assert starts[..s.started] == starts;
    } else {
      StepShadows(le, adj, lean, starts, live, s, leanLive, t);
      StepDecreases(le, adj, starts, s);
      var n := Step(le, adj, starts, s);
      if Shadows(adj, starts, n, t) {
        RunShadows(le, adj, lean, starts, live, n, leanLive, t);
      } else {
        RunShadows(le, adj, lean, starts, live, n, leanLive, Step(le, lean, Distinct(starts), t));
      }
    }
  }

  ghost function Lean<T(!new)>(adj: Adjacency<T>): Adjacency<T> {
    map v | v in adj :: Distinct(adj[v])
  }

  lemma LeanInput<T(!new)>(adj: Adjacency<T>, starts: seq<T>)
    requires Input(adj, starts)
    ensures Input(Lean(adj), Distinct(starts)) && Reduced(adj, Lean(adj))
  {
    DistinctMembers(starts);
    forall a, b | Edge(Lean(adj), a, b) ensures b in Lean(adj) {
      DistinctMembers(adj[a]);
      assert Edge(adj, a, b);
    }
  }

  /** The batches are those of the graph without repeated edges and roots. */
  lemma RepeatsIrrelevant<T(!new)>(le: (T, T) -> bool, adj: Adjacency<T>, starts: seq<T>)
    requires Input(adj, starts)
    ensures Input(Lean(adj), Distinct(starts))
    ensures Final(le, adj, starts).sccs == Final(le, Lean(adj), Distinct(starts)).sccs
  {
    LeanInput(adj, starts);
    LiveFollows(le, adj, starts);
    LiveFollows(le, Lean(adj), Distinct(starts));
    LiveSkips(adj, starts);
    assert starts[..0] == [];
    RunShadows(le, adj, Lean(adj), starts, LiveStates(adj, starts), Initial(),
               LiveStates(Lean(adj), Distinct(starts)), Initial());
  }
}
