/** The explicit-stack strongly-connected-components algorithm as a deterministic
    machine: one step starts a root, examines one adjacency slot, or closes a frame. */
module TarjanMachine {
  import opened Ordering
  import opened Graphs

  /** `work` and `pos` are the frame stack, `opens` lists nodes in the order they
      got their index, `comp` maps each emitted node to its batch number, and
      `looks` logs every adjacency slot examined. */
  datatype State<T> = State(
    started: nat,
    work: seq<T>,
    pos: map<T, nat>,
    index: map<T, nat>,
    low: map<T, nat>,
    opens: seq<T>,
    stack: seq<T>,
    comp: map<T, nat>,
    sccs: seq<seq<T>>,
    looks: seq<(T, nat)>)

  function Min(a: nat, b: nat): nat { if a <= b then a else b }

  function Last<T>(s: seq<T>): T
    requires s != []
  {
    s[|s| - 1]
  }

  function Reversed<T>(s: seq<T>): (r: seq<T>)
    ensures multiset(r) == multiset(s)
  {
    if s == [] then []
    else
      assert s == [s[0]] + s[1..];
      Reversed(s[1..]) + [s[0]]
  }

  function IndexOf<T(==)>(s: seq<T>, x: T): (i: nat)
    requires x in s
    ensures i < |s| && s[i] == x && x !in s[..i]
  {
    if s[0] == x then 0 else 1 + IndexOf(s[1..], x)
  }

  function Initial<T>(): State<T> {
    State(0, [], map[], map[], map[], [], [], map[], [], [])
  }

  function Open<T(==)>(s: State<T>, v: T): State<T> {
    s.(work := s.work + [v],
       pos := s.pos[v := 0],
       index := s.index[v := |s.opens|],
       low := s.low[v := |s.opens|],
       opens := s.opens + [v],
       stack := s.stack + [v])
  }

  /** What the frame stack guarantees about its top frame. */
  ghost predicate TopReady<T>(adj: Adjacency<T>, s: State<T>) {
    && s.work != []
    && var v := Last(s.work);
    && v in adj && v in s.pos && v in s.low && v in s.index && v in s.stack
    && (forall w | w in s.work :: w in s.low)
    && (forall w | w in s.stack :: w in s.index)
  }

  function Advance<T(==)>(s: State<T>, v: T): State<T>
    requires v in s.pos
  {
    s.(pos := s.pos[v := s.pos[v] + 1], looks := s.looks + [(v, s.pos[v])])
  }

  function Lower<T(==)>(s: State<T>, v: T, k: nat): State<T>
    requires v in s.low
  {
    s.(low := s.low[v := Min(s.low[v], k)])
  }

  function Look<T(==)>(adj: Adjacency<T>, s: State<T>): State<T>
    requires TopReady(adj, s) && s.pos[Last(s.work)] < |adj[Last(s.work)]|
  {
    var v := Last(s.work);
    var y := adj[v][s.pos[v]];
    if y !in s.index then Open(Advance(s, v), y)
    else if y in s.stack then Lower(Advance(s, v), v, s.index[y])
    else Advance(s, v)
  }

  function Joined<T(==)>(comp: map<T, nat>, batch: seq<T>, k: nat): (r: map<T, nat>)
    ensures r.Keys == comp.Keys + set u | u in batch
    ensures forall v | v in r :: r[v] == if v in batch then k else comp[v]
  {
    comp + map u | u in batch :: k
  }

  function Emit<T(==)>(le: (T, T) -> bool, s: State<T>, v: T): State<T>
    requires v in s.stack
  {
    var cut := IndexOf(s.stack, v);
    s.(stack := s.stack[..cut],
       sccs := s.sccs + [Sort(le, Reversed(s.stack[cut..]))],
       comp := Joined(s.comp, s.stack[cut..], |s.sccs|))
  }

  function Close<T(==)>(le: (T, T) -> bool, adj: Adjacency<T>, s: State<T>): State<T>
    requires TopReady(adj, s)
  {
    var v := Last(s.work);
    var e := if s.low[v] == s.index[v] then Emit(le, s, v) else s;
    var p := e.(work := s.work[..|s.work| - 1]);
    if p.work == [] then p else Lower(p, Last(p.work), s.low[v])
  }

  ghost predicate Done<T>(starts: seq<T>, s: State<T>) {
    s.work == [] && s.started >= |starts|
  }

  function Step<T(==)>(le: (T, T) -> bool, adj: Adjacency<T>, starts: seq<T>, s: State<T>): State<T>
    requires s.work == [] ==> s.started < |starts|
    requires s.work != [] ==> TopReady(adj, s)
  {
    if s.work == [] then
      var v := starts[s.started];
      var n := s.(started := s.started + 1);
      if v in s.index then n else Open(n, v)
    else if s.pos[Last(s.work)] < |adj[Last(s.work)]| then Look(adj, s)
    else Close(le, adj, s)
  }
}
