/** Sorting by a caller-supplied order, as Python's `sorted` and JavaScript's
    `Array.prototype.sort` are used in the repository. */
module Ordering {

  ghost predicate TotalOrder<T(!new)>(le: (T, T) -> bool) {
    && (forall x :: le(x, x))
    && (forall x, y :: le(x, y) || le(y, x))
    && (forall x, y :: le(x, y) && le(y, x) ==> x == y)
    && (forall x, y, z :: le(x, y) && le(y, z) ==> le(x, z))
  }

  ghost predicate SortedBy<T>(le: (T, T) -> bool, s: seq<T>) {
    forall i, j | 0 <= i < j < |s| :: le(s[i], s[j])
  }

  ghost predicate NoDuplicates<T>(s: seq<T>) {
    forall i, j | 0 <= i < j < |s| :: s[i] != s[j]
  }

  function Elements<T(==)>(s: seq<T>): set<T> {
    set u | u in s
  }

  lemma ElementsSnoc<T>(s: seq<T>, x: T)
    ensures Elements(s + [x]) == Elements(s) + {x}
  {
  }

  /** A list without repeats has as many elements as positions. */
  lemma {:induction false} ElementsCount<T>(s: seq<T>)
    requires NoDuplicates(s)
    ensures |Elements(s)| == |s|
  {
    if s != [] {
      var init, x := s[..|s| - 1], s[|s| - 1];
      assert s == init + [x];
      ElementsSnoc(init, x);
      assert x !in init;
      ElementsCount(init);
    }
  }

  lemma Regroup<T>(a: seq<T>, b: seq<T>, c: seq<T>)
    ensures a + (b + c) == a + b + c
  {
  }

  /** `s[j]` is the last of its kind. */
  ghost predicate LastOf<T>(kind: T -> bool, s: seq<T>, j: nat) {
    j < |s| && kind(s[j]) && forall i | j < i < |s| :: !kind(s[i])
  }

  lemma LastOfInit<T>(kind: T -> bool, s: seq<T>, j: nat)
    requires LastOf(kind, s, j) && j < |s| - 1
    ensures LastOf(kind, s[..|s| - 1], j) && !kind(s[|s| - 1])
  {
  }

  function Insert<T>(le: (T, T) -> bool, x: T, s: seq<T>): (r: seq<T>)
    ensures multiset(r) == multiset(s) + multiset{x}
  {
    if s == [] then [x]
    else if le(x, s[0]) then [x] + s
    else
      assert s == [s[0]] + s[1..];
      [s[0]] + Insert(le, x, s[1..])
  }

  function Sort<T>(le: (T, T) -> bool, s: seq<T>): (r: seq<T>)
    ensures multiset(r) == multiset(s)
  {
    if s == [] then []
    else
      assert s == [s[0]] + s[1..];
      Insert(le, s[0], Sort(le, s[1..]))
  }

  lemma SameMembers<T>(s: seq<T>, t: seq<T>)
    requires multiset(s) == multiset(t)
    ensures |s| == |t|
    ensures forall x :: x in s <==> x in t
  {
    assert |multiset(s)| == |multiset(t)|;
    forall x ensures x in s <==> x in t {
      assert x in s <==> x in multiset(s);
    }
  }

  lemma {:induction false} InsertSorted<T(!new)>(le: (T, T) -> bool, x: T, s: seq<T>)
    requires TotalOrder(le) && SortedBy(le, s)
    ensures SortedBy(le, Insert(le, x, s))
  {
    if s == [] {
    } else if le(x, s[0]) {
      assert forall j | 0 <= j < |s| :: le(s[0], s[j]);
    } else {
      var tail := Insert(le, x, s[1..]);
      InsertSorted(le, x, s[1..]);
      forall j | 0 <= j < |tail| ensures le(s[0], tail[j]) {
        assert tail[j] in multiset(tail);
        assert tail[j] in multiset(s[1..]) || tail[j] == x;
      }
    }
  }

  lemma {:induction false} SortSorted<T(!new)>(le: (T, T) -> bool, s: seq<T>)
    requires TotalOrder(le)
    ensures SortedBy(le, Sort(le, s))
  {
    if s != [] {
      SortSorted(le, s[1..]);
      InsertSorted(le, s[0], Sort(le, s[1..]));
    }
  }

  lemma LeastFirst<T(!new)>(le: (T, T) -> bool, s: seq<T>, x: T)
    requires TotalOrder(le) && SortedBy(le, s) && x in s
    ensures le(s[0], x)
  {
    var i :| 0 <= i < |s| && s[i] == x;
  }

  lemma DropHead<T>(s: seq<T>)
    requires s != []
    ensures s == [s[0]] + s[1..] && multiset(s[1..]) == multiset(s) - multiset{s[0]}
  {
    assert s == [s[0]] + s[1..];
  }

  /** A sorted arrangement is unique: it depends only on which values occur and how often. */
  lemma {:induction false} SortedUnique<T(!new)>(le: (T, T) -> bool, s: seq<T>, t: seq<T>)
    requires TotalOrder(le) && SortedBy(le, s) && SortedBy(le, t)
    requires multiset(s) == multiset(t)
    ensures s == t
  {
    SameMembers(s, t);
    if s != [] {
      LeastFirst(le, s, t[0]);
      LeastFirst(le, t, s[0]);
      DropHead(s);
      DropHead(t);
      SortedUnique(le, s[1..], t[1..]);
    }
  }

  lemma SortPermutation<T(!new)>(le: (T, T) -> bool, s: seq<T>, t: seq<T>)
    requires TotalOrder(le) && multiset(s) == multiset(t)
    ensures Sort(le, s) == Sort(le, t)
  {
    SortSorted(le, s);
    SortSorted(le, t);
    SortedUnique(le, Sort(le, s), Sort(le, t));
  }

  lemma {:induction false} NoDuplicatesMultiset<T>(s: seq<T>)
    ensures NoDuplicates(s) <==> forall x :: multiset(s)[x] <= 1
  {
    if NoDuplicates(s) {
      DistinctOnce(s);
    } else {
      var i, j :| 0 <= i < j < |s| && s[i] == s[j];
      assert s == s[..i] + [s[i]] + s[i + 1..j] + [s[j]] + s[j + 1..];
      assert multiset(s)[s[i]] >= 2;
    }
  }

  lemma {:induction false} DistinctOnce<T>(s: seq<T>)
    requires NoDuplicates(s)
    ensures forall x :: multiset(s)[x] <= 1
  {
    if s != [] {
      DistinctOnce(s[1..]);
      assert s == [s[0]] + s[1..];
      assert s[0] !in s[1..];
    }
  }

  lemma SetsAsMultisets<T(!new)>(s: seq<T>, t: seq<T>)
    requires NoDuplicates(s) && NoDuplicates(t) && forall x :: x in s <==> x in t
    ensures multiset(s) == multiset(t) && |s| == |t|
  {
    NoDuplicatesMultiset(s);
    NoDuplicatesMultiset(t);
    forall x ensures multiset(s)[x] == multiset(t)[x] {
      assert x in multiset(s) <==> x in s;
      assert x in multiset(t) <==> x in t;
    }
    SameMembers(s, t);
  }


  lemma SortNoDuplicates<T>(le: (T, T) -> bool, s: seq<T>)
    requires NoDuplicates(s)
    ensures NoDuplicates(Sort(le, s))
  {
    NoDuplicatesMultiset(s);
    NoDuplicatesMultiset(Sort(le, s));
  }

  /** Dictionary order on sequences of code points (Python) or code units (JavaScript). */
  predicate LexLe(a: seq<nat>, b: seq<nat>) {
    if a == [] then true
    else if b == [] then false
    else if a[0] != b[0] then a[0] < b[0]
    else LexLe(a[1..], b[1..])
  }

  lemma {:induction false} LexAntisymmetric(a: seq<nat>, b: seq<nat>)
    requires LexLe(a, b) && LexLe(b, a)
    ensures a == b
  {
    if a != [] && b != [] {
      LexAntisymmetric(a[1..], b[1..]);
      assert a == [a[0]] + a[1..] && b == [b[0]] + b[1..];
    }
  }

  lemma {:induction false} LexTotal(a: seq<nat>, b: seq<nat>)
    ensures LexLe(a, b) || LexLe(b, a)
  {
    if a != [] && b != [] { LexTotal(a[1..], b[1..]); }
  }

  lemma {:induction false} LexTransitive(a: seq<nat>, b: seq<nat>, c: seq<nat>)
    requires LexLe(a, b) && LexLe(b, c)
    ensures LexLe(a, c)
  {
    if a != [] && b != [] && c != [] && a[0] == b[0] == c[0] {
      LexTransitive(a[1..], b[1..], c[1..]);
    }
  }

  lemma LexIsTotalOrder()
    ensures TotalOrder(LexLe)
  {
    forall x: seq<nat>, y: seq<nat> ensures LexLe(x, y) || LexLe(y, x) { LexTotal(x, y); }
    forall x: seq<nat> ensures LexLe(x, x) { LexTotal(x, x); }
    forall x: seq<nat>, y: seq<nat> | LexLe(x, y) && LexLe(y, x) ensures x == y { LexAntisymmetric(x, y); }
    forall x: seq<nat>, y: seq<nat>, z: seq<nat> | LexLe(x, y) && LexLe(y, z) ensures LexLe(x, z) {
      LexTransitive(x, y, z);
    }
  }

  /** `a` is a proper beginning of `b`, or has the smaller unit at the first index where
      the two differ. */
  ghost predicate ComesBefore(a: seq<nat>, b: seq<nat>) {
    || (|a| < |b| && forall j | 0 <= j < |a| :: a[j] == b[j])
    || exists i :: 0 <= i < |a| && i < |b| && a[i] < b[i] && forall j | 0 <= j < i :: a[j] == b[j]
  }

  /** Dictionary order, in terms of positions. */
  lemma {:induction false} LexLeIff(a: seq<nat>, b: seq<nat>)
    ensures LexLe(a, b) <==> a == b || ComesBefore(a, b)
  {
    if a != [] && b != [] {
      var s, t := a[1..], b[1..];
      assert a == [a[0]] + s && b == [b[0]] + t;
      LexLeIff(s, t);
      if a[0] == b[0] { BeforeTails(a, b); }
    }
  }

  lemma BeforeTails(a: seq<nat>, b: seq<nat>)
    requires a != [] && b != [] && a[0] == b[0]
    ensures ComesBefore(a, b) <==> ComesBefore(a[1..], b[1..])
  {
    var s, t := a[1..], b[1..];
    assert forall j | 0 < j < |a| :: a[j] == s[j - 1];
    assert forall j | 0 < j < |b| :: b[j] == t[j - 1];
    assert forall j | 0 <= j < |s| :: s[j] == a[j + 1];
    assert forall j | 0 <= j < |t| :: t[j] == b[j + 1];
    if i :| 0 <= i < |a| && i < |b| && a[i] < b[i] && forall j | 0 <= j < i :: a[j] == b[j] {
      assert s[i - 1] < t[i - 1] && forall j | 0 <= j < i - 1 :: s[j] == t[j];
    }
    if i :| 0 <= i < |s| && i < |t| && s[i] < t[i] && forall j | 0 <= j < i :: s[j] == t[j] {
      assert a[i + 1] < b[i + 1] && forall j | 0 <= j < i + 1 :: a[j] == b[j];
    }
  }

  /** Every element comes before all later ones. */
  ghost predicate Ascending(s: seq<seq<nat>>) {
    forall i, j | 0 <= i < j < |s| :: ComesBefore(s[i], s[j])
  }

  /** A list sorted in dictionary order ascends if it has no repeats. */
  lemma SortedAscends(s: seq<seq<nat>>)
    requires SortedBy(LexLe, s) && NoDuplicates(s)
    ensures Ascending(s)
  {
    forall i, j | 0 <= i < j < |s| ensures ComesBefore(s[i], s[j]) { LexLeIff(s[i], s[j]); }
  }
}
