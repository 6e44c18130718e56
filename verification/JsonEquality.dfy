/** When two values have the same canonical text, and that the text survives UTF-8. */
module JsonEquality {
  import opened Ordering
  import opened CanonicalJson
  import opened JsonParser

  /** No part of the value is something JSON cannot express. */
  ghost predicate AllJson(v: Json) {
    match v
    case NonJson => false
    case Arr(items) => forall i | 0 <= i < |items| :: AllJson(items[i])
    case Obj(fields) => forall i | 0 <= i < |fields| :: AllJson(fields[i].value)
    case _ => true
  }

  lemma KeysTotal()
    ensures TotalOrder(KeyLe)
  {
    LexIsTotalOrder();
    forall x: Text, y: Text, z: Text ensures KeyLe(x, x) && (KeyLe(x, y) || KeyLe(y, x))
      && (KeyLe(x, y) && KeyLe(y, x) ==> x == y) && (KeyLe(x, y) && KeyLe(y, z) ==> KeyLe(x, z))
    {
    }
  }

  lemma LookupUnique(fields: seq<Field>, i: nat)
    requires NoDuplicates(Keys(fields)) && i < |fields|
    ensures fields[i].key in Keys(fields) && Lookup(fields, fields[i].key) == fields[i].value
  {
    assert Keys(fields)[i] == fields[i].key;
    var j := IndexOfKey(fields, fields[i].key);
    assert Keys(fields)[j] == Keys(fields)[i];
  }

  // ---------- Equal normal forms mean equality up to order

  lemma {:induction false} NormalItemsAt(items: seq<Json>, i: nat)
    requires i < |items|
    ensures NormalItems(items)[i] == Normal(items[i])
  {
    if i > 0 { NormalItemsAt(items[1..], i - 1); }
  }

  lemma {:induction false} NormalFieldsAt(fields: seq<Field>, keys: seq<Text>, p: nat)
    requires (forall k | k in keys :: k in Keys(fields)) && p < |keys|
    ensures NormalFields(fields, keys)[p] == Field(keys[p], Normal(Lookup(fields, keys[p])))
  {
    var rest := NormalFields(fields, keys[1..]);
    assert NormalFields(fields, keys) == [Field(keys[0], Normal(Lookup(fields, keys[0])))] + rest;
    if p > 0 { NormalFieldsAt(fields, keys[1..], p - 1); }
  }

  lemma SortedKeysMembers(fields: seq<Field>)
    ensures |SortedKeys(fields)| == |fields|
    ensures forall k :: k in SortedKeys(fields) <==> k in Keys(fields)
  {
    SameMembers(Sort(KeyLe, Keys(fields)), Keys(fields));
  }

  /** Objects with the same normal form: every field of one has its partner in the other. */
  lemma PartnerField(f: seq<Field>, g: seq<Field>, i: nat) returns (j: nat)
    requires NoDuplicates(Keys(f)) && NoDuplicates(Keys(g)) && i < |f|
    requires NormalFields(f, SortedKeys(f)) == NormalFields(g, SortedKeys(g))
    ensures j < |g| && g[j].key == f[i].key && Normal(g[j].value) == Normal(f[i].value)
  {
    SortedKeysMembers(f);
    SortedKeysMembers(g);
    var k := f[i].key;
    LookupUnique(f, i);
    assert SortedKeys(f) == SortedKeys(g) by {
      assert Keys(NormalFields(f, SortedKeys(f))) == SortedKeys(f);
    }
    var p :| 0 <= p < |SortedKeys(f)| && SortedKeys(f)[p] == k;
    NormalFieldsAt(f, SortedKeys(f), p);
    NormalFieldsAt(g, SortedKeys(g), p);
    j := IndexOfKey(g, k);
  }

  lemma {:induction false} NormalImpliesSame(v: Json, w: Json)
    requires Valid(v) && Valid(w) && AllJson(v) && AllJson(w) && Normal(v) == Normal(w)
    ensures SameUpToOrder(v, w)
    decreases v, 0
  {
    match v
    case Arr(a) => ItemsSame(a, w.items);
    case Obj(f) => FieldsSame(f, w.fields);
    case _ =>
  }

  lemma {:induction false} FieldsSame(f: seq<Field>, g: seq<Field>)
    requires Valid(Obj(f)) && Valid(Obj(g)) && AllJson(Obj(f)) && AllJson(Obj(g))
    requires NormalFields(f, SortedKeys(f)) == NormalFields(g, SortedKeys(g))
    ensures |f| == |g|
    ensures forall i | 0 <= i < |f| ::
              exists j :: 0 <= j < |g| && g[j].key == f[i].key && SameUpToOrder(f[i].value, g[j].value)
    decreases f, 1
  {
    FieldCount(f, g);
    forall i | 0 <= i < |f|
      ensures exists j :: 0 <= j < |g| && g[j].key == f[i].key && SameUpToOrder(f[i].value, g[j].value)
    {
      FieldSame(f, g, i);
    }
  }

  lemma {:induction false} ItemsSame(a: seq<Json>, b: seq<Json>)
    requires (forall i | 0 <= i < |a| :: Valid(a[i]) && AllJson(a[i])) && forall i | 0 <= i < |b| :: Valid(b[i]) && AllJson(b[i])
    requires NormalItems(a) == NormalItems(b)
    ensures SameUpToOrder(Arr(a), Arr(b))
    decreases a, 1
  {
    forall i | 0 <= i < |a| ensures SameUpToOrder(a[i], b[i]) {
      NormalItemsAt(a, i);
      NormalItemsAt(b, i);
      NormalImpliesSame(a[i], b[i]);
    }
  }

  lemma FieldCount(f: seq<Field>, g: seq<Field>)
    requires NormalFields(f, SortedKeys(f)) == NormalFields(g, SortedKeys(g))
    ensures |f| == |g|
  {
    SortedKeysMembers(f);
    SortedKeysMembers(g);
    assert Keys(NormalFields(f, SortedKeys(f))) == SortedKeys(f);
  }

  lemma {:induction false} FieldSame(f: seq<Field>, g: seq<Field>, i: nat)
    requires Valid(Obj(f)) && Valid(Obj(g)) && AllJson(Obj(f)) && AllJson(Obj(g)) && i < |f|
    requires NormalFields(f, SortedKeys(f)) == NormalFields(g, SortedKeys(g))
    ensures exists j :: 0 <= j < |g| && g[j].key == f[i].key && SameUpToOrder(f[i].value, g[j].value)
    decreases f, 0
  {
    var j := PartnerField(f, g, i);
    NormalImpliesSame(f[i].value, g[j].value);
  }

  // ---------- Equality up to order means equal texts

  lemma SameKeySets<T(!new)>(s: seq<T>, t: seq<T>)
    requires NoDuplicates(s) && NoDuplicates(t) && |s| == |t| && forall x | x in s :: x in t
    ensures multiset(s) == multiset(t)
  {
    NoDuplicatesMultiset(s);
    NoDuplicatesMultiset(t);
    assert multiset(s) <= multiset(t) by {
      forall x ensures multiset(s)[x] <= multiset(t)[x] {
        if multiset(s)[x] > 0 { assert x in s && x in t; }
      }
    }
    assert |multiset(t) - multiset(s)| == 0;
    assert multiset(t) == multiset(s) + (multiset(t) - multiset(s));
  }

  lemma {:induction false} ItemsSameText(a: seq<Json>, b: seq<Json>)
    requires |a| == |b| && forall i | 0 <= i < |a| :: Canonical(a[i]) == Canonical(b[i])
    ensures CanonicalItems(a) == CanonicalItems(b)
  {
    if |a| > 1 { ItemsSameText(a[1..], b[1..]); }
  }

  lemma {:induction false} FieldsSameText(f: seq<Field>, g: seq<Field>, keys: seq<Text>)
    requires forall k | k in keys :: k in Keys(f) && k in Keys(g) && Canonical(Lookup(f, k)) == Canonical(Lookup(g, k))
    ensures CanonicalFields(f, keys) == CanonicalFields(g, keys)
  {
    if |keys| > 0 { FieldsSameText(f, g, keys[1..]); }
  }

  lemma SameKeysSorted(f: seq<Field>, g: seq<Field>)
    requires NoDuplicates(Keys(f)) && NoDuplicates(Keys(g)) && |f| == |g|
    requires forall i | 0 <= i < |f| :: f[i].key in Keys(g)
    ensures SortedKeys(f) == SortedKeys(g)
  {
    forall k | k in Keys(f) ensures k in Keys(g) {
      var i :| 0 <= i < |Keys(f)| && Keys(f)[i] == k;
    }
    SameKeySets(Keys(f), Keys(g));
    KeysTotal();
    SortPermutation(KeyLe, Keys(f), Keys(g));
  }

  lemma {:induction false} SameImpliesText(v: Json, w: Json)
    requires Valid(v) && Valid(w) && SameUpToOrder(v, w)
    ensures Canonical(v) == Canonical(w)
    decreases v
  {
    match (v, w)
    case (Arr(a), Arr(b)) =>
      forall i | 0 <= i < |a| ensures Canonical(a[i]) == Canonical(b[i]) { SameImpliesText(a[i], b[i]); }
      ItemsSameText(a, b);
    case (Obj(f), Obj(g)) =>
      forall i | 0 <= i < |f| ensures f[i].key in Keys(g) && Canonical(f[i].value) == Canonical(Lookup(g, f[i].key)) {
        var j :| 0 <= j < |g| && g[j].key == f[i].key && SameUpToOrder(f[i].value, g[j].value);
        SameImpliesText(f[i].value, g[j].value);
        LookupUnique(g, j);
      }
      SameKeysSorted(f, g);
      forall k | k in SortedKeys(f)
        ensures k in Keys(f) && k in Keys(g) && Canonical(Lookup(f, k)) == Canonical(Lookup(g, k))
      {
        var i := IndexOfKey(f, k);
        assert f[i].key == k;
      }
      FieldsSameText(f, g, SortedKeys(f));
    case _ =>
  }

  /** The canonical text decides equality up to key order. */
  lemma TextsEqualIffSame(v: Json, w: Json)
    requires Valid(v) && Valid(w) && AllJson(v) && AllJson(w)
    ensures Canonical(v) == Canonical(w) <==> SameUpToOrder(v, w)
  {
    if Canonical(v) == Canonical(w) {
      ValueRead(v, []);
      ValueRead(w, []);
      assert Canonical(v) + [] == Canonical(w) + [];
      NormalImpliesSame(v, w);
    }
    if SameUpToOrder(v, w) { SameImpliesText(v, w); }
  }

  // ---------- Values JSON cannot express

  function BlankedFields(fields: seq<Field>): seq<Field> {
    seq(|fields|, i requires 0 <= i < |fields| => Field(fields[i].key, Blanked(fields[i].value)))
  }

  lemma BlankedKeys(fields: seq<Field>)
    ensures Keys(BlankedFields(fields)) == Keys(fields)
  {
  }

  lemma {:induction false} BlankedValid(v: Json)
    requires Valid(v)
    ensures Valid(Blanked(v)) && AllJson(Blanked(v))
    decreases v
  {
    match v
    case Arr(items) =>
      forall i | 0 <= i < |items| ensures Valid(Blanked(items[i])) && AllJson(Blanked(items[i])) { BlankedValid(items[i]); }
    case Obj(fields) =>
      BlankedKeys(fields);
      assert Blanked(v) == Obj(BlankedFields(fields));
      forall i | 0 <= i < |fields| ensures Valid(Blanked(fields[i].value)) && AllJson(Blanked(fields[i].value)) {
        BlankedValid(fields[i].value);
      }
    case _ =>
  }

  lemma {:induction false} BlankedText(v: Json)
    requires Valid(v)
    ensures Canonical(Blanked(v)) == Canonical(v)
    decreases v
  {
    match v
    case Arr(items) =>
      var blanked := seq(|items|, i requires 0 <= i < |items| => Blanked(items[i]));
      assert Blanked(v) == Arr(blanked);
      forall i | 0 <= i < |items| ensures Canonical(blanked[i]) == Canonical(items[i]) { BlankedText(items[i]); }
      ItemsSameText(blanked, items);
    case Obj(fields) =>
      BlankedKeys(fields);
      assert Blanked(v) == Obj(BlankedFields(fields));
      SortedKeysMembers(fields);
      forall k | k in SortedKeys(fields)
        ensures k in Keys(fields) && Canonical(Lookup(BlankedFields(fields), k)) == Canonical(Lookup(fields, k))
      {
        var i := IndexOfKey(fields, k);
        BlankedText(fields[i].value);
        LookupUnique(fields, i);
        LookupUnique(BlankedFields(fields), i);
      }
      FieldsSameText(BlankedFields(fields), fields, SortedKeys(fields));
    case _ =>
  }

  /** For every pair of values: the texts agree exactly when the values are equal up
      to key order once everything JSON cannot express reads as null. */
  lemma TextsEqualIffBlankedSame(v: Json, w: Json)
    requires Valid(v) && Valid(w)
    ensures Canonical(v) == Canonical(w) <==> SameUpToOrder(Blanked(v), Blanked(w))
  {
    BlankedValid(v);
    BlankedValid(w);
    BlankedText(v);
    BlankedText(w);
    TextsEqualIffSame(Blanked(v), Blanked(w));
  }

  /** `{"a": undefined}` and `{"a": null}` share one canonical text. */
  lemma UndefinedCollidesWithNull(a: Text)
    ensures Valid(Obj([Field(a, NonJson)])) && Valid(Obj([Field(a, Null)]))
    ensures !SameUpToOrder(Obj([Field(a, NonJson)]), Obj([Field(a, Null)]))
    ensures Canonical(Obj([Field(a, NonJson)])) == Canonical(Obj([Field(a, Null)]))
  {
    var f, g := [Field(a, NonJson)], [Field(a, Null)];
    assert Keys(f) == [a];
    assert BlankedFields(f) == g;
    assert Blanked(Obj(f)) == Obj(g);
    assert !SameUpToOrder(f[0].value, g[0].value);
    BlankedText(Obj(f));
  }

  // ---------- The text is well-formed UTF-16

  /** No lone surrogates: exactly the texts a UTF-8 encoder renders without loss. */
  ghost predicate WellFormed(t: Text) {
    t == [] ||
    if IsHigh(t[0]) then |t| > 1 && IsLow(t[1]) && WellFormed(t[2..])
    else !IsLow(t[0]) && WellFormed(t[1..])
  }

  lemma {:induction false} WellFormedConcat(s: Text, t: Text)
    requires WellFormed(s) && WellFormed(t)
    ensures WellFormed(s + t)
    decreases |s|
  {
    if s == [] {
      assert s + t == t;
    } else if IsHigh(s[0]) {
      assert (s + t)[2..] == s[2..] + t;
      WellFormedConcat(s[2..], t);
    } else {
      assert (s + t)[1..] == s[1..] + t;
      WellFormedConcat(s[1..], t);
    }
  }

  predicate Plain(t: Text) {
    forall i | 0 <= i < |t| :: !IsHigh(t[i]) && !IsLow(t[i])
  }

  lemma {:induction false} PlainWellFormed(t: Text)
    requires Plain(t)
    ensures WellFormed(t)
  {
    if t != [] { PlainWellFormed(t[1..]); }
  }

  lemma EscapeUnitWellFormed(u: Unit)
    ensures WellFormed(EscapeUnit(u))
  {
    PlainWellFormed(EscapeUnit(u));
  }

  lemma {:induction false} EscapeWellFormed(s: Text)
    ensures WellFormed(Escape(s))
    decreases |s|
  {
    if s == [] {
    } else if |s| > 1 && IsHigh(s[0]) && IsLow(s[1]) {
      EscapeWellFormed(s[2..]);
      assert (s[..2] + Escape(s[2..]))[2..] == Escape(s[2..]);
    } else {
      EscapeUnitWellFormed(s[0]);
      EscapeWellFormed(s[1..]);
      WellFormedConcat(EscapeUnit(s[0]), Escape(s[1..]));
    }
  }

  lemma QuoteWellFormed(s: Text)
    ensures WellFormed(Quote(s))
  {
    EscapeWellFormed(s);
    PlainWellFormed([QUOTE]);
    WellFormedConcat([QUOTE], Escape(s));
    WellFormedConcat([QUOTE] + Escape(s), [QUOTE]);
  }

  lemma BracketedWellFormed(open: Unit, t: Text, close: Unit)
    requires WellFormed(t) && Plain([open]) && Plain([close])
    ensures WellFormed([open] + t + [close])
  {
    PlainWellFormed([open]);
    PlainWellFormed([close]);
    WellFormedConcat([open], t);
    WellFormedConcat([open] + t, [close]);
  }

  /** However many lone surrogates its strings and keys hold, a value's canonical
      text has none, so UTF-8 encoding it for the hash loses nothing. */
  lemma {:induction false} CanonicalWellFormed(v: Json)
    requires Valid(v)
    ensures WellFormed(Canonical(v))
    decreases v, 0
  {
    match v
    case Str(s) => QuoteWellFormed(s);
    case Arr(items) =>
      ItemsWellFormed(items);
      ArrayWellFormed(items);
    case Obj(fields) =>
      FieldsWellFormed(fields, SortedKeys(fields));
      ObjectWellFormed(fields);
    case _ => ScalarWellFormed(v);
  }

  lemma ArrayWellFormed(items: seq<Json>)
    requires WellFormed(CanonicalItems(items))
    ensures WellFormed(Canonical(Arr(items)))
  {
    BracketedWellFormed(OPEN_BRACKET, CanonicalItems(items), CLOSE_BRACKET);
  }

  lemma ObjectWellFormed(fields: seq<Field>)
    requires WellFormed(CanonicalFields(fields, SortedKeys(fields)))
    ensures WellFormed(Canonical(Obj(fields)))
  {
    BracketedWellFormed(OPEN_BRACE, CanonicalFields(fields, SortedKeys(fields)), CLOSE_BRACE);
  }

  lemma ScalarWellFormed(v: Json)
    requires Valid(v) && !v.Str? && !v.Arr? && !v.Obj?
    ensures WellFormed(Canonical(v))
  {
    ScalarPlain(v);
    PlainWellFormed(Canonical(v));
  }

  lemma ScalarPlain(v: Json)
    requires Valid(v) && !v.Str? && !v.Arr? && !v.Obj?
    ensures Plain(Canonical(v))
  {
    var t := Canonical(v);
    if !v.Num? { assert t == NULL_TEXT || t == TRUE_TEXT || t == FALSE_TEXT; }
  }

  lemma {:induction false} ItemsWellFormed(items: seq<Json>)
    requires forall i | 0 <= i < |items| :: Valid(items[i])
    ensures WellFormed(CanonicalItems(items))
    decreases items, 0
  {
    if items != [] {
      CanonicalWellFormed(items[0]);
      if |items| > 1 {
        ItemsWellFormed(items[1..]);
        PlainWellFormed([COMMA]);
        WellFormedConcat(Canonical(items[0]), [COMMA]);
        WellFormedConcat(Canonical(items[0]) + [COMMA], CanonicalItems(items[1..]));
      }
    }
  }

  lemma {:induction false} FieldsWellFormed(fields: seq<Field>, keys: seq<Text>)
    requires forall k | k in keys :: k in Keys(fields)
    requires forall i | 0 <= i < |fields| :: Valid(fields[i].value)
    ensures WellFormed(CanonicalFields(fields, keys))
    decreases fields, |keys|
  {
    if keys != [] {
      var k, v := Quote(keys[0]), Canonical(Lookup(fields, keys[0]));
      QuoteWellFormed(keys[0]);
      CanonicalWellFormed(Lookup(fields, keys[0]));
      PlainWellFormed([COLON]);
      WellFormedConcat(k, [COLON]);
      WellFormedConcat(k + [COLON], v);
      if |keys| > 1 {
        FieldsWellFormed(fields, keys[1..]);
        PlainWellFormed([COMMA]);
        WellFormedConcat(k + [COLON] + v, [COMMA]);
        WellFormedConcat(k + [COLON] + v + [COMMA], CanonicalFields(fields, keys[1..]));
      }
    }
  }

  // ---------- The approval hash

  /** `computeArgsHash`: UTF-8 and SHA-256 together are one digest of the text. */
  function ArgsHash(digest: Text -> Text, args: Json): Text {
    digest(Canonical(args))
  }

  /** A digest without collisions on well-formed texts binds an approval to the
      arguments themselves, whatever the order of their keys. */
  lemma HashBindsArguments(digest: Text -> Text, v: Json, w: Json)
    requires Valid(v) && Valid(w) && AllJson(v) && AllJson(w)
    requires forall s, t | WellFormed(s) && WellFormed(t) && digest(s) == digest(t) :: s == t
    ensures ArgsHash(digest, v) == ArgsHash(digest, w) <==> SameUpToOrder(v, w)
  {
    CanonicalWellFormed(v);
    CanonicalWellFormed(w);
    TextsEqualIffSame(v, w);
  }
}
