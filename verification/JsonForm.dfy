/** What sets the canonical text apart from the other texts of a value. */
module JsonForm {
  import opened Ordering
  import opened CanonicalJson
  import opened JsonParser
  import opened JsonEquality

  // ---------- The order of the keys

  /** At every depth an object's keys ascend in dictionary order of their code units. */
  ghost predicate KeysAscend(v: Json) {
    match v
    case Arr(items) => forall i | 0 <= i < |items| :: KeysAscend(items[i])
    case Obj(fields) => Ascending(Keys(fields)) && forall i | 0 <= i < |fields| :: KeysAscend(fields[i].value)
    case _ => true
  }

  lemma SortedKeysAscend(fields: seq<Field>)
    requires NoDuplicates(Keys(fields))
    ensures Ascending(SortedKeys(fields))
  {
    var keys := SortedKeys(fields);
    KeysTotal();
    SortSorted(KeyLe, Keys(fields));
    SortNoDuplicates(KeyLe, Keys(fields));
    forall i, j | 0 <= i < j < |keys| ensures ComesBefore(keys[i], keys[j]) {
      assert KeyLe(keys[i], keys[j]);
      LexLeIff(keys[i], keys[j]);
    }
  }

  lemma {:induction false} NormalAscends(v: Json)
    requires Valid(v)
    ensures KeysAscend(Normal(v))
    decreases v, 0
  {
    match v
    case Arr(items) =>
      forall i | 0 <= i < |items| ensures KeysAscend(NormalItems(items)[i]) {
        NormalItemsAt(items, i);
        NormalAscends(items[i]);
      }
    case Obj(fields) =>
      SortedKeysAscend(fields);
      NormalFieldsAscend(fields, SortedKeys(fields));
    case _ =>
  }

  lemma {:induction false} NormalFieldsAscend(fields: seq<Field>, keys: seq<Text>)
    requires (forall k | k in keys :: k in Keys(fields)) && forall i | 0 <= i < |fields| :: Valid(fields[i].value)
    ensures forall p | 0 <= p < |keys| :: KeysAscend(NormalFields(fields, keys)[p].value)
    decreases fields, 1
  {
    forall p | 0 <= p < |keys| ensures KeysAscend(NormalFields(fields, keys)[p].value) {
      NormalFieldsAt(fields, keys, p);
      NormalAscends(Lookup(fields, keys[p]));
    }
  }

  /** Reading a canonical text gives a value whose keys ascend at every depth. */
  lemma CanonicalKeysAscend(v: Json, rest: Text)
    requires Valid(v) && Delimited(rest)
    ensures var r := ReadValue(Canonical(v) + rest); r.Done? && KeysAscend(r.value)
  {
    ValueRead(v, rest);
    NormalAscends(v);
  }

  // ---------- What is read back

  lemma {:induction false} NormalSame(v: Json)
    requires Valid(v)
    ensures SameUpToOrder(Normal(v), Blanked(v))
    decreases v, 0
  {
    match v
    case Arr(items) =>
      forall i | 0 <= i < |items| ensures SameUpToOrder(NormalItems(items)[i], Blanked(items[i])) {
        NormalItemsAt(items, i);
        NormalSame(items[i]);
      }
    case Obj(fields) => NormalFieldsSame(fields);
    case _ =>
  }

  lemma {:induction false} NormalFieldsSame(fields: seq<Field>)
    requires Valid(Obj(fields))
    ensures SameUpToOrder(Normal(Obj(fields)), Blanked(Obj(fields)))
    decreases fields, 1
  {
    var keys, g := SortedKeys(fields), Blanked(Obj(fields)).fields;
    var f := NormalFields(fields, keys);
    SortedKeysMembers(fields);
    assert |f| == |keys| by { assert Keys(f) == keys; }
    forall p | 0 <= p < |f| ensures exists j :: 0 <= j < |g| && g[j].key == f[p].key && SameUpToOrder(f[p].value, g[j].value) {
      NormalFieldsAt(fields, keys, p);
      var j := IndexOfKey(fields, keys[p]);
      NormalSame(fields[j].value);
      assert g[j].key == f[p].key && SameUpToOrder(f[p].value, g[j].value);
    }
  }

  /** Reading a canonical text gives the value itself, up to the order of its keys, with
      null for what JSON cannot express. */
  lemma CanonicalReadsBack(v: Json, rest: Text)
    requires Valid(v) && Delimited(rest)
    ensures var r := ReadValue(Canonical(v) + rest); r.Done? && r.rest == rest && SameUpToOrder(r.value, Blanked(v))
  {
    ValueRead(v, rest);
    NormalSame(v);
  }

  // ---------- How strings are written

  /** A hexadecimal digit in either case. */
  function DigitValue(u: Unit): int {
    if 48 <= u <= 57 then u - 48 else if 97 <= u <= 102 then u - 87 else if 65 <= u <= 70 then u - 55 else -1
  }

  /** The two-character escapes of section 7 of RFC 8259: b, f, n, r, t, the quotation mark
      and both slashes. */
  function Escaped(letter: Unit): int {
    if letter == 98 then 8 else if letter == 102 then 12 else if letter == 110 then 10
    else if letter == 114 then 13 else if letter == 116 then 9
    else if letter == QUOTE || letter == BACKSLASH || letter == 47 then letter else -1
  }

  /** The unit that the inside of a string literal begins with, and how many units write it. */
  function FirstUnit(t: Text): (r: (int, nat))
    requires t != []
    ensures r.0 >= 0 ==> r.0 < 0x10000 && 0 < r.1 <= |t|
  {
    if t[0] < 32 || t[0] == QUOTE then (-1, 0)
    else if t[0] != BACKSLASH then (t[0], 1)
    else if |t| > 1 && Escaped(t[1]) >= 0 then (Escaped(t[1]), 2)
    else if |t| > 5 && t[1] == LETTER_U && DigitValue(t[2]) >= 0 && DigitValue(t[3]) >= 0
            && DigitValue(t[4]) >= 0 && DigitValue(t[5]) >= 0 then
      (DigitValue(t[2]) * 4096 + DigitValue(t[3]) * 256 + DigitValue(t[4]) * 16 + DigitValue(t[5]), 6)
    else (-1, 0)
  }

  /** `t` is a way to write `s` inside a string literal, by the grammar of section 7 of RFC 8259. */
  ghost predicate Spells(t: Text, s: Text) {
    if t == [] then s == []
    else
      var (u, n) := FirstUnit(t);
      u >= 0 && s != [] && s[0] == u && Spells(t[n..], s[1..])
  }

  /** The same text but for the case of hexadecimal digits, which are small in `t`. */
  ghost predicate SameButCase(t: Text, other: Text) {
    |t| == |other| && forall i | 0 <= i < |t| :: t[i] == other[i] || (65 <= other[i] <= 70 && t[i] == other[i] + 32)
  }

  lemma {:induction false} AfterPlain(t: Text, n: nat)
    requires WellFormed(t) && n <= |t| && Plain(t[..n])
    ensures WellFormed(t[n..])
  {
    if n == 0 {
      assert t[0..] == t;
    } else {
      assert !IsHigh(t[..n][0]) && !IsLow(t[..n][0]);
      assert t[1..][..n - 1] == t[..n][1..];
      AfterPlain(t[1..], n - 1);
      assert t[1..][n - 1..] == t[n..];
    }
  }

  /** One written unit against the canonical way to write it. */
  lemma UnitShortest(t: Text)
    requires t != [] && FirstUnit(t).0 >= 0 && !IsHigh(t[0]) && !IsLow(t[0])
    ensures var (u, n) := FirstUnit(t);
            && Plain(t[..n])
            && (|EscapeUnit(u)| < n || SameButCase(EscapeUnit(u), t[..n]))
  {
    var (u, n) := FirstUnit(t);
    if n == 6 {
      HexShortest(u, t[..6]);
    }
  }

  lemma HexShortest(u: Unit, x: Text)
    requires |x| == 6 && FirstUnit(x) == (u as int, 6)
    ensures Plain(x) && (|EscapeUnit(u)| < 6 || SameButCase(EscapeUnit(u), x))
  {
    var a, b, c, d := DigitValue(x[2]), DigitValue(x[3]), DigitValue(x[4]), DigitValue(x[5]);
    DigitsOf(u, a, b, c, d);
    assert UnicodeEscape(u) == [BACKSLASH, LETTER_U, HexDigit(a), HexDigit(b), HexDigit(c), HexDigit(d)];
  }

  lemma DigitsOf(u: int, a: int, b: int, c: int, d: int)
    requires 0 <= a < 16 && 0 <= b < 16 && 0 <= c < 16 && 0 <= d < 16 && u == a * 4096 + b * 256 + c * 16 + d
    ensures u / 4096 == a && u / 256 % 16 == b && u / 16 % 16 == c && u % 16 == d
  {
    assert u / 16 == a * 256 + b * 16 + c && u / 256 == a * 16 + b;
  }

  lemma CaseConcat(a: Text, b: Text, x: Text, y: Text)
    requires |a| < |x| || SameButCase(a, x)
    requires |b| < |y| || SameButCase(b, y)
    ensures |a + b| < |x + y| || SameButCase(a + b, x + y)
  {
  }

  /** What follows the first unit. */
  lemma {:induction false} ShortestAfter(s: Text, t: Text, n: nat)
    requires Spells(t, s) && WellFormed(t) && t != [] && FirstUnit(t).1 == n && !IsHigh(t[0])
    requires |Escape(s[1..])| < |t[n..]| || SameButCase(Escape(s[1..]), t[n..])
    ensures |Escape(s)| < |t| || SameButCase(Escape(s), t)
  {
    UnitShortest(t);
    assert t[..n] + t[n..] == t;
    if Paired(s) {
      assert s[1..] != [] && s[1..][0] == s[1] && s[1..][1..] == s[2..];
      assert Escape(s[1..]) == UnicodeEscape(s[1]) + Escape(s[2..]);
      assert |Escape(s)| == 2 + |Escape(s[2..])|;
    } else {
      CaseConcat(EscapeUnit(s[0]), Escape(s[1..]), t[..n], t[n..]);
    }
  }

  /** Of all the ways to write a string without a lone surrogate, the canonical one is the
      shortest, and among the shortest it has its hexadecimal digits in small letters. */
  lemma {:induction false} CanonicalIsShortest(s: Text, t: Text)
    requires Spells(t, s) && WellFormed(t)
    ensures |Escape(s)| < |t| || SameButCase(Escape(s), t)
    decreases |t|
  {
    if t != [] {
      var (u, n) := FirstUnit(t);
      if IsHigh(t[0]) {
        assert t[1..][0] == t[1] && t[1..][1..] == t[2..] && s[1..][1..] == s[2..];
        assert Spells(t[1..], s[1..]) && Spells(t[2..], s[2..]);
        CanonicalIsShortest(s[2..], t[2..]);
        assert s[..2] == t[..2] && t == t[..2] + t[2..];
        CaseConcat(s[..2], Escape(s[2..]), t[..2], t[2..]);
      } else {
        UnitShortest(t);
        AfterPlain(t, n);
        CanonicalIsShortest(s[1..], t[n..]);
        ShortestAfter(s, t, n);
      }
    }
  }

  lemma UnitSpelled(u: Unit, rest: Text)
    ensures FirstUnit(EscapeUnit(u) + rest) == (u as int, |EscapeUnit(u)|)
  {
    var t := EscapeUnit(u) + rest;
    if ShortEscape(u) == 0 && (u < 32 || IsHigh(u) || IsLow(u)) {
      HexSplit(u);
      assert t[..6] == UnicodeEscape(u);
      assert t[2] == HexDigit(u / 4096) && t[3] == HexDigit(u / 256 % 16) && t[4] == HexDigit(u / 16 % 16) && t[5] == HexDigit(u % 16);
    }
  }

  lemma PairSpelled(s: Text, rest: Text)
    requires Paired(s) && Spells(rest, s[2..])
    ensures Spells(s[..2] + rest, s)
  {
    assert (s[..2] + rest)[1..] == [s[1]] + rest && ([s[1]] + rest)[1..] == rest && s[1..][1..] == s[2..];
    assert Spells([s[1]] + rest, s[1..]);
  }

  /** And it is a way to write the string. */
  lemma {:induction false} CanonicalSpells(s: Text)
    ensures Spells(Escape(s), s)
    decreases |s|
  {
    if s == [] {
    } else if Paired(s) {
      var rest := Escape(s[2..]);
      CanonicalSpells(s[2..]);
      PairSpelled(s, rest);
    } else {
      CanonicalSpells(s[1..]);
      UnitSpelled(s[0], Escape(s[1..]));
      assert Escape(s)[|EscapeUnit(s[0])|..] == Escape(s[1..]);
    }
  }
}
