/** A reader for canonical texts, and the proof that it undoes the printer. */
module JsonParser {
  import opened Ordering
  import opened CanonicalJson

  datatype Read<T> = Failed | Done(value: T, rest: Text)

  function HexValue(u: Unit): int {
    if 48 <= u <= 57 then u - 48 else if 97 <= u <= 102 then u - 87 else -1
  }

  function UnescapeShort(u: Unit): int {
    if u == 98 then 8 else if u == 116 then 9 else if u == 110 then 10
    else if u == 102 then 12 else if u == 114 then 13
    else if u == QUOTE || u == BACKSLASH then u else -1
  }

  /** Four hexadecimal digits. */
  function ReadHex(t: Text): (r: Read<Unit>)
    ensures r.Done? ==> |r.rest| < |t|
  {
    if |t| < 4 then Failed
    else
      var a, b, c, d := HexValue(t[0]), HexValue(t[1]), HexValue(t[2]), HexValue(t[3]);
      if a < 0 || b < 0 || c < 0 || d < 0 then Failed
      else Done(a * 4096 + b * 256 + c * 16 + d, t[4..])
  }

  /** The unit after a backslash. */
  function ReadEscape(t: Text): (r: Read<Unit>)
    ensures r.Done? ==> |r.rest| < |t|
  {
    if t == [] then Failed
    else if t[0] == LETTER_U then ReadHex(t[1..])
    else if UnescapeShort(t[0]) >= 0 then Done(UnescapeShort(t[0]), t[1..])
    else Failed
  }

  /** The rest of a string literal, up to and including its closing quote. */
  function ReadString(t: Text): (r: Read<Text>)
    ensures r.Done? ==> |r.rest| < |t|
    decreases |t|
  {
    if t == [] then Failed
    else if t[0] == QUOTE then Done([], t[1..])
    else
      var u := if t[0] == BACKSLASH then ReadEscape(t[1..]) else Done(t[0], t[1..]);
      if u.Failed? then Failed
      else
        var tail := ReadString(u.rest);
        if tail.Failed? then Failed else Done([u.value] + tail.value, tail.rest)
  }

  /** The longest run of numeral characters. */
  function ReadNumber(t: Text): (r: (Text, Text))
    ensures r.0 + r.1 == t
    ensures t != [] && IsNumberUnit(t[0]) ==> |r.1| < |t|
  {
    if t == [] || !IsNumberUnit(t[0]) then ([], t)
    else
      var (digits, rest) := ReadNumber(t[1..]);
      ([t[0]] + digits, rest)
  }

  function ReadValue(t: Text): (r: Read<Json>)
    ensures r.Done? ==> |r.rest| < |t|
    decreases |t|, 0
  {
    if t == [] then Failed
    else if t[0] == QUOTE then
      var s := ReadString(t[1..]);
      if s.Failed? then Failed else Done(Str(s.value), s.rest)
    else if t[0] == OPEN_BRACKET then
      if |t| > 1 && t[1] == CLOSE_BRACKET then Done(Arr([]), t[2..])
      else
        var items := ReadItems(t[1..]);
        if items.Failed? then Failed else Done(Arr(items.value), items.rest)
    else if t[0] == OPEN_BRACE then
      if |t| > 1 && t[1] == CLOSE_BRACE then Done(Obj([]), t[2..])
      else
        var fields := ReadFields(t[1..]);
        if fields.Failed? then Failed else Done(Obj(fields.value), fields.rest)
    else if IsNumberUnit(t[0]) then
      var (digits, rest) := ReadNumber(t);
      Done(Num(digits), rest)
    else if NULL_TEXT <= t then Done(Null, t[4..])
    else if TRUE_TEXT <= t then Done(Bool(true), t[4..])
    else if FALSE_TEXT <= t then Done(Bool(false), t[5..])
    else Failed
  }

  /** Array items and the closing bracket. */
  function ReadItems(t: Text): (r: Read<seq<Json>>)
    ensures r.Done? ==> |r.rest| < |t|
    decreases |t|, 1
  {
    var v := ReadValue(t);
    if v.Failed? || v.rest == [] then Failed
    else if v.rest[0] == CLOSE_BRACKET then Done([v.value], v.rest[1..])
    else if v.rest[0] == COMMA then
      var tail := ReadItems(v.rest[1..]);
      if tail.Failed? then Failed else Done([v.value] + tail.value, tail.rest)
    else Failed
  }

  /** Object members and the closing brace. */
  function ReadFields(t: Text): (r: Read<seq<Field>>)
    ensures r.Done? ==> |r.rest| < |t|
    decreases |t|, 1
  {
    if t == [] || t[0] != QUOTE then Failed
    else
      var k := ReadString(t[1..]);
      if k.Failed? || k.rest == [] || k.rest[0] != COLON then Failed
      else
        var v := ReadValue(k.rest[1..]);
        if v.Failed? || v.rest == [] then Failed
        else if v.rest[0] == CLOSE_BRACE then Done([Field(k.value, v.value)], v.rest[1..])
        else if v.rest[0] == COMMA then
          var tail := ReadFields(v.rest[1..]);
          if tail.Failed? then Failed else Done([Field(k.value, v.value)] + tail.value, tail.rest)
        else Failed
  }

  // ---------- Strings

  lemma HexSplit(u: Unit)
    ensures u / 4096 < 16
    ensures u == u / 4096 * 4096 + u / 256 % 16 * 256 + u / 16 % 16 * 16 + u % 16
  {
  }

  lemma HexRead(d: int)
    requires 0 <= d < 16
    ensures HexValue(HexDigit(d)) == d
  {
  }

  lemma UnicodeEscapeRead(u: Unit, rest: Text)
    ensures ReadEscape(UnicodeEscape(u)[1..] + rest) == Done(u, rest)
  {
    var a, b, c, d := u / 4096, u / 256 % 16, u / 16 % 16, u % 16;
    HexSplit(u);
    HexRead(a);
    HexRead(b);
    HexRead(c);
    HexRead(d);
    FourDigitsRead(a, b, c, d, rest);
    assert UnicodeEscape(u)[1..] + rest == [LETTER_U] + ([HexDigit(a), HexDigit(b), HexDigit(c), HexDigit(d)] + rest);
  }

  lemma FourDigitsRead(a: int, b: int, c: int, d: int, rest: Text)
    requires 0 <= a < 16 && 0 <= b < 16 && 0 <= c < 16 && 0 <= d < 16
    ensures ReadHex([HexDigit(a), HexDigit(b), HexDigit(c), HexDigit(d)] + rest)
         == Done(a * 4096 + b * 256 + c * 16 + d, rest)
  {
    var t := [HexDigit(a), HexDigit(b), HexDigit(c), HexDigit(d)] + rest;
    assert t[0] == HexDigit(a) && t[1] == HexDigit(b) && t[2] == HexDigit(c) && t[3] == HexDigit(d);
    assert t[4..] == rest;
  }

  lemma EscapeUnitRead(u: Unit, rest: Text)
    ensures var t := EscapeUnit(u) + rest;
            && t != [] && t[0] != QUOTE
            && if t[0] == BACKSLASH then ReadEscape(t[1..]) == Done(u, rest) else t[0] == u && t[1..] == rest
  {
    var t := EscapeUnit(u) + rest;
    if ShortEscape(u) != 0 {
      assert t[1..][1..] == rest;
    } else if u < 32 || IsHigh(u) || IsLow(u) {
      UnicodeEscapeRead(u, rest);
      assert t[1..] == UnicodeEscape(u)[1..] + rest;
    }
  }

  lemma PlainUnitRead(u: Unit, tail: Text, s: Text, rest: Text)
    requires u != QUOTE && u != BACKSLASH && ReadString(tail) == Done(s, rest)
    ensures ReadString([u] + tail) == Done([u] + s, rest)
  {
    assert ([u] + tail)[1..] == tail;
  }

  lemma UnitRead(u: Unit, tail: Text, s: Text, rest: Text)
    requires ReadString(tail) == Done(s, rest)
    ensures ReadString(EscapeUnit(u) + tail) == Done([u] + s, rest)
  {
    EscapeUnitRead(u, tail);
  }

  predicate Paired(s: Text) {
    |s| > 1 && IsHigh(s[0]) && IsLow(s[1])
  }

  lemma PairText(s: Text, rest: Text)
    requires Paired(s)
    ensures Escape(s) + [QUOTE] + rest == [s[0]] + ([s[1]] + (Escape(s[2..]) + [QUOTE] + rest))
    ensures [s[0]] + ([s[1]] + s[2..]) == s
  {
  }

  lemma UnitText(s: Text, rest: Text)
    requires s != [] && !Paired(s)
    ensures Escape(s) + [QUOTE] + rest == EscapeUnit(s[0]) + (Escape(s[1..]) + [QUOTE] + rest)
    ensures [s[0]] + s[1..] == s
  {
  }

  lemma PairRead(h: Unit, l: Unit, tail: Text, s: Text, rest: Text)
    requires IsHigh(h) && IsLow(l) && ReadString(tail) == Done(s, rest)
    ensures ReadString([h] + ([l] + tail)) == Done([h] + ([l] + s), rest)
  {
    PlainUnitRead(l, tail, s, rest);
    PlainUnitRead(h, [l] + tail, [l] + s, rest);
  }

  lemma {:induction false} StringRead(s: Text, rest: Text)
    ensures ReadString(Escape(s) + [QUOTE] + rest) == Done(s, rest)
    decreases |s|
  {
    if s == [] {
      EmptyStringRead(rest);
    } else if Paired(s) {
      PairText(s, rest);
      StringRead(s[2..], rest);
      PairRead(s[0], s[1], Escape(s[2..]) + [QUOTE] + rest, s[2..], rest);
    } else {
      UnitText(s, rest);
      StringRead(s[1..], rest);
      UnitRead(s[0], Escape(s[1..]) + [QUOTE] + rest, s[1..], rest);
    }
  }

  lemma EmptyStringRead(rest: Text)
    ensures ReadString([] + [QUOTE] + rest) == Done([], rest)
  {
    assert [] + [QUOTE] + rest == [QUOTE] + rest && ([QUOTE] + rest)[1..] == rest;
  }

  // ---------- Values

  /** What may follow a value: nothing that could continue a numeral. */
  predicate Delimited(rest: Text) {
    rest == [] || !IsNumberUnit(rest[0])
  }

  lemma {:induction false} NumberRead(t: Text, rest: Text)
    requires (forall i | 0 <= i < |t| :: IsNumberUnit(t[i])) && Delimited(rest)
    ensures ReadNumber(t + rest) == (t, rest)
  {
    if t == [] {
      assert t + rest == rest;
    } else {
      assert (t + rest)[1..] == t[1..] + rest;
      NumberRead(t[1..], rest);
      assert [t[0]] + t[1..] == t;
    }
  }

  /** The first unit of a canonical text is never a closing bracket or brace. */
  lemma CanonicalStart(v: Json)
    requires Valid(v)
    ensures Canonical(v) != [] && Canonical(v)[0] != CLOSE_BRACKET && Canonical(v)[0] != CLOSE_BRACE
  {
  }

  lemma QuotedRead(s: Text, rest: Text)
    ensures ReadValue(Quote(s) + rest) == Done(Str(s), rest)
  {
    StringRead(s, rest);
    assert (Quote(s) + rest)[1..] == Escape(s) + [QUOTE] + rest;
  }

  lemma LiteralRead(v: Json, rest: Text)
    requires v.Null? || v.NonJson? || v.Bool?
    ensures ReadValue(Canonical(v) + rest) == Done(Normal(v), rest)
  {
    var t := Canonical(v) + rest;
    assert t[|Canonical(v)|..] == rest;
    assert t[0] == Canonical(v)[0];
  }

  lemma ArrayRead(body: Text, vs: seq<Json>, rest: Text)
    requires body != [] && body[0] != CLOSE_BRACKET && ReadItems(body) == Done(vs, rest)
    ensures ReadValue([OPEN_BRACKET] + body) == Done(Arr(vs), rest)
  {
    var t := [OPEN_BRACKET] + body;
    assert t[0] == OPEN_BRACKET && t[1] == body[0] && t[1..] == body;
  }

  lemma EmptyArrayRead(rest: Text)
    ensures ReadValue([OPEN_BRACKET] + [] + [CLOSE_BRACKET] + rest) == Done(Arr([]), rest)
  {
    assert [OPEN_BRACKET] + [] + [CLOSE_BRACKET] + rest == [OPEN_BRACKET, CLOSE_BRACKET] + rest;
  }

  lemma ItemsStart(items: seq<Json>, rest: Text)
    requires items != [] && Valid(items[0])
    ensures var body := CanonicalItems(items) + [CLOSE_BRACKET] + rest; body != [] && body[0] != CLOSE_BRACKET
  {
    CanonicalStart(items[0]);
  }

  lemma Enclosed(open: Unit, inner: Text, close: Unit, rest: Text)
    ensures [open] + inner + [close] + rest == [open] + (inner + [close] + rest)
  {
  }

  lemma PrintedArrayRead(items: seq<Json>, rest: Text)
    requires items != [] ==> Valid(items[0])
    requires items != [] ==> ReadItems(CanonicalItems(items) + [CLOSE_BRACKET] + rest) == Done(NormalItems(items), rest)
    ensures ReadValue([OPEN_BRACKET] + CanonicalItems(items) + [CLOSE_BRACKET] + rest) == Done(Arr(NormalItems(items)), rest)
  {
    if items == [] {
      EmptyArrayRead(rest);
    } else {
      ItemsStart(items, rest);
      ArrayRead(CanonicalItems(items) + [CLOSE_BRACKET] + rest, NormalItems(items), rest);
      Enclosed(OPEN_BRACKET, CanonicalItems(items), CLOSE_BRACKET, rest);
    }
  }

  lemma ObjectRead(body: Text, fs: seq<Field>, rest: Text)
    requires body != [] && body[0] == QUOTE && ReadFields(body) == Done(fs, rest)
    ensures ReadValue([OPEN_BRACE] + body) == Done(Obj(fs), rest)
  {
    var t := [OPEN_BRACE] + body;
    assert t[0] == OPEN_BRACE && t[1] == QUOTE && t[1..] == body;
  }

  lemma EmptyObjectRead(rest: Text)
    ensures ReadValue([OPEN_BRACE] + [] + [CLOSE_BRACE] + rest) == Done(Obj([]), rest)
  {
    assert [OPEN_BRACE] + [] + [CLOSE_BRACE] + rest == [OPEN_BRACE, CLOSE_BRACE] + rest;
  }

  lemma FieldsStart(fields: seq<Field>, keys: seq<Text>)
    requires keys != [] && forall k | k in keys :: k in Keys(fields)
    ensures CanonicalFields(fields, keys) != [] && CanonicalFields(fields, keys)[0] == QUOTE
  {
  }

  lemma PrintedObjectRead(fields: seq<Field>, keys: seq<Text>, rest: Text)
    requires forall k | k in keys :: k in Keys(fields)
    requires keys != [] ==>
               ReadFields(CanonicalFields(fields, keys) + [CLOSE_BRACE] + rest) == Done(NormalFields(fields, keys), rest)
    ensures ReadValue([OPEN_BRACE] + CanonicalFields(fields, keys) + [CLOSE_BRACE] + rest)
         == Done(Obj(NormalFields(fields, keys)), rest)
  {
    if keys == [] {
      EmptyObjectRead(rest);
    } else {
      var inner := CanonicalFields(fields, keys);
      FieldsStart(fields, keys);
      ObjectRead(inner + [CLOSE_BRACE] + rest, NormalFields(fields, keys), rest);
      Enclosed(OPEN_BRACE, inner, CLOSE_BRACE, rest);
    }
  }

  /** Reading a printed value gives the value back with its keys sorted. */
  lemma {:induction false} ValueRead(v: Json, rest: Text)
    requires Valid(v) && Delimited(rest)
    ensures ReadValue(Canonical(v) + rest) == Done(Normal(v), rest)
    decreases v, 0
  {
    match v
    case Null => LiteralRead(v, rest);
    case NonJson => LiteralRead(v, rest);
    case Bool(b) => LiteralRead(v, rest);
    case Num(n) =>
      NumberRead(n, rest);
      assert (n + rest)[0] == n[0];
    case Str(s) =>
      QuotedRead(s, rest);
    case Arr(items) =>
      if items != [] { ItemsRead(items, rest); }
      PrintedArrayRead(items, rest);
    case Obj(fields) =>
      if SortedKeys(fields) != [] { FieldsRead(fields, SortedKeys(fields), rest); }
      PrintedObjectRead(fields, SortedKeys(fields), rest);
  }

  lemma LastItem(t: Text, v: Json, rest: Text)
    requires ReadValue(t) == Done(v, [CLOSE_BRACKET] + rest)
    ensures ReadItems(t) == Done([v], rest)
  {
  }

  lemma MoreItems(t: Text, v: Json, tail: Text, vs: seq<Json>, rest: Text)
    requires ReadValue(t) == Done(v, [COMMA] + tail) && ReadItems(tail) == Done(vs, rest)
    ensures ReadItems(t) == Done([v] + vs, rest)
  {
    assert ([COMMA] + tail)[1..] == tail;
  }

  lemma ItemsText(items: seq<Json>, rest: Text)
    requires items != []
    ensures CanonicalItems(items) + [CLOSE_BRACKET] + rest
         == Canonical(items[0])
            + if |items| == 1 then [CLOSE_BRACKET] + rest
              else [COMMA] + (CanonicalItems(items[1..]) + [CLOSE_BRACKET] + rest)
  {
    if |items| > 1 { Trailing(Canonical(items[0]), [COMMA], CanonicalItems(items[1..]), [CLOSE_BRACKET], rest); }
  }

  lemma {:induction false} ItemsRead(items: seq<Json>, rest: Text)
    requires items != [] && forall i | 0 <= i < |items| :: Valid(items[i])
    ensures ReadItems(CanonicalItems(items) + [CLOSE_BRACKET] + rest) == Done(NormalItems(items), rest)
    decreases items, 0
  {
    var first := Canonical(items[0]);
    ItemsText(items, rest);
    if |items| == 1 {
      var end := [CLOSE_BRACKET] + rest;
      ValueRead(items[0], end);
      LastItem(first + end, Normal(items[0]), rest);
      assert NormalItems(items) == [Normal(items[0])] + NormalItems(items[1..]) && items[1..] == [];
      assert NormalItems(items) == [Normal(items[0])];
    } else {
      var tail := CanonicalItems(items[1..]) + [CLOSE_BRACKET] + rest;
      ValueRead(items[0], [COMMA] + tail);
      ItemsRead(items[1..], rest);
      MoreItems(first + ([COMMA] + tail), Normal(items[0]), tail, NormalItems(items[1..]), rest);
    }
  }

  lemma LastField(t: Text, k: Text, v: Json, inner: Text, rest: Text)
    requires ReadString(t) == Done(k, [COLON] + inner)
    requires ReadValue(inner) == Done(v, [CLOSE_BRACE] + rest)
    ensures ReadFields([QUOTE] + t) == Done([Field(k, v)], rest)
  {
    assert ([QUOTE] + t)[1..] == t && ([COLON] + inner)[1..] == inner;
  }

  lemma MoreFields(t: Text, k: Text, v: Json, inner: Text, tail: Text, fs: seq<Field>, rest: Text)
    requires ReadString(t) == Done(k, [COLON] + inner)
    requires ReadValue(inner) == Done(v, [COMMA] + tail) && ReadFields(tail) == Done(fs, rest)
    ensures ReadFields([QUOTE] + t) == Done([Field(k, v)] + fs, rest)
  {
    assert ([QUOTE] + t)[1..] == t && ([COLON] + inner)[1..] == inner && ([COMMA] + tail)[1..] == tail;
  }

  lemma {:induction false} FieldsRead(fields: seq<Field>, keys: seq<Text>, rest: Text)
    requires keys != [] && forall k | k in keys :: k in Keys(fields)
    requires forall i | 0 <= i < |fields| :: Valid(fields[i].value)
    ensures ReadFields(CanonicalFields(fields, keys) + [CLOSE_BRACE] + rest) == Done(NormalFields(fields, keys), rest)
    decreases fields, |keys|
  {
    var k := keys[0];
    var v := Lookup(fields, k);
    if |keys| == 1 {
      var inner := Canonical(v) + ([CLOSE_BRACE] + rest);
      LastFieldText(fields, keys, rest);
      StringRead(k, [COLON] + inner);
      ValueRead(v, [CLOSE_BRACE] + rest);
      LastField(Escape(k) + [QUOTE] + ([COLON] + inner), k, Normal(v), inner, rest);
      assert NormalFields(fields, keys) == [Field(k, Normal(v))] + NormalFields(fields, keys[1..]) && keys[1..] == [];
      assert NormalFields(fields, keys) == [Field(k, Normal(v))];
    } else {
      var tail := CanonicalFields(fields, keys[1..]) + [CLOSE_BRACE] + rest;
      var inner := Canonical(v) + ([COMMA] + tail);
      MoreFieldsText(fields, keys, rest);
      StringRead(k, [COLON] + inner);
      ValueRead(v, [COMMA] + tail);
      FieldsRead(fields, keys[1..], rest);
      MoreFields(Escape(k) + [QUOTE] + ([COLON] + inner), k, Normal(v), inner, tail, NormalFields(fields, keys[1..]), rest);
    }
  }

  lemma MemberText(q: Text, e: Text, c: Text, v: Text, end: Text)
    ensures q + e + q + c + v + end == q + (e + q + (c + (v + end)))
  {
  }

  lemma Trailing(member: Text, c: Text, more: Text, close: Text, rest: Text)
    ensures member + c + more + close + rest == member + (c + (more + close + rest))
  {
  }

  lemma LastFieldText(fields: seq<Field>, keys: seq<Text>, rest: Text)
    requires |keys| == 1 && forall k | k in keys :: k in Keys(fields)
    ensures CanonicalFields(fields, keys) + [CLOSE_BRACE] + rest
              == [QUOTE] + (Escape(keys[0]) + [QUOTE]
                   + ([COLON] + (Canonical(Lookup(fields, keys[0])) + ([CLOSE_BRACE] + rest))))
  {
    var v := Canonical(Lookup(fields, keys[0]));
    var member := [QUOTE] + Escape(keys[0]) + [QUOTE] + [COLON] + v;
    assert CanonicalFields(fields, keys) == member;
    MemberText([QUOTE], Escape(keys[0]), [COLON], v, [CLOSE_BRACE] + rest);
    assert member + [CLOSE_BRACE] + rest == member + ([CLOSE_BRACE] + rest);
  }

  lemma MoreFieldsText(fields: seq<Field>, keys: seq<Text>, rest: Text)
    requires |keys| > 1 && forall k | k in keys :: k in Keys(fields)
    ensures CanonicalFields(fields, keys) + [CLOSE_BRACE] + rest
              == [QUOTE] + (Escape(keys[0]) + [QUOTE]
                   + ([COLON] + (Canonical(Lookup(fields, keys[0]))
                        + ([COMMA] + (CanonicalFields(fields, keys[1..]) + [CLOSE_BRACE] + rest)))))
  {
    var v := Canonical(Lookup(fields, keys[0]));
    var member := [QUOTE] + Escape(keys[0]) + [QUOTE] + [COLON] + v;
    var more := CanonicalFields(fields, keys[1..]);
    assert CanonicalFields(fields, keys) == member + [COMMA] + more;
    MemberText([QUOTE], Escape(keys[0]), [COLON], v, [COMMA] + (more + [CLOSE_BRACE] + rest));
    Trailing(member, [COMMA], more, [CLOSE_BRACE], rest);
  }
}
