/** `canonicalizeJson` of agent-loop.ts: the text an approval hash is computed from. */
module CanonicalJson {
  import opened Ordering

  /** A UTF-16 code unit, and JavaScript strings as sequences of them. */
  type Unit = u: int | 0 <= u < 0x10000
  type Text = seq<Unit>

  /** A JavaScript value. `NonJson` stands for what JSON.stringify cannot print:
      undefined, functions, NaN and the infinities. A number is its JSON text.
      Object fields are in insertion order. */
  datatype Json =
    | Null
    | NonJson
    | Bool(b: bool)
    | Num(text: Text)
    | Str(s: Text)
    | Arr(items: seq<Json>)
    | Obj(fields: seq<Field>)

  datatype Field = Field(key: Text, value: Json)

  const QUOTE: Unit := 34
  const COMMA: Unit := 44
  const COLON: Unit := 58
  const OPEN_BRACKET: Unit := 91
  const BACKSLASH: Unit := 92
  const CLOSE_BRACKET: Unit := 93
  const LETTER_U: Unit := 117
  const OPEN_BRACE: Unit := 123
  const CLOSE_BRACE: Unit := 125
  const NULL_TEXT: Text := [110, 117, 108, 108]
  const TRUE_TEXT: Text := [116, 114, 117, 101]
  const FALSE_TEXT: Text := [102, 97, 108, 115, 101]

  predicate IsNumberUnit(u: Unit) {
    48 <= u <= 57 || u == 43 || u == 45 || u == 46 || u == 69 || u == 101
  }

  predicate IsNumberText(t: Text) {
    t != [] && forall i | 0 <= i < |t| :: IsNumberUnit(t[i])
  }

  function Keys(fields: seq<Field>): (r: seq<Text>)
    ensures |r| == |fields| && forall i | 0 <= i < |r| :: r[i] == fields[i].key
  {
    seq(|fields|, i requires 0 <= i < |fields| => fields[i].key)
  }

  /** What every JavaScript value satisfies: distinct keys, printable numerals. */
  ghost predicate Valid(v: Json) {
    match v
    case Num(t) => IsNumberText(t)
    case Arr(items) => forall i | 0 <= i < |items| :: Valid(items[i])
    case Obj(fields) => NoDuplicates(Keys(fields)) && forall i | 0 <= i < |fields| :: Valid(fields[i].value)
    case _ => true
  }

  // ---------- JSON.stringify on strings

  predicate IsHigh(u: Unit) { 0xD800 <= u < 0xDC00 }

  predicate IsLow(u: Unit) { 0xDC00 <= u < 0xE000 }

  function HexDigit(d: int): Unit
    requires 0 <= d < 16
  {
    if d < 10 then 48 + d else 87 + d
  }

  function UnicodeEscape(u: Unit): Text {
    [BACKSLASH, LETTER_U, HexDigit(u / 4096), HexDigit(u / 256 % 16), HexDigit(u / 16 % 16), HexDigit(u % 16)]
  }

  /** The letter after the backslash of a short escape, if there is one. */
  function ShortEscape(u: Unit): Unit {
    if u == 8 then 98 else if u == 9 then 116 else if u == 10 then 110
    else if u == 12 then 102 else if u == 13 then 114
    else if u == QUOTE then QUOTE else if u == BACKSLASH then BACKSLASH else 0
  }

  function EscapeUnit(u: Unit): Text {
    if ShortEscape(u) != 0 then [BACKSLASH, ShortEscape(u)]
    else if u < 32 || IsHigh(u) || IsLow(u) then UnicodeEscape(u)
    else [u]
  }

  /** Surrogate pairs are printed as they are; lone surrogates are escaped. */
  function Escape(s: Text): Text {
    if s == [] then []
    else if |s| > 1 && IsHigh(s[0]) && IsLow(s[1]) then s[..2] + Escape(s[2..])
    else EscapeUnit(s[0]) + Escape(s[1..])
  }

  function Quote(s: Text): Text {
    [QUOTE] + Escape(s) + [QUOTE]
  }

  // ---------- The printer

  predicate KeyLe(a: Text, b: Text) { LexLe(a, b) }

  function SortedKeys(fields: seq<Field>): (r: seq<Text>)
    ensures forall k | k in r :: k in Keys(fields)
  {
    var r := Sort(KeyLe, Keys(fields));
    SameMembers(r, Keys(fields));
    r
  }

  function IndexOfKey(fields: seq<Field>, k: Text): (i: nat)
    requires k in Keys(fields)
    ensures i < |fields| && fields[i].key == k
  {
    if fields[0].key == k then 0
    else
      assert Keys(fields) == [fields[0].key] + Keys(fields[1..]);
      1 + IndexOfKey(fields[1..], k)
  }

  /** Property access `value[k]`. */
  function Lookup(fields: seq<Field>, k: Text): Json
    requires k in Keys(fields)
  {
    fields[IndexOfKey(fields, k)].value
  }

  function Canonical(v: Json): Text
    decreases v, 0
  {
    match v
    case Null => NULL_TEXT
    case NonJson => NULL_TEXT
    case Bool(b) => if b then TRUE_TEXT else FALSE_TEXT
    case Num(t) => t
    case Str(s) => Quote(s)
    case Arr(items) => [OPEN_BRACKET] + CanonicalItems(items) + [CLOSE_BRACKET]
    case Obj(fields) => [OPEN_BRACE] + CanonicalFields(fields, SortedKeys(fields)) + [CLOSE_BRACE]
  }

  function CanonicalItems(items: seq<Json>): Text
    decreases items, 0
  {
    if items == [] then []
    else if |items| == 1 then Canonical(items[0])
    else Canonical(items[0]) + [COMMA] + CanonicalItems(items[1..])
  }

  function CanonicalFields(fields: seq<Field>, keys: seq<Text>): Text
    requires forall k | k in keys :: k in Keys(fields)
    decreases fields, |keys|
  {
    if keys == [] then []
    else
      var member := Quote(keys[0]) + [COLON] + Canonical(Lookup(fields, keys[0]));
      if |keys| == 1 then member else member + [COMMA] + CanonicalFields(fields, keys[1..])
  }

  // ---------- Equality up to key order

  /** Object fields in key order, at every depth. */
  function Normal(v: Json): Json
    decreases v, 0
  {
    match v
    case NonJson => Null
    case Arr(items) => Arr(NormalItems(items))
    case Obj(fields) => Obj(NormalFields(fields, SortedKeys(fields)))
    case _ => v
  }

  function NormalItems(items: seq<Json>): (r: seq<Json>)
    ensures |r| == |items|
    decreases items, 0
  {
    if items == [] then [] else [Normal(items[0])] + NormalItems(items[1..])
  }

  function NormalFields(fields: seq<Field>, keys: seq<Text>): (r: seq<Field>)
    requires forall k | k in keys :: k in Keys(fields)
    ensures Keys(r) == keys
    decreases fields, |keys|
  {
    if keys == [] then []
    else [Field(keys[0], Normal(Lookup(fields, keys[0])))] + NormalFields(fields, keys[1..])
  }

  /** Equal, except that object fields may come in any order. */
  ghost predicate SameUpToOrder(v: Json, w: Json)
    decreases v
  {
    match (v, w)
    case (Arr(a), Arr(b)) => |a| == |b| && forall i | 0 <= i < |a| :: SameUpToOrder(a[i], b[i])
    case (Obj(f), Obj(g)) =>
      && |f| == |g|
      && forall i | 0 <= i < |f| ::
           exists j :: 0 <= j < |g| && g[j].key == f[i].key && SameUpToOrder(f[i].value, g[j].value)
    case _ => v == w
  }

  /** JSON.stringify prints null for what JSON cannot express. */
  function Blanked(v: Json): Json {
    match v
    case NonJson => Null
    case Arr(items) => Arr(seq(|items|, i requires 0 <= i < |items| => Blanked(items[i])))
    case Obj(fields) =>
      Obj(seq(|fields|, i requires 0 <= i < |fields| => Field(fields[i].key, Blanked(fields[i].value))))
    case _ => v
  }
}
