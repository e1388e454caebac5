/**
 JSON values and the two printers the server uses on them: JSON.stringify and the key-sorting
 stableJsonStringify. Text is produced unit by unit, following section 7 of RFC 8259 and the
 well-formed JSON.stringify of ECMAScript (lone surrogates are escaped).
 */
module Json {
  import opened Text

  /** A number is its printed form: Number-to-string is injective on the finite doubles other than -0. */
  datatype Json =
    | Undefined
    | Null
    | Bool(b: bool)
    | Num(lexeme: Text)
    | Str(s: Text)
    | Arr(items: seq<Json>)
    | Obj(members: seq<Member>)

  /** One own property; the position in the sequence is the engine's enumeration order. */
  datatype Member = Member(key: Text, value: Json)

  /** The comparator handed to Array.prototype.sort: does `left` come before `right`, or tie with it? */
  type Order = (Text, Text) -> bool

  const QUOTE: Unit := 0x22
  const BACKSLASH: Unit := 0x5C
  const COMMA: Unit := 0x2C
  const COLON: Unit := 0x3A
  const LBRACKET: Unit := 0x5B
  const RBRACKET: Unit := 0x5D
  const LBRACE: Unit := 0x7B
  const RBRACE: Unit := 0x7D
  const TRUE_TEXT: Text := [0x74, 0x72, 0x75, 0x65]
  const FALSE_TEXT: Text := [0x66, 0x61, 0x6C, 0x73, 0x65]
  const NULL_TEXT: Text := [0x6E, 0x75, 0x6C, 0x6C]

  // ---------- well-formed values ----------

  /** Digits, sign, point and exponent marks: the only units a printed number has. */
  predicate IsNumberUnit(u: Unit) {
    0x30 <= u <= 0x39 || u == 0x2D || u == 0x2B || u == 0x2E || u == 0x65 || u == 0x45
  }

  predicate IsNumberLexeme(t: Text) {
    t != [] && (0x30 <= t[0] <= 0x39 || t[0] == 0x2D) && forall i :: 0 <= i < |t| ==> IsNumberUnit(t[i])
  }

  ghost predicate DistinctKeys(ms: seq<Member>) {
    forall i, j :: 0 <= i < j < |ms| ==> ms[i].key != ms[j].key
  }

  /** What an evaluated object literal or a parsed body can be: `undefined` only as a property value. */
  ghost predicate WellFormed(v: Json)
    decreases v
  {
    match v
    case Undefined => false
    case Num(lexeme) => IsNumberLexeme(lexeme)
    case Arr(items) => forall i :: 0 <= i < |items| ==> WellFormed(items[i])
    case Obj(ms) =>
      && DistinctKeys(ms)
      && forall i :: 0 <= i < |ms| ==> ms[i].value == Undefined || WellFormed(ms[i].value)
    case _ => true
  }

  /** Without `undefined`, so printed in full; what JSON.parse can return is well-formed and printable. */
  ghost predicate Printable(v: Json)
    decreases v
  {
    match v
    case Undefined => false
    case Num(lexeme) => IsNumberLexeme(lexeme)
    case Arr(items) => forall i :: 0 <= i < |items| ==> Printable(items[i])
    case Obj(ms) => forall i :: 0 <= i < |ms| ==> Printable(ms[i].value)
    case _ => true
  }

  /** The properties both printers keep. */
  function Defined(ms: seq<Member>): (r: seq<Member>)
    ensures |r| <= |ms|
    ensures forall m :: m in r <==> m in ms && m.value != Undefined
    ensures SizeOfMembers(r) <= SizeOfMembers(ms)
  {
    if ms == [] then []
    else if ms[0].value == Undefined then Defined(ms[1..])
    else [ms[0]] + Defined(ms[1..])
  }

  lemma {:induction false} DefinedKeepsAll(ms: seq<Member>)
    requires forall i :: 0 <= i < |ms| ==> ms[i].value != Undefined
    ensures Defined(ms) == ms
  {
    if ms != [] {
      DefinedKeepsAll(ms[1..]);
      assert ms == [ms[0]] + ms[1..];
    }
  }

  // ---------- sorting by key ----------

  ghost predicate TotalPreorder(le: Order) {
    && (forall a, b :: le(a, b) || le(b, a))
    && (forall a, b, c :: le(a, b) && le(b, c) ==> le(a, c))
  }

  /** No two different keys of `keys` tie. */
  ghost predicate StrictOn(le: Order, keys: set<Text>) {
    forall a, b :: a in keys && b in keys && le(a, b) && le(b, a) ==> a == b
  }

  function Insert(le: Order, m: Member, sorted: seq<Member>): (r: seq<Member>)
    ensures multiset(r) == multiset{m} + multiset(sorted)
    ensures SizeOfMembers(r) == SizeOf(m.value) + SizeOfMembers(sorted)
  {
    if sorted == [] || le(m.key, sorted[0].key) then [m] + sorted
    else
      assert sorted == [sorted[0]] + sorted[1..];
      [sorted[0]] + Insert(le, m, sorted[1..])
  }

  /** Array.prototype.sort is stable; for a total preorder its result is the one of insertion sort. */
  function Sort(le: Order, ms: seq<Member>): (r: seq<Member>)
    ensures multiset(r) == multiset(ms)
    ensures |r| == |ms|
    ensures SizeOfMembers(r) == SizeOfMembers(ms)
  {
    if ms == [] then []
    else
      assert ms == [ms[0]] + ms[1..];
      var r := Insert(le, ms[0], Sort(le, ms[1..]));
      assert |multiset(r)| == |multiset(ms)|;
      r
  }

  // ---------- string literals ----------

  function HexDigit(d: int): Unit
    requires 0 <= d < 16
  {
    if d < 10 then 0x30 + d else 0x61 + (d - 10)
  }

  /** One code unit inside a JSON string literal, when it is not half of a surrogate pair. */
  function EscapeUnit(u: Unit): (t: Text)
    ensures 1 <= |t| <= 6
  {
    if u == 0x08 then [BACKSLASH, 0x62]
    else if u == 0x09 then [BACKSLASH, 0x74]
    else if u == 0x0A then [BACKSLASH, 0x6E]
    else if u == 0x0C then [BACKSLASH, 0x66]
    else if u == 0x0D then [BACKSLASH, 0x72]
    else if u == QUOTE then [BACKSLASH, QUOTE]
    else if u == BACKSLASH then [BACKSLASH, BACKSLASH]
    else if u < 0x20 || IsSurrogate(u) then
      [BACKSLASH, 0x75, HexDigit(u / 16 / 16 / 16), HexDigit(u / 16 / 16 % 16), HexDigit(u / 16 % 16), HexDigit(u % 16)]
    else [u]
  }

  function Escape(s: Text): Text {
    if s == [] then []
    else if |s| >= 2 && IsHighSurrogate(s[0]) && IsLowSurrogate(s[1]) then s[..2] + Escape(s[2..])
    else EscapeUnit(s[0]) + Escape(s[1..])
  }

  function Quote(s: Text): Text {
    [QUOTE] + Escape(s) + [QUOTE]
  }

  // ---------- sizes, for termination ----------

  function SizeOf(v: Json): (n: nat)
    ensures n >= 1
    decreases v
  {
    match v
    case Arr(items) => 1 + SizeOfItems(items)
    case Obj(ms) => 1 + SizeOfMembers(ms)
    case _ => 1
  }

  function SizeOfItems(items: seq<Json>): nat
    decreases items
  {
    if items == [] then 0 else SizeOf(items[0]) + SizeOfItems(items[1..])
  }

  function SizeOfMembers(ms: seq<Member>): nat
    decreases ms
  {
    if ms == [] then 0 else SizeOf(ms[0].value) + SizeOfMembers(ms[1..])
  }

  // ---------- JSON.stringify ----------

  /** JSON.stringify(v) without indentation. (On `undefined` the real function answers no string at all.) */
  function Stringify(v: Json): Text
    decreases SizeOf(v), 0
  {
    match v
    case Undefined => []
    case Null => NULL_TEXT
    case Bool(b) => if b then TRUE_TEXT else FALSE_TEXT
    case Num(lexeme) => lexeme
    case Str(s) => Quote(s)
    case Arr(items) => [LBRACKET] + StringifyItems(items) + [RBRACKET]
    case Obj(ms) => [LBRACE] + StringifyMembers(Defined(ms)) + [RBRACE]
  }

  function StringifyItems(items: seq<Json>): Text
    decreases SizeOfItems(items), 1
  {
    if items == [] then []
    else if |items| == 1 then Stringify(items[0])
    else Stringify(items[0]) + [COMMA] + StringifyItems(items[1..])
  }

  function StringifyMembers(ms: seq<Member>): Text
    decreases SizeOfMembers(ms), 1
  {
    if ms == [] then []
    else
      var first := Quote(ms[0].key) + [COLON] + Stringify(ms[0].value);
      if |ms| == 1 then first else first + [COMMA] + StringifyMembers(ms[1..])
  }

  // ---------- stableJsonStringify ----------

  /** The canonical printer: properties with a value, sorted by key, at every depth. */
  function Serialize(le: Order, v: Json): Text
    decreases SizeOf(v), 0
  {
    match v
    case Arr(items) => [LBRACKET] + SerializeItems(le, items) + [RBRACKET]
    case Obj(ms) => [LBRACE] + SerializeMembers(le, Sort(le, Defined(ms))) + [RBRACE]
    case _ => Stringify(v)
  }

  function SerializeItems(le: Order, items: seq<Json>): Text
    decreases SizeOfItems(items), 1
  {
    if items == [] then []
    else if |items| == 1 then Serialize(le, items[0])
    else Serialize(le, items[0]) + [COMMA] + SerializeItems(le, items[1..])
  }

  function SerializeMembers(le: Order, ms: seq<Member>): Text
    decreases SizeOfMembers(ms), 1
  {
    if ms == [] then []
    else
      var first := Quote(ms[0].key) + [COLON] + Serialize(le, ms[0].value);
      if |ms| == 1 then first else first + [COMMA] + SerializeMembers(le, ms[1..])
  }

  // ---------- equality up to property order ----------

  /** Equal as JSON values: arrays item by item, objects property by property whatever their order. */
  ghost predicate Same(v: Json, w: Json)
    decreases v, 0
  {
    match (v, w)
    case (Arr(a), Arr(b)) => |a| == |b| && forall i :: 0 <= i < |a| ==> Same(a[i], b[i])
    case (Obj(a), Obj(b)) =>
      && (forall m :: m in a && m.value != Undefined ==> exists n :: n in b && Matches(m, n))
      && (forall n :: n in b && n.value != Undefined ==> exists m :: m in a && Matches(m, n))
    case _ => v == w
  }

  /** One name, and the same value. */
  ghost predicate Matches(m: Member, n: Member)
    decreases m, 1
  {
    m.key == n.key && m.value != Undefined && n.value != Undefined && Same(m.value, n.value)
  }

  /** Every property name at every depth, the keys a comparator is asked about. */
  function Keys(v: Json): set<Text>
    decreases v
  {
    match v
    case Arr(items) => KeysOfItems(items)
    case Obj(ms) => KeysOfMembers(ms)
    case _ => {}
  }

  function KeysOfItems(items: seq<Json>): set<Text>
    decreases items
  {
    if items == [] then {} else Keys(items[0]) + KeysOfItems(items[1..])
  }

  function KeysOfMembers(ms: seq<Member>): set<Text>
    decreases ms
  {
    if ms == [] then {} else {ms[0].key} + Keys(ms[0].value) + KeysOfMembers(ms[1..])
  }
}
