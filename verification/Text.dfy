/** JavaScript strings: sequences of UTF-16 code units, not of characters. */
module Text {
  import opened Wrappers

  type Unit = x: int | 0 <= x < 0x1_0000

  type Text = seq<Unit>

  /** A string literal of the source as code units; every literal it is used on is ASCII. */
  function Literal(s: string): (t: Text)
    ensures |t| == |s|
    ensures forall i :: 0 <= i < |s| && s[i] as int < 0x1_0000 ==> t[i] == s[i] as int
  {
    seq(|s|, i requires 0 <= i < |s| => if s[i] as int < 0x1_0000 then s[i] as int else 0xFFFD)
  }

  predicate StartsWith(t: Text, prefix: Text) {
    |prefix| <= |t| && t[..|prefix|] == prefix
  }

  /** What String.prototype.trim removes: white space and line terminators of ECMAScript. */
  predicate IsSpace(u: Unit) {
    0x09 <= u <= 0x0D || u == 0x20 || u == 0xA0 || u == 0x1680 || 0x2000 <= u <= 0x200A || u == 0x2028 || u == 0x2029
    || u == 0x202F || u == 0x205F || u == 0x3000 || u == 0xFEFF
  }

  function TrimStart(t: Text): (r: Text)
    ensures r == [] || !IsSpace(r[0])
    ensures t != [] && !IsSpace(t[0]) ==> r == t
    ensures |r| <= |t| && (r != [] ==> r[|r| - 1] == t[|t| - 1])
  {
    if t != [] && IsSpace(t[0]) then TrimStart(t[1..]) else t
  }

  function TrimEnd(t: Text): (r: Text)
    ensures r <= t && (r == [] || !IsSpace(r[|r| - 1]))
    ensures t != [] && !IsSpace(t[|t| - 1]) ==> r == t
  {
    if t != [] && IsSpace(t[|t| - 1]) then TrimEnd(t[..|t| - 1]) else t
  }

  /** Nothing at either end that trimming would remove. */
  predicate Trimmed(t: Text) { t == [] || (!IsSpace(t[0]) && !IsSpace(t[|t| - 1])) }

  function Trim(t: Text): (r: Text)
    ensures Trimmed(r) && (Trimmed(t) ==> r == t)
  {
    TrimEnd(TrimStart(t))
  }

  /** An optional string, trimmed; blank counts as missing. */
  function NonBlank(value: Option<Text>): Option<Text> {
    if value.Some? && Trim(value.value) != [] then Some(Trim(value.value)) else None
  }

  predicate IsHighSurrogate(u: Unit) { 0xD800 <= u < 0xDC00 }

  predicate IsLowSurrogate(u: Unit) { 0xDC00 <= u < 0xE000 }

  predicate IsSurrogate(u: Unit) { 0xD800 <= u < 0xE000 }
}
