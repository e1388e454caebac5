/**
 A decoder for compact JSON text, and the proof that it inverts JSON.stringify: what was printed,
 followed by anything that cannot continue a number, reads back as the same value and leaves the rest.
 */
module JsonDecoder {
  import opened Wrappers
  import opened Text
  import opened Json

  // ---------- the decoder ----------

  function HexValue(u: Unit): Option<int> {
    if 0x30 <= u <= 0x39 then Some(u - 0x30)
    else if 0x61 <= u <= 0x66 then Some(u - 0x61 + 10)
    else None
  }

  function DecodeHex(t: Text): (r: Option<Unit>)
    requires |t| == 4
  {
    match (HexValue(t[0]), HexValue(t[1]), HexValue(t[2]), HexValue(t[3]))
    case (Some(a), Some(b), Some(c), Some(d)) =>
      var u := ((a * 16 + b) * 16 + c) * 16 + d;
      if 0 <= u < 0x1_0000 then Some(u) else None
    case _ => None
  }

  /** The unit a two-unit escape stands for. */
  function ShortEscape(u: Unit): Option<Unit> {
    if u == 0x62 then Some(0x08)
    else if u == 0x74 then Some(0x09)
    else if u == 0x6E then Some(0x0A)
    else if u == 0x66 then Some(0x0C)
    else if u == 0x72 then Some(0x0D)
    else if u == QUOTE || u == BACKSLASH then Some(u)
    else None
  }

  function Prepend(u: Unit, tail: Option<(Text, Text)>): Option<(Text, Text)> {
    match tail
    case None => None
    case Some((s, rest)) => Some(([u] + s, rest))
  }

  /** The body of a string literal, up to and including its closing quote. */
  function DecodeString(t: Text): (r: Option<(Text, Text)>)
    ensures r.Some? ==> |r.value.1| < |t|
  {
    if t == [] then None
    else if t[0] == QUOTE then Some(([], t[1..]))
    else if t[0] != BACKSLASH then Prepend(t[0], DecodeString(t[1..]))
    else if |t| >= 6 && t[1] == 0x75 then
      match DecodeHex(t[2..6])
      case None => None
      case Some(u) => Prepend(u, DecodeString(t[6..]))
    else if |t| >= 2 then
      match ShortEscape(t[1])
      case None => None
      case Some(u) => Prepend(u, DecodeString(t[2..]))
    else None
  }

  function NumberLength(t: Text): (n: nat)
    ensures n <= |t|
  {
    if t == [] || !IsNumberUnit(t[0]) then 0 else 1 + NumberLength(t[1..])
  }

  function DecodeWord(word: Text, v: Json, t: Text): (r: Option<(Json, Text)>)
    requires word != []
    ensures r.Some? ==> |r.value.1| < |t|
  {
    if StartsWith(t, word) then Some((v, t[|word|..])) else None
  }

  function Decode(t: Text): (r: Option<(Json, Text)>)
    ensures r.Some? ==> |r.value.1| < |t|
    decreases |t|, 0
  {
    if t == [] then None
    else if t[0] == QUOTE then
      match DecodeString(t[1..])
      case None => None
      case Some((s, rest)) => Some((Str(s), rest))
    else if t[0] == LBRACKET then
      if |t| >= 2 && t[1] == RBRACKET then Some((Arr([]), t[2..]))
      else
        match DecodeItems(t[1..])
        case None => None
        case Some((items, rest)) => Some((Arr(items), rest))
    else if t[0] == LBRACE then
      if |t| >= 2 && t[1] == RBRACE then Some((Obj([]), t[2..]))
      else
        match DecodeMembers(t[1..])
        case None => None
        case Some((ms, rest)) => Some((Obj(ms), rest))
    else if t[0] == NULL_TEXT[0] then DecodeWord(NULL_TEXT, Null, t)
    else if t[0] == TRUE_TEXT[0] then DecodeWord(TRUE_TEXT, Bool(true), t)
    else if t[0] == FALSE_TEXT[0] then DecodeWord(FALSE_TEXT, Bool(false), t)
    else if IsNumberUnit(t[0]) then
      var n := NumberLength(t);
      Some((Num(t[..n]), t[n..]))
    else None
  }

  /** One or more items and the closing bracket. */
  function DecodeItems(t: Text): (r: Option<(seq<Json>, Text)>)
    ensures r.Some? ==> |r.value.1| < |t|
    decreases |t|, 1
  {
    match Decode(t)
    case None => None
    case Some((v, rest)) =>
      if rest != [] && rest[0] == RBRACKET then Some(([v], rest[1..]))
      else if rest != [] && rest[0] == COMMA then
        match DecodeItems(rest[1..])
        case None => None
        case Some((items, rest')) => Some(([v] + items, rest'))
      else None
  }

  /** One or more properties and the closing brace. */
  function DecodeMembers(t: Text): (r: Option<(seq<Member>, Text)>)
    ensures r.Some? ==> |r.value.1| < |t|
    decreases |t|, 1
  {
    if t == [] || t[0] != QUOTE then None
    else
      match DecodeString(t[1..])
      case None => None
      case Some((key, afterKey)) =>
        if afterKey == [] || afterKey[0] != COLON then None
        else
          match Decode(afterKey[1..])
          case None => None
          case Some((v, rest)) =>
            if rest != [] && rest[0] == RBRACE then Some(([Member(key, v)], rest[1..]))
            else if rest != [] && rest[0] == COMMA then
              match DecodeMembers(rest[1..])
              case None => None
              case Some((ms, rest')) => Some(([Member(key, v)] + ms, rest'))
            else None
  }

  // ---------- strings ----------

  lemma HexRoundTrip(u: Unit)
    ensures DecodeHex([HexDigit(u / 16 / 16 / 16), HexDigit(u / 16 / 16 % 16), HexDigit(u / 16 % 16), HexDigit(u % 16)]) == Some(u)
  {
  }

  /** A unit that is neither a quote nor a backslash is read as itself. */
  lemma RawRoundTrip(u: Unit, t: Text)
    requires u != QUOTE && u != BACKSLASH
    ensures DecodeString([u] + t) == Prepend(u, DecodeString(t))
  {
  }

  lemma ShortRoundTrip(e: Unit, u: Unit, t: Text)
    requires ShortEscape(e) == Some(u)
    ensures DecodeString([BACKSLASH, e] + t) == Prepend(u, DecodeString(t))
  {
  }

  lemma LongRoundTrip(h: Text, u: Unit, t: Text)
    requires |h| == 4 && DecodeHex(h) == Some(u)
    ensures DecodeString([BACKSLASH, 0x75] + h + t) == Prepend(u, DecodeString(t))
  {
  }

  /** Decoding undoes the escaping of one unit and goes on with the text after it. */
  lemma UnitRoundTrip(u: Unit, t: Text)
    ensures DecodeString(EscapeUnit(u) + t) == Prepend(u, DecodeString(t))
  {
    var e := EscapeUnit(u);
    if |e| == 1 {
      RawRoundTrip(u, t);
    } else if |e| == 2 {
      ShortRoundTrip(e[1], u, t);
      assert e == [BACKSLASH, e[1]];
    } else {
      HexRoundTrip(u);
      LongRoundTrip(e[2..], u, t);
      assert e[2..] == [HexDigit(u / 16 / 16 / 16), HexDigit(u / 16 / 16 % 16), HexDigit(u / 16 % 16), HexDigit(u % 16)];
      assert e == [BACKSLASH, 0x75] + e[2..];
    }
  }

  lemma Regroup(a: Text, b: Text, c: Text)
    ensures (a + b) + c == a + (b + c)
  {
  }

  lemma {:induction false} StringRoundTrip(s: Text, rest: Text)
    ensures DecodeString(Escape(s) + ([QUOTE] + rest)) == Some((s, rest))
    decreases |s|
  {
    var close := [QUOTE] + rest;
    if s == [] {
      assert Escape(s) + close == close && close[1..] == rest;
    } else if |s| >= 2 && IsHighSurrogate(s[0]) && IsLowSurrogate(s[1]) {
      StringRoundTrip(s[2..], rest);
      var tail := Escape(s[2..]) + close;
      RawRoundTrip(s[0], [s[1]] + tail);
      RawRoundTrip(s[1], tail);
      assert s[..2] == [s[0]] + [s[1]];
      Regroup(s[..2], Escape(s[2..]), close);
      Regroup([s[0]], [s[1]], tail);
      assert s == [s[0]] + ([s[1]] + s[2..]);
    } else {
      StringRoundTrip(s[1..], rest);
      UnitRoundTrip(s[0], Escape(s[1..]) + close);
      Regroup(EscapeUnit(s[0]), Escape(s[1..]), close);
      assert s == [s[0]] + s[1..];
    }
  }

  lemma QuoteRoundTrip(s: Text, rest: Text)
    ensures Quote(s) + rest != [] && (Quote(s) + rest)[0] == QUOTE
    ensures DecodeString((Quote(s) + rest)[1..]) == Some((s, rest))
  {
    StringRoundTrip(s, rest);
    assert (Quote(s) + rest)[1..] == Escape(s) + ([QUOTE] + rest);
  }

  // ---------- values ----------

  predicate Delimited(rest: Text) {
    rest == [] || !IsNumberUnit(rest[0])
  }

  lemma {:induction false} NumberLengthOf(lexeme: Text, rest: Text)
    requires forall i :: 0 <= i < |lexeme| ==> IsNumberUnit(lexeme[i])
    requires Delimited(rest)
    ensures NumberLength(lexeme + rest) == |lexeme|
  {
    if lexeme == [] {
      assert lexeme + rest == rest;
    } else {
      assert (lexeme + rest)[1..] == lexeme[1..] + rest;
      NumberLengthOf(lexeme[1..], rest);
    }
  }

  /** A printed value is not empty and never starts like a closing bracket or brace. */
  lemma FirstUnit(v: Json)
    requires Printable(v)
    ensures Stringify(v) != []
    ensures Stringify(v)[0] != RBRACKET && Stringify(v)[0] != RBRACE
  {
  }

  lemma LeafRoundTrip(v: Json, rest: Text)
    requires Printable(v) && !v.Arr? && !v.Obj? && Delimited(rest)
    ensures Decode(Stringify(v) + rest) == Some((v, rest))
  {
    var t := Stringify(v) + rest;
    match v
    case Null =>
      assert t[..4] == NULL_TEXT && t[4..] == rest;
    case Bool(b) =>
      var word := if b then TRUE_TEXT else FALSE_TEXT;
      assert t[..|word|] == word && t[|word|..] == rest;
    case Num(lexeme) =>
      NumberLengthOf(lexeme, rest);
      assert t[..|lexeme|] == lexeme && t[|lexeme|..] == rest;
    case Str(s) =>
      QuoteRoundTrip(s, rest);
  }

  /** Printing is invertible: the decoder reads back the value and stops exactly where it ended. */
  lemma {:induction false} StringifyRoundTrip(v: Json, rest: Text)
    requires Printable(v) && Delimited(rest)
    ensures Decode(Stringify(v) + rest) == Some((v, rest))
    decreases v, 0
  {
    match v
    case Arr(items) =>
      if items != [] { ItemsRoundTrip(items, rest); }
      ArrayRoundTrip(items, rest);
    case Obj(ms) =>
      if ms != [] { MembersRoundTrip(ms, rest); }
      ObjectRoundTrip(ms, rest);
    case _ => LeafRoundTrip(v, rest);
  }

  lemma ArrayRoundTrip(items: seq<Json>, rest: Text)
    requires Printable(Arr(items))
    requires items != [] ==> DecodeItems(StringifyItems(items) + ([RBRACKET] + rest)) == Some((items, rest))
    ensures Decode(Stringify(Arr(items)) + rest) == Some((Arr(items), rest))
  {
    var body := StringifyItems(items);
    Frame(body, LBRACKET, RBRACKET, rest);
    if items != [] {
      FirstUnit(items[0]);
      assert body != [] && body[0] == Stringify(items[0])[0];
    }
  }

  lemma ObjectRoundTrip(ms: seq<Member>, rest: Text)
    requires Printable(Obj(ms))
    requires ms != [] ==> DecodeMembers(StringifyMembers(ms) + ([RBRACE] + rest)) == Some((ms, rest))
    ensures Decode(Stringify(Obj(ms)) + rest) == Some((Obj(ms), rest))
  {
    DefinedKeepsAll(ms);
    var body := StringifyMembers(ms);
    Frame(body, LBRACE, RBRACE, rest);
    if ms != [] {
      assert body != [] && body[0] == QUOTE;
    }
  }

  /** The text between two brackets, seen after the opening one. */
  lemma Frame(body: Text, open: Unit, close: Unit, rest: Text)
    ensures var t := [open] + body + [close] + rest;
      && |t| >= 2 && t[0] == open
      && t[1..] == body + ([close] + rest)
      && (body == [] ==> t[1] == close && t[2..] == rest)
      && (body != [] ==> t[1] == body[0])
  {
  }

  lemma {:induction false} ItemsRoundTrip(items: seq<Json>, rest: Text)
    requires items != [] && forall i :: 0 <= i < |items| ==> Printable(items[i])
    ensures DecodeItems(StringifyItems(items) + ([RBRACKET] + rest)) == Some((items, rest))
    decreases items, 1
  {
    var first, close := Stringify(items[0]), [RBRACKET] + rest;
    assert close[1..] == rest;
    if |items| == 1 {
      StringifyRoundTrip(items[0], close);
      assert items == [items[0]];
    } else {
      var others := StringifyItems(items[1..]);
      var tail := [COMMA] + (others + close);
      StringifyRoundTrip(items[0], tail);
      ItemsRoundTrip(items[1..], rest);
      Regroup(first + [COMMA], others, close);
      Regroup(first, [COMMA], others + close);
      assert tail[1..] == others + close;
      assert items == [items[0]] + items[1..];
    }
  }

  lemma {:induction false} MembersRoundTrip(ms: seq<Member>, rest: Text)
    requires ms != [] && forall i :: 0 <= i < |ms| ==> Printable(ms[i].value)
    ensures DecodeMembers(StringifyMembers(ms) + ([RBRACE] + rest)) == Some((ms, rest))
    decreases ms, 1
  {
    var close := [RBRACE] + rest;
    assert close[1..] == rest;
    var first := Quote(ms[0].key) + [COLON] + Stringify(ms[0].value);
    if |ms| == 1 {
      StringifyRoundTrip(ms[0].value, close);
      MemberRoundTrip(ms[0], close);
      assert ms == [ms[0]];
    } else {
      var others := StringifyMembers(ms[1..]);
      var tail := [COMMA] + (others + close);
      StringifyRoundTrip(ms[0].value, tail);
      MemberRoundTrip(ms[0], tail);
      MembersRoundTrip(ms[1..], rest);
      Regroup(first + [COMMA], others, close);
      Regroup(first, [COMMA], others + close);
      assert tail[1..] == others + close;
      assert ms == [ms[0]] + ms[1..];
    }
  }

  /** One property: its key, the colon, and the value's text in front of whatever follows. */
  lemma MemberRoundTrip(m: Member, after: Text)
    ensures var t := Quote(m.key) + [COLON] + Stringify(m.value) + after;
      && t != [] && t[0] == QUOTE
      && DecodeString(t[1..]) == Some((m.key, [COLON] + (Stringify(m.value) + after)))
      && ([COLON] + (Stringify(m.value) + after))[1..] == Stringify(m.value) + after
  {
    var value := Stringify(m.value);
    QuoteRoundTrip(m.key, [COLON] + (value + after));
    Regroup(Quote(m.key) + [COLON], value, after);
    Regroup(Quote(m.key), [COLON], value + after);
  }
}
