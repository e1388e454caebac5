/** Scope strings: splitting on spaces, filtering by the client's allow-list, and joining again. */
module Scopes {

  /** String.prototype.split(" ") */
  function Split(s: string): (r: seq<string>)
    ensures |r| >= 1
  {
    if s == "" then [""]
    else
      var r := Split(s[1..]);
      if s[0] == ' ' then [""] + r else [[s[0]] + r[0]] + r[1..]
  }

  /** filter(Boolean) on strings */
  function NonEmpty(ws: seq<string>): seq<string> {
    if ws == [] then [] else (if ws[0] != "" then [ws[0]] else []) + NonEmpty(ws[1..])
  }

  function Words(s: string): seq<string> {
    NonEmpty(Split(s))
  }

  /** Array.prototype.join(" ") */
  function Join(ws: seq<string>): string {
    if ws == [] then "" else if |ws| == 1 then ws[0] else ws[0] + " " + Join(ws[1..])
  }

  /** filter((item) => allowed.includes(item)) */
  function Keep(ws: seq<string>, allowed: seq<string>): (r: seq<string>)
    ensures forall w :: w in r <==> w in ws && w in allowed
  {
    if ws == [] then [] else (if ws[0] in allowed then [ws[0]] else []) + Keep(ws[1..], allowed)
  }

  /** The scope of the tokens issued from `scope` to a client. */
  function EffectiveScope(scope: string, allowed: seq<string>): string {
    Join(Keep(Words(scope), allowed))
  }

  predicate IsWord(w: string) {
    w != "" && ' ' !in w
  }

  /** Every word of `narrow` is a word of `wide`. */
  ghost predicate Narrows(narrow: string, wide: string) {
    forall w :: w in Words(narrow) ==> w in Words(wide)
  }

  lemma {:induction false} SplitHasNoSpaces(s: string)
    ensures forall w :: w in Split(s) ==> ' ' !in w
  {
    if s != "" { SplitHasNoSpaces(s[1..]); }
  }

  lemma {:induction false} NonEmptyKeeps(ws: seq<string>)
    ensures forall w :: w in NonEmpty(ws) <==> w in ws && w != ""
  {
    if ws != [] { NonEmptyKeeps(ws[1..]); }
  }

  lemma WordsAreWords(s: string)
    ensures forall w :: w in Words(s) ==> IsWord(w)
  {
    SplitHasNoSpaces(s);
    NonEmptyKeeps(Split(s));
  }

  lemma {:induction false} SplitWord(w: string)
    requires ' ' !in w
    ensures Split(w) == [w]
  {
    if w != "" {
      SplitWord(w[1..]);
      assert w == [w[0]] + w[1..];
    }
  }

  lemma {:induction false} SplitAtSpace(w: string, rest: string)
    requires ' ' !in w
    ensures Split(w + " " + rest) == [w] + Split(rest)
  {
    var s := w + " " + rest;
    if w == "" {
      assert s[1..] == rest;
    } else {
      SplitAtSpace(w[1..], rest);
      assert s[1..] == w[1..] + " " + rest;
      assert w == [w[0]] + w[1..];
    }
  }

  /** Joined words split back into the same words, in the same order. */
  lemma {:induction false} JoinRoundTrip(ws: seq<string>)
    requires forall w :: w in ws ==> IsWord(w)
    ensures Words(Join(ws)) == ws
  {
    if ws != [] {
      assert ws[0] in ws && IsWord(ws[0]);
      var rest := if |ws| == 1 then [] else Split(Join(ws[1..]));
      if |ws| == 1 {
        SplitWord(ws[0]);
      } else {
        JoinRoundTrip(ws[1..]);
        SplitAtSpace(ws[0], Join(ws[1..]));
      }
      assert Split(Join(ws)) == [ws[0]] + rest && ([ws[0]] + rest)[1..] == rest;
      assert NonEmpty(rest) == ws[1..];
    }
  }

  /** The issued scope's words are exactly the requested words that the client may have, in order. */
  lemma EffectiveScopeWords(scope: string, allowed: seq<string>)
    ensures Words(EffectiveScope(scope, allowed)) == Keep(Words(scope), allowed)
    ensures Narrows(EffectiveScope(scope, allowed), scope)
    ensures forall w :: w in Words(EffectiveScope(scope, allowed)) ==> w in allowed
  {
    WordsAreWords(scope);
    JoinRoundTrip(Keep(Words(scope), allowed));
  }

  lemma {:induction false} KeepTwice(ws: seq<string>, allowed: seq<string>)
    ensures Keep(Keep(ws, allowed), allowed) == Keep(ws, allowed)
  {
    if ws != [] {
      KeepTwice(ws[1..], allowed);
      var rest := Keep(ws[1..], allowed);
      assert ([ws[0]] + rest)[1..] == rest && [] + rest == rest;
    }
  }

  /** A refresh under the same allow-list changes nothing more. */
  lemma EffectiveScopeTwice(scope: string, allowed: seq<string>)
    ensures EffectiveScope(EffectiveScope(scope, allowed), allowed) == EffectiveScope(scope, allowed)
  {
    EffectiveScopeWords(scope, allowed);
    KeepTwice(Words(scope), allowed);
  }
}
