/**
 The canonical printer is canonical: its text determines the value up to property order, and, when the
 comparator separates the keys it is given, values equal up to property order have the same text.
 */
module JsonCanonical {
  import opened Wrappers
  import opened Text
  import opened Json
  import opened JsonDecoder

  /** The value whose plain print is the canonical text: `undefined` dropped, keys sorted, at every depth. */
  function Canon(le: Order, v: Json): Json
    decreases SizeOf(v), 0
  {
    match v
    case Arr(items) => Arr(CanonItems(le, items))
    case Obj(ms) => Obj(CanonMembers(le, Sort(le, Defined(ms))))
    case _ => v
  }

  function CanonItems(le: Order, items: seq<Json>): (r: seq<Json>)
    ensures |r| == |items|
    decreases SizeOfItems(items), 1
  {
    if items == [] then [] else [Canon(le, items[0])] + CanonItems(le, items[1..])
  }

  function CanonMembers(le: Order, ms: seq<Member>): (r: seq<Member>)
    ensures |r| == |ms|
    decreases SizeOfMembers(ms), 1
  {
    if ms == [] then [] else [Member(ms[0].key, Canon(le, ms[0].value))] + CanonMembers(le, ms[1..])
  }

  lemma {:induction false} CanonItemAt(le: Order, items: seq<Json>, i: nat)
    requires i < |items|
    ensures CanonItems(le, items)[i] == Canon(le, items[i])
  {
    if i > 0 { CanonItemAt(le, items[1..], i - 1); }
  }

  lemma {:induction false} CanonMemberAt(le: Order, ms: seq<Member>, i: nat)
    requires i < |ms|
    ensures CanonMembers(le, ms)[i] == Member(ms[i].key, Canon(le, ms[i].value))
  {
    if i > 0 { CanonMemberAt(le, ms[1..], i - 1); }
  }

  // ---------- sorting moves properties and nothing else ----------

  lemma SortedHas(le: Order, ms: seq<Member>, m: Member)
    ensures m in Sort(le, Defined(ms)) <==> m in ms && m.value != Undefined
  {
    assert m in multiset(Sort(le, Defined(ms))) <==> m in multiset(Defined(ms));
  }

  lemma {:induction false} DefinedDistinct(ms: seq<Member>)
    requires DistinctKeys(ms)
    ensures DistinctKeys(Defined(ms))
  {
    if ms != [] {
      DefinedDistinct(ms[1..]);
    }
  }

  ghost predicate SortedByKey(le: Order, ms: seq<Member>) {
    forall i, j :: 0 <= i < j < |ms| ==> le(ms[i].key, ms[j].key)
  }

  lemma {:induction false} InsertSorted(le: Order, m: Member, ms: seq<Member>)
    requires TotalPreorder(le) && SortedByKey(le, ms)
    ensures SortedByKey(le, Insert(le, m, ms))
  {
    if ms != [] {
      if le(m.key, ms[0].key) {
        forall x | x in ms ensures le(m.key, x.key) {
          assert le(ms[0].key, x.key);
        }
        ConsSorted(le, m, ms);
      } else {
        var r := Insert(le, m, ms[1..]);
        InsertSorted(le, m, ms[1..]);
        forall x | x in r ensures le(ms[0].key, x.key) {
          assert x in multiset(r);
          if x != m { assert x in ms[1..]; }
        }
        ConsSorted(le, ms[0], r);
      }
    }
  }

  lemma ConsSorted(le: Order, m: Member, ms: seq<Member>)
    requires SortedByKey(le, ms) && forall x :: x in ms ==> le(m.key, x.key)
    ensures SortedByKey(le, [m] + ms)
  {
  }

  lemma {:induction false} SortSorts(le: Order, ms: seq<Member>)
    requires TotalPreorder(le)
    ensures SortedByKey(le, Sort(le, ms))
  {
    if ms != [] {
      SortSorts(le, ms[1..]);
      InsertSorted(le, ms[0], Sort(le, ms[1..]));
    }
  }

  /** Distinct keys stay distinct: the multiset of properties has no two with one key. */
  lemma {:induction false} InsertDistinct(le: Order, m: Member, ms: seq<Member>)
    requires DistinctKeys(ms) && forall x :: x in ms ==> x.key != m.key
    ensures DistinctKeys(Insert(le, m, ms))
  {
    if ms != [] && !le(m.key, ms[0].key) {
      InsertDistinct(le, m, ms[1..]);
      forall x | x in Insert(le, m, ms[1..]) ensures x.key != ms[0].key {
        assert x in multiset(Insert(le, m, ms[1..]));
        if x != m { assert x in ms[1..]; }
      }
    }
  }

  lemma {:induction false} SortDistinct(le: Order, ms: seq<Member>)
    requires DistinctKeys(ms)
    ensures DistinctKeys(Sort(le, ms))
  {
    if ms != [] {
      SortDistinct(le, ms[1..]);
      forall x | x in Sort(le, ms[1..]) ensures x.key != ms[0].key {
        assert x in multiset(ms[1..]);
      }
      InsertDistinct(le, ms[0], Sort(le, ms[1..]));
    }
  }

  // ---------- the canonical text is the plain print of Canon ----------

  lemma {:induction false} CanonPrintable(le: Order, v: Json)
    requires WellFormed(v)
    ensures Printable(Canon(le, v))
    decreases v
  {
    match v
    case Arr(items) =>
      forall i | 0 <= i < |items| ensures Printable(CanonItems(le, items)[i]) {
        CanonItemAt(le, items, i);
        CanonPrintable(le, items[i]);
      }
    case Obj(ms) =>
      var sorted := Sort(le, Defined(ms));
      forall i | 0 <= i < |sorted| ensures Printable(CanonMembers(le, sorted)[i].value) {
        CanonMemberAt(le, sorted, i);
        SortedHas(le, ms, sorted[i]);
        var j :| 0 <= j < |ms| && ms[j] == sorted[i];
        CanonPrintable(le, ms[j].value);
      }
    case _ =>
  }

  lemma {:induction false} SerializeIsPrintOfCanon(le: Order, v: Json)
    requires WellFormed(v)
    ensures Serialize(le, v) == Stringify(Canon(le, v))
    decreases SizeOf(v), 0
  {
    match v
    case Arr(items) => SerializeItemsIsPrint(le, items);
    case Obj(ms) =>
      var sorted := Sort(le, Defined(ms));
      forall i | 0 <= i < |sorted| ensures WellFormed(sorted[i].value) {
        SortedHas(le, ms, sorted[i]);
      }
      SerializeMembersIsPrint(le, sorted);
      CanonPrintable(le, v);
      DefinedKeepsAll(CanonMembers(le, sorted));
    case _ =>
  }

  lemma {:induction false} SerializeItemsIsPrint(le: Order, items: seq<Json>)
    requires forall i :: 0 <= i < |items| ==> WellFormed(items[i])
    ensures SerializeItems(le, items) == StringifyItems(CanonItems(le, items))
    decreases SizeOfItems(items), 1
  {
    if items != [] {
      SerializeIsPrintOfCanon(le, items[0]);
      SerializeItemsIsPrint(le, items[1..]);
      assert CanonItems(le, items)[1..] == CanonItems(le, items[1..]);
    }
  }

  lemma {:induction false} SerializeMembersIsPrint(le: Order, ms: seq<Member>)
    requires forall i :: 0 <= i < |ms| ==> WellFormed(ms[i].value)
    ensures SerializeMembers(le, ms) == StringifyMembers(CanonMembers(le, ms))
    decreases SizeOfMembers(ms), 1
  {
    if ms != [] {
      SerializeIsPrintOfCanon(le, ms[0].value);
      SerializeMembersIsPrint(le, ms[1..]);
      assert CanonMembers(le, ms)[1..] == CanonMembers(le, ms[1..]);
    }
  }

  /** The canonical text decodes, completely, to the value with its keys sorted. */
  lemma SerializeRoundTrip(le: Order, v: Json)
    requires WellFormed(v)
    ensures Decode(Serialize(le, v)) == Some((Canon(le, v), []))
  {
    SerializeIsPrintOfCanon(le, v);
    CanonPrintable(le, v);
    StringifyRoundTrip(Canon(le, v), []);
    assert Stringify(Canon(le, v)) + [] == Stringify(Canon(le, v));
  }

  // ---------- equal canonical forms are equal values ----------

  lemma {:induction false} CanonDetermines(le: Order, v: Json, w: Json)
    requires Canon(le, v) == Canon(le, w)
    ensures Same(v, w)
    decreases v
  {
    match v
    case Arr(a) =>
      var b := w.items;
      assert CanonItems(le, a) == CanonItems(le, b);
      forall i | 0 <= i < |a| ensures Same(a[i], b[i]) {
        CanonItemAt(le, a, i);
        CanonItemAt(le, b, i);
        CanonDetermines(le, a[i], b[i]);
      }
    case Obj(a) =>
      var b := w.members;
      forall m | m in a && m.value != Undefined ensures exists n :: n in b && Matches(m, n) {
        var n := Counterpart(le, a, b, m);
        CanonDetermines(le, m.value, n.value);
        assert Matches(m, n);
      }
      forall n | n in b && n.value != Undefined ensures exists m :: m in a && Matches(m, n) {
        var m := Counterpart(le, b, a, n);
        CanonDetermines(le, m.value, n.value);
        assert Matches(m, n);
      }
    case _ =>
  }

  lemma Counterpart(le: Order, a: seq<Member>, b: seq<Member>, m: Member) returns (n: Member)
    requires m in a && m.value != Undefined
    requires CanonMembers(le, Sort(le, Defined(a))) == CanonMembers(le, Sort(le, Defined(b)))
    ensures n in b && n.key == m.key && n.value != Undefined
    ensures Canon(le, m.value) == Canon(le, n.value)
  {
    var sa, sb := Sort(le, Defined(a)), Sort(le, Defined(b));
    SortedHas(le, a, m);
    var k :| 0 <= k < |sa| && sa[k] == m;
    CanonMemberAt(le, sa, k);
    CanonMemberAt(le, sb, k);
    SortedHas(le, b, sb[k]);
    n := sb[k];
  }

  // ---------- equal values have equal canonical forms ----------

  lemma {:induction false} SortedUnique(le: Order, xs: seq<Member>, ys: seq<Member>)
    requires SortedByKey(le, xs) && SortedByKey(le, ys)
    requires DistinctKeys(xs) && DistinctKeys(ys)
    requires forall m, n :: m in xs && n in xs && le(m.key, n.key) && le(n.key, m.key) ==> m.key == n.key
    requires forall m :: m in xs <==> m in ys
    ensures xs == ys
  {
    FirstIsIn(xs);
    FirstIsIn(ys);
    if xs != [] && ys != [] {
      SameFirst(le, xs, ys);
      forall m ensures m in xs[1..] <==> m in ys[1..] {
        assert m in xs[1..] <==> m in xs && m != xs[0];
        assert m in ys[1..] <==> m in ys && m != ys[0];
      }
      SortedUnique(le, xs[1..], ys[1..]);
    }
  }

  lemma FirstIsIn(ms: seq<Member>)
    ensures ms != [] ==> ms[0] in ms
  {
  }

  /** Each first property comes before the other, so they tie, so they are one. */
  lemma SameFirst(le: Order, xs: seq<Member>, ys: seq<Member>)
    requires xs != [] && ys != [] && xs[0] in ys && ys[0] in xs
    requires SortedByKey(le, xs) && SortedByKey(le, ys) && DistinctKeys(xs)
    requires le(xs[0].key, ys[0].key) && le(ys[0].key, xs[0].key) ==> xs[0].key == ys[0].key
    ensures xs[0] == ys[0]
  {
  }

  lemma {:induction false} KeysOfItemAt(items: seq<Json>, i: nat)
    requires i < |items|
    ensures Keys(items[i]) <= KeysOfItems(items)
  {
    if i > 0 { KeysOfItemAt(items[1..], i - 1); }
  }

  lemma {:induction false} KeysOfMemberIn(ms: seq<Member>, m: Member)
    requires m in ms
    ensures m.key in KeysOfMembers(ms) && Keys(m.value) <= KeysOfMembers(ms)
  {
    if m != ms[0] { KeysOfMemberIn(ms[1..], m); }
  }

  lemma {:induction false} SameCanon(le: Order, v: Json, w: Json)
    requires TotalPreorder(le) && StrictOn(le, Keys(v))
    requires WellFormed(v) && WellFormed(w) && Same(v, w)
    ensures Canon(le, v) == Canon(le, w)
    decreases v
  {
    match v
    case Arr(a) =>
      var b := w.items;
      forall i | 0 <= i < |a| ensures CanonItems(le, a)[i] == CanonItems(le, b)[i] {
        KeysOfItemAt(a, i);
        SameCanon(le, a[i], b[i]);
        CanonItemAt(le, a, i);
        CanonItemAt(le, b, i);
      }
    case Obj(a) =>
      var b := w.members;
      forall m, n | m in a && n in b && Matches(m, n) ensures Canon(le, m.value) == Canon(le, n.value) {
        KeysOfMemberIn(a, m);
        SameCanon(le, m.value, n.value);
      }
      SameMembersCanon(le, a, b);
    case _ =>
  }

  lemma SameMembersCanon(le: Order, a: seq<Member>, b: seq<Member>)
    requires TotalPreorder(le) && StrictOn(le, KeysOfMembers(a)) && DistinctKeys(a) && DistinctKeys(b)
    requires Same(Obj(a), Obj(b))
    requires forall m, n :: m in a && n in b && Matches(m, n) ==> Canon(le, m.value) == Canon(le, n.value)
    ensures CanonMembers(le, Sort(le, Defined(a))) == CanonMembers(le, Sort(le, Defined(b)))
  {
    var ca, cb := CanonMembers(le, Sort(le, Defined(a))), CanonMembers(le, Sort(le, Defined(b)));
    forall c | c in ca ensures c in cb && c.key in KeysOfMembers(a) {
      var m := Origin(le, a, c);
      var n :| n in b && Matches(m, n);
      Image(le, b, n);
      KeysOfMemberIn(a, m);
    }
    forall c | c in cb ensures c in ca {
      var n := Origin(le, b, c);
      var m :| m in a && Matches(m, n);
      Image(le, a, m);
    }
    CanonMembersAreSorted(le, a);
    CanonMembersAreSorted(le, b);
    SortedUnique(le, ca, cb);
  }

  lemma CanonMembersAreSorted(le: Order, ms: seq<Member>)
    requires TotalPreorder(le) && DistinctKeys(ms)
    ensures var c := CanonMembers(le, Sort(le, Defined(ms))); SortedByKey(le, c) && DistinctKeys(c)
  {
    var sorted := Sort(le, Defined(ms));
    DefinedDistinct(ms);
    SortDistinct(le, Defined(ms));
    SortSorts(le, Defined(ms));
    forall i | 0 <= i < |sorted| ensures CanonMembers(le, sorted)[i].key == sorted[i].key {
      CanonMemberAt(le, sorted, i);
    }
  }

  lemma Origin(le: Order, ms: seq<Member>, c: Member) returns (m: Member)
    requires c in CanonMembers(le, Sort(le, Defined(ms)))
    ensures m in ms && m.value != Undefined && c == Member(m.key, Canon(le, m.value))
  {
    var sorted := Sort(le, Defined(ms));
    var k :| 0 <= k < |sorted| && CanonMembers(le, sorted)[k] == c;
    CanonMemberAt(le, sorted, k);
    SortedHas(le, ms, sorted[k]);
    m := sorted[k];
  }

  lemma Image(le: Order, ms: seq<Member>, m: Member)
    requires m in ms && m.value != Undefined
    ensures Member(m.key, Canon(le, m.value)) in CanonMembers(le, Sort(le, Defined(ms)))
  {
    var sorted := Sort(le, Defined(ms));
    SortedHas(le, ms, m);
    var k :| 0 <= k < |sorted| && sorted[k] == m;
    CanonMemberAt(le, sorted, k);
  }

  // ---------- main results ----------

  /** Injective up to property order, whatever the comparator: no two different values share a text. */
  lemma SerializeDetermines(le: Order, v: Json, w: Json)
    requires WellFormed(v) && WellFormed(w)
    requires Serialize(le, v) == Serialize(le, w)
    ensures Same(v, w)
  {
    SerializeRoundTrip(le, v);
    SerializeRoundTrip(le, w);
    CanonDetermines(le, v, w);
  }

  /** Two values have one canonical text exactly when they are equal up to property order. */
  lemma SerializeIsCanonical(le: Order, v: Json, w: Json)
    requires TotalPreorder(le) && StrictOn(le, Keys(v))
    requires WellFormed(v) && WellFormed(w)
    ensures Serialize(le, v) == Serialize(le, w) <==> Same(v, w)
  {
    if Same(v, w) {
      SameCanon(le, v, w);
      SerializeIsPrintOfCanon(le, v);
      SerializeIsPrintOfCanon(le, w);
    } else if Serialize(le, v) == Serialize(le, w) {
      SerializeDetermines(le, v, w);
    }
  }

  ghost predicate PrintAlike(le: Order, v: Json, w: Json) {
    Serialize(le, v) == Serialize(le, w)
  }

  /** Equal up to property order, with every property name in `keys`. */
  ghost predicate SameOver(v: Json, w: Json, keys: set<Text>) {
    WellFormed(v) && WellFormed(w) && Keys(v) <= keys && Keys(w) <= keys && Same(v, w)
  }

  ghost predicate CanonicalOver(le: Order, keys: set<Text>) {
    forall v, w :: SameOver(v, w, keys) ==> PrintAlike(le, v, w)
  }

  /**
   What the comparator must do for the printer to be canonical: separate the keys in use. A comparator
   with a tie between two different names, as a collation may have, lets property order through.
   */
  lemma CanonicalIffStrict(le: Order, keys: set<Text>)
    requires TotalPreorder(le)
    ensures CanonicalOver(le, keys) <==> StrictOn(le, keys)
  {
    if StrictOn(le, keys) {
      forall v, w | SameOver(v, w, keys) ensures PrintAlike(le, v, w) {
        SamePrintAlike(le, v, w, keys);
      }
    } else {
      var a, b :| a in keys && b in keys && le(a, b) && le(b, a) && a != b;
      TieIsNotCanonical(le, a, b, keys);
    }
  }

  lemma SamePrintAlike(le: Order, v: Json, w: Json, keys: set<Text>)
    requires TotalPreorder(le) && StrictOn(le, keys) && SameOver(v, w, keys)
    ensures PrintAlike(le, v, w)
  {
    SerializeIsCanonical(le, v, w);
  }

  lemma TieIsNotCanonical(le: Order, a: Text, b: Text, keys: set<Text>)
    requires a in keys && b in keys && le(a, b) && le(b, a) && a != b
    ensures !CanonicalOver(le, keys)
  {
    var v, w := TieWitness(le, a, b);
    ShowsOrder(le, v, w, keys);
  }

  lemma TieWitness(le: Order, a: Text, b: Text) returns (v: Json, w: Json)
    requires le(a, b) && le(b, a) && a != b
    ensures WellFormed(v) && WellFormed(w) && Keys(v) == Keys(w) == {a, b} && Same(v, w) && !PrintAlike(le, v, w)
  {
    v, w := Pair(a, b), Pair(b, a);
    TieShowsOrder(le, a, b);
    KeysOfPair(a, b);
    KeysOfPair(b, a);
  }

  lemma ShowsOrder(le: Order, v: Json, w: Json, keys: set<Text>)
    requires WellFormed(v) && WellFormed(w) && Keys(v) <= keys && Keys(w) <= keys && Same(v, w)
    requires !PrintAlike(le, v, w)
    ensures !CanonicalOver(le, keys)
  {
  }

  /** An object with two null properties. */
  function Pair(a: Text, b: Text): Json {
    Obj([Member(a, Null), Member(b, Null)])
  }

  /** A concrete pair of equal values that a tie prints differently. */
  lemma TieShowsOrder(le: Order, a: Text, b: Text)
    requires a != b && le(a, b) && le(b, a)
    ensures WellFormed(Pair(a, b)) && WellFormed(Pair(b, a))
    ensures Same(Pair(a, b), Pair(b, a))
    ensures !PrintAlike(le, Pair(a, b), Pair(b, a))
  {
    PairSame(a, b);
    PairWellFormed(a, b);
    PairWellFormed(b, a);
    PairCanon(le, a, b);
    PairCanon(le, b, a);
    OtherCanonOtherText(le, Pair(a, b), Pair(b, a));
  }

  lemma OtherCanonOtherText(le: Order, v: Json, w: Json)
    requires WellFormed(v) && WellFormed(w) && Canon(le, v) != Canon(le, w)
    ensures !PrintAlike(le, v, w)
  {
    SerializeRoundTrip(le, v);
    SerializeRoundTrip(le, w);
  }

  lemma PairWellFormed(a: Text, b: Text)
    requires a != b
    ensures WellFormed(Pair(a, b))
  {
  }

  lemma KeysOfPair(a: Text, b: Text)
    ensures Keys(Pair(a, b)) == {a, b}
  {
    var m, n := Member(a, Null), Member(b, Null);
    assert [m, n][1..] == [n] && [n][1..] == [];
    assert KeysOfMembers([n]) == {b};
  }

  lemma PairSame(a: Text, b: Text)
    ensures Same(Pair(a, b), Pair(b, a))
  {
    assert Matches(Member(a, Null), Member(a, Null)) && Matches(Member(b, Null), Member(b, Null));
    var x, y := Pair(a, b).members, Pair(b, a).members;
    assert x[0] in y && x[1] in y && y[0] in x && y[1] in x;
  }

  /** A stable sort leaves tied properties where they were. */
  lemma PairCanon(le: Order, a: Text, b: Text)
    requires le(a, b)
    ensures Canon(le, Pair(a, b)).Obj? && |Canon(le, Pair(a, b)).members| == 2
    ensures Canon(le, Pair(a, b)).members[0].key == a
  {
  }
}
