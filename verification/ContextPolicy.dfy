/** The external-context policy of a connection: provider allow-list, shape limits and text length. */
module ContextPolicy {
  import opened Wrappers
  import opened Text
  import opened Json

  const MAX_DEPTH := 4
  const MAX_NODES := 64
  const MAX_LENGTH := 4096

  datatype PolicyError = ContextForbidden | ContextRequired | ProviderNotAllowed | TooDeeplyNested | TooLarge

  // ---------- what the shape walk measures ----------

  function Values(ms: seq<Member>): (vs: seq<Json>)
    ensures |vs| == |ms|
    ensures SizeOfItems(vs) == SizeOfMembers(ms)
    ensures forall i :: 0 <= i < |ms| ==> vs[i] == ms[i].value
  {
    if ms == [] then [] else [ms[0].value] + Values(ms[1..])
  }

  function Children(v: Json): (vs: seq<Json>)
    ensures SizeOfItems(vs) < SizeOf(v)
  {
    match v
    case Arr(items) => items
    case Obj(ms) => Values(ms)
    case _ => []
  }

  /** Nodes of the value seen as a tree: itself and everything below it. */
  function NodeCount(v: Json): nat
    decreases SizeOf(v), 0
  {
    1 + NodesOf(Children(v))
  }

  function NodesOf(vs: seq<Json>): nat
    decreases SizeOfItems(vs), 1
  {
    if vs == [] then 0 else NodeCount(vs[0]) + NodesOf(vs[1..])
  }

  /** Edges on the longest downward path. */
  function Height(v: Json): nat
    decreases SizeOf(v), 0
  {
    HeightOf(Children(v))
  }

  function HeightOf(vs: seq<Json>): nat
    decreases SizeOfItems(vs), 1
  {
    if vs == [] then 0 else Max(1 + Height(vs[0]), HeightOf(vs[1..]))
  }

  lemma WalkStep(vs: seq<Json>, i: nat)
    requires i < |vs|
    ensures NodesOf(vs[i..]) == NodeCount(vs[i]) + NodesOf(vs[i + 1..])
    ensures HeightOf(vs[i..]) == Max(1 + Height(vs[i]), HeightOf(vs[i + 1..]))
    ensures SizeOfItems(vs[i..]) == SizeOf(vs[i]) + SizeOfItems(vs[i + 1..])
  {
  }

  /** The walk's accumulators hold the height, counted from `depth`, and the number of nodes. */
  method SummarizeJsonShape(value: Json, depth: nat) returns (maxDepth: nat, nodes: nat)
    ensures maxDepth == depth + Height(value)
    ensures nodes == NodeCount(value)
    decreases SizeOf(value)
  {
    maxDepth, nodes := depth, 1;
    var children := Children(value);
    ghost var total, height, size := NodesOf(children), HeightOf(children), SizeOfItems(children);
    assert NodeCount(value) == 1 + total && Height(value) == height && size < SizeOf(value);
    assert children[0..] == children;
    var i := 0;
    while i < |children|
      invariant 0 <= i <= |children|
      invariant nodes + NodesOf(children[i..]) == 1 + total
      invariant Max(maxDepth, depth + HeightOf(children[i..])) == depth + height
      invariant SizeOfItems(children[i..]) <= size
      invariant depth <= maxDepth
    {
      WalkStep(children, i);
      var childDepth, childNodes := SummarizeJsonShape(children[i], depth + 1);
      maxDepth := Max(maxDepth, childDepth);
      nodes := nodes + childNodes;
      i := i + 1;
    }
    assert children[i..] == [];
  }

  // ---------- the policy ----------

  /** `externalContext.provider` when it is a string, and otherwise the empty string. */
  function Provider(context: Json): Text {
    if context.Obj? then ProviderOf(context.members) else []
  }

  function ProviderOf(ms: seq<Member>): Text {
    if ms == [] then []
    else if ms[0].key == Literal("provider") then (if ms[0].value.Str? then ms[0].value.s else [])
    else ProviderOf(ms[1..])
  }

  predicate ProviderAllowed(allowedProviders: seq<Text>, context: Json) {
    |allowedProviders| > 0 ==> Provider(context) in allowedProviders
  }

  /** A context the policy lets through: its canonical text, and so its digest input, is bounded too. */
  ghost predicate WithinLimits(le: Order, context: Json) {
    1 + Height(context) <= MAX_DEPTH && NodeCount(context) <= MAX_NODES && |Serialize(le, context)| <= MAX_LENGTH
  }

  /**
   The checks in the order they are made. The limit is on JSON.stringify; `le` is the comparator of the
   canonical printer, whose text is thereby bounded as well.
   */
  method AssertExternalContextPolicy(mode: string, allowedProviders: seq<Text>, externalContext: Option<Json>, ghost le: Order)
    returns (r: Option<PolicyError>)
    requires externalContext.Some? ==> WellFormed(externalContext.value)
    ensures r.None? <==>
            match externalContext
            case None => mode != "required"
            case Some(context) => mode != "forbidden" && ProviderAllowed(allowedProviders, context) && WithinLimits(le, context)
    ensures r == Some(ContextForbidden) <==> mode == "forbidden" && externalContext.Some?
    ensures r == Some(ContextRequired) <==> mode == "required" && externalContext.None?
    ensures r == Some(ProviderNotAllowed) <==>
            mode != "forbidden" && externalContext.Some? && !ProviderAllowed(allowedProviders, externalContext.value)
  {
    if mode == "forbidden" && externalContext.Some? { return Some(ContextForbidden); }
    if mode == "required" && externalContext.None? { return Some(ContextRequired); }
    if externalContext.None? { return None; }
    var context := externalContext.value;
    CanonicalLength(le, context);
    if |allowedProviders| > 0 && Provider(context) !in allowedProviders { return Some(ProviderNotAllowed); }
    var depth, nodes := SummarizeJsonShape(context, 1);
    if depth > MAX_DEPTH || nodes > MAX_NODES { return Some(TooDeeplyNested); }
    if |Stringify(context)| > MAX_LENGTH { return Some(TooLarge); }
    return None;
  }

  // ---------- lengths ----------

  /** The units a property contributes to the printed object, its separating comma aside. */
  function PrintedLength(m: Member): nat {
    |Quote(m.key)| + 1 + |Stringify(m.value)|
  }

  function PrintedLengths(ms: seq<Member>): nat {
    if ms == [] then 0 else PrintedLength(ms[0]) + PrintedLengths(ms[1..])
  }

  function Commas(n: nat): nat { if n == 0 then 0 else n - 1 }

  lemma {:induction false} StringifyMembersLength(ms: seq<Member>)
    ensures |StringifyMembers(ms)| == PrintedLengths(ms) + Commas(|ms|)
  {
    if ms != [] { StringifyMembersLength(ms[1..]); }
  }

  lemma {:induction false} SortKeepsLengths(le: Order, ms: seq<Member>)
    ensures PrintedLengths(Sort(le, ms)) == PrintedLengths(ms)
  {
    if ms != [] {
      SortKeepsLengths(le, ms[1..]);
      InsertAddsLength(le, ms[0], Sort(le, ms[1..]));
    }
  }

  lemma {:induction false} InsertAddsLength(le: Order, m: Member, ms: seq<Member>)
    ensures PrintedLengths(Insert(le, m, ms)) == PrintedLength(m) + PrintedLengths(ms)
  {
    if ms != [] && !le(m.key, ms[0].key) { InsertAddsLength(le, m, ms[1..]); }
  }

  /** Sorting the keys never changes how long the text is. */
  lemma {:induction false} CanonicalLength(le: Order, v: Json)
    requires WellFormed(v)
    ensures |Serialize(le, v)| == |Stringify(v)|
    decreases SizeOf(v), 0
  {
    match v
    case Arr(items) => CanonicalLengthOfItems(le, items);
    case Obj(ms) =>
      var sorted := Sort(le, Defined(ms));
      forall m | m in sorted ensures WellFormed(m.value) {
        assert m in multiset(sorted) && m in multiset(Defined(ms));
      }
      CanonicalLengthOfMembers(le, sorted);
      SortKeepsLengths(le, Defined(ms));
      StringifyMembersLength(Defined(ms));
    case _ =>
  }

  lemma {:induction false} CanonicalLengthOfItems(le: Order, items: seq<Json>)
    requires forall i :: 0 <= i < |items| ==> WellFormed(items[i])
    ensures |SerializeItems(le, items)| == |StringifyItems(items)|
    decreases SizeOfItems(items), 1
  {
    if items != [] {
      CanonicalLength(le, items[0]);
      CanonicalLengthOfItems(le, items[1..]);
    }
  }

  lemma {:induction false} CanonicalLengthOfMembers(le: Order, ms: seq<Member>)
    requires forall m :: m in ms ==> WellFormed(m.value)
    ensures |SerializeMembers(le, ms)| == PrintedLengths(ms) + Commas(|ms|)
    decreases SizeOfMembers(ms), 1
  {
    if ms != [] {
      CanonicalLength(le, ms[0].value);
      CanonicalLengthOfMembers(le, ms[1..]);
    }
  }

  /** A value without `undefined` has at least one unit of text per node, so the length limit bounds the nodes too. */
  lemma {:induction false} NodesWithinLength(v: Json)
    requires Printable(v)
    ensures NodeCount(v) <= |Stringify(v)|
    decreases SizeOf(v), 0
  {
    match v
    case Arr(items) => NodesOfItemsWithinLength(items);
    case Obj(ms) =>
      NodesOfMembersWithinLength(ms);
      DefinedKeepsAll(ms);
    case _ =>
  }

  lemma {:induction false} NodesOfItemsWithinLength(items: seq<Json>)
    requires forall i :: 0 <= i < |items| ==> Printable(items[i])
    ensures NodesOf(items) <= |StringifyItems(items)|
    decreases SizeOfItems(items), 1
  {
    if items != [] {
      NodesWithinLength(items[0]);
      NodesOfItemsWithinLength(items[1..]);
    }
  }

  lemma {:induction false} NodesOfMembersWithinLength(ms: seq<Member>)
    requires forall i :: 0 <= i < |ms| ==> Printable(ms[i].value)
    ensures NodesOf(Values(ms)) <= |StringifyMembers(ms)|
    decreases SizeOfMembers(ms), 1
  {
    if ms != [] {
      NodesWithinLength(ms[0].value);
      NodesOfMembersWithinLength(ms[1..]);
      assert Values(ms)[1..] == Values(ms[1..]);
    }
  }

  /** `undefined` properties, in values built in code rather than parsed from a body, are nodes without text: for them the bound above fails. */
  lemma UndefinedNodesHaveNoText()
    ensures exists v :: WellFormed(v) && NodeCount(v) > |Stringify(v)|
  {
    var ms := [Member([1], Undefined), Member([2], Undefined)];
    var v := Obj(ms);
    assert ms[1..] == [ms[1]] && ms[1..][1..] == [];
    assert Defined(ms) == [];
    var vs := Values(ms);
    assert vs[1..] == [Undefined] && vs[1..][1..] == [];
    assert NodesOf(vs[1..]) == 1;
    assert WellFormed(v) && NodeCount(v) == 3 && |Stringify(v)| == 2;
  }
}
