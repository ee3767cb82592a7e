/**
 * Bounds on parsed JSON: the walk with an explicit stack against the recursive size and depth of
 * a value, and the removal of dangerous keys.
 */
module JsonBounds {
  import opened Options

  datatype Scalar = Null | Bool(b: bool) | Number(n: real) | Text(s: string)

  datatype Field = Field(key: string, value: Json)

  datatype Json = Leaf(scalar: Scalar) | Arr(items: seq<Json>) | Obj(fields: seq<Field>)

  const FORBIDDEN_KEYS := {"__proto__", "constructor", "prototype"}

  // --- size and depth ----------------------------------------------------------------------

  function Max(a: int, b: int): int {
    if a < b then b else a
  }

  function Nodes(v: Json): nat {
    match v
    case Leaf(_) => 1
    case Arr(items) => 1 + ItemNodes(items)
    case Obj(fields) => 1 + FieldNodes(fields)
  }

  function ItemNodes(items: seq<Json>): nat {
    if items == [] then 0 else Nodes(items[0]) + ItemNodes(items[1..])
  }

  function FieldNodes(fields: seq<Field>): nat {
    if fields == [] then 0 else Nodes(fields[0].value) + FieldNodes(fields[1..])
  }

  /** A scalar or an empty container is one level deep. */
  function Depth(v: Json): nat {
    match v
    case Leaf(_) => 1
    case Arr(items) => 1 + ItemDepth(items)
    case Obj(fields) => 1 + FieldDepth(fields)
  }

  function ItemDepth(items: seq<Json>): nat {
    if items == [] then 0 else Max(Depth(items[0]), ItemDepth(items[1..]))
  }

  function FieldDepth(fields: seq<Field>): nat {
    if fields == [] then 0 else Max(Depth(fields[0].value), FieldDepth(fields[1..]))
  }

  predicate WithinLimits(v: Json, maxDepth: int, maxNodes: int) {
    Nodes(v) <= maxNodes && Depth(v) <= maxDepth
  }

  function Values(fields: seq<Field>): seq<Json> {
    if fields == [] then [] else [fields[0].value] + Values(fields[1..])
  }

  function Children(v: Json): seq<Json> {
    match v
    case Leaf(_) => []
    case Arr(items) => items
    case Obj(fields) => Values(fields)
  }

  lemma {:induction false} ValuesMeasure(fields: seq<Field>)
    ensures ItemNodes(Values(fields)) == FieldNodes(fields) && ItemDepth(Values(fields)) == FieldDepth(fields)
  {
    if fields != [] {
      ValuesMeasure(fields[1..]);
      assert Values(fields)[1..] == Values(fields[1..]);
    }
  }

  lemma {:induction false} NodesCoverItems(items: seq<Json>)
    ensures ItemNodes(items) >= |items|
  {
    if items != [] {
      NodesCoverItems(items[1..]);
    }
  }

  lemma ChildrenMeasure(v: Json)
    ensures Nodes(v) == 1 + ItemNodes(Children(v)) && Depth(v) == 1 + ItemDepth(Children(v)) && Depth(v) >= 1
    ensures ItemNodes(Children(v)) >= |Children(v)|
  {
    if v.Obj? {
      ValuesMeasure(v.fields);
    }
    NodesCoverItems(Children(v));
  }

  // --- the walk ---------------------------------------------------------------------------------

  datatype Entry = Entry(value: Json, depth: nat)

  datatype Verdict = Accepted | TooManyNodes | TooDeep

  /** Nodes still to be visited from a stack. */
  function Pending(stack: seq<Entry>): nat {
    if stack == [] then 0 else Pending(stack[..|stack| - 1]) + Nodes(stack[|stack| - 1].value)
  }

  /** The deepest level still to be reached from a stack. */
  function Reach(stack: seq<Entry>): nat {
    if stack == [] then 0
    else
      var top := stack[|stack| - 1];
      Max(Reach(stack[..|stack| - 1]), top.depth - 1 + Depth(top.value))
  }

  lemma Pushed(stack: seq<Entry>, e: Entry)
    ensures Pending(stack + [e]) == Pending(stack) + Nodes(e.value)
    ensures Reach(stack + [e]) == Max(Reach(stack), e.depth - 1 + Depth(e.value))
  {
    assert (stack + [e])[..|stack|] == stack;
  }

  lemma {:induction false} PendingCovers(stack: seq<Entry>)
    ensures Pending(stack) >= |stack|
  {
    if stack != [] {
      PendingCovers(stack[..|stack| - 1]);
    }
  }

  /** Taking the top entry off leaves its children to visit instead of it. */
  lemma Popped(stack: seq<Entry>)
    requires stack != []
    ensures var top, rest := stack[|stack| - 1], stack[..|stack| - 1];
      && Pending(stack) == Pending(rest) + 1 + ItemNodes(Children(top.value))
      && Reach(stack) == Max(Reach(rest), top.depth + ItemDepth(Children(top.value)))
      && Pending(rest) >= |rest| && ItemNodes(Children(top.value)) >= |Children(top.value)|
  {
    ChildrenMeasure(stack[|stack| - 1].value);
    PendingCovers(stack[..|stack| - 1]);
  }

  lemma StartOfWalk(value: Json)
    ensures Pending([Entry(value, 1)]) == Nodes(value) && Reach([Entry(value, 1)]) == Depth(value)
  {
    Pushed([], Entry(value, 1));
    assert [] + [Entry(value, 1)] == [Entry(value, 1)];
  }

  /** Pushes every child one level below `depth`. */
  method PushAll(rest: seq<Entry>, children: seq<Json>, depth: nat) returns (stack: seq<Entry>)
    ensures |stack| == |rest| + |children|
    ensures Pending(stack) == Pending(rest) + ItemNodes(children)
    ensures Max(depth, Reach(stack)) == Max(Reach(rest), depth + ItemDepth(children))
  {
    stack := rest;
    assert children[0..] == children;
    for i := 0 to |children|
      invariant |stack| == |rest| + i
      invariant Pending(stack) + ItemNodes(children[i..]) == Pending(rest) + ItemNodes(children)
      invariant Max(Reach(stack), depth + ItemDepth(children[i..])) == Max(Reach(rest), depth + ItemDepth(children))
    {
      stack := stack + [Entry(children[i], depth + 1)];
    }
    assert children[|children|..] == [];
  }

  /**
   * Accepts exactly the values within both limits, names a limit that is broken when it refuses,
   * and never has more than `maxNodes` entries waiting (`peak`), nor fewer than the first.
   */
  method AssertJsonLimits(value: Json, maxDepth: int, maxNodes: int) returns (verdict: Verdict, peak: nat)
    ensures verdict == Accepted <==> WithinLimits(value, maxDepth, maxNodes)
    ensures verdict == TooManyNodes ==> Nodes(value) > maxNodes
    ensures verdict == TooDeep ==> Depth(value) > maxDepth
    ensures peak <= Max(1, maxNodes)
  {
    var nodes: nat := 0;
    var stack := [Entry(value, 1)];
    peak := 1;
    ghost var seen := 0;
    StartOfWalk(value);
    while stack != []
      invariant nodes + Pending(stack) == Nodes(value)
      invariant Max(seen, Reach(stack)) == Depth(value)
      invariant if nodes == 0 then seen == 0 && stack != [] else nodes <= maxNodes && 0 <= seen <= maxDepth
      invariant |stack| <= peak <= Max(1, maxNodes)
      decreases Pending(stack)
    {
      Popped(stack);
      var entry := stack[|stack| - 1];
      stack := stack[..|stack| - 1];
      nodes := nodes + 1;
      if nodes > maxNodes {
        return TooManyNodes, peak;
      }
      if entry.depth > maxDepth {
        return TooDeep, peak;
      }
      var children := Children(entry.value);
      if nodes + |stack| + |children| > maxNodes {
        return TooManyNodes, peak;
      }
      seen := Max(seen, entry.depth);
      stack := PushAll(stack, children, entry.depth);
      peak := Max(peak, |stack|);
    }
    verdict := Accepted;
  }

  method JsonDepth(value: Json) returns (max: int)
    ensures max == Depth(value)
  {
    max := 0;
    var stack := [Entry(value, 1)];
    StartOfWalk(value);
    while stack != []
      invariant Max(max, Reach(stack)) == Depth(value)
      invariant 0 <= max
      decreases Pending(stack)
    {
      Popped(stack);
      var entry := stack[|stack| - 1];
      stack := stack[..|stack| - 1];
      if entry.depth > max {
        max := entry.depth;
      }
      stack := PushAll(stack, Children(entry.value), entry.depth);
    }
  }

  // --- sanitising ---------------------------------------------------------------------------------

  function CloneSanitized(v: Json): Json {
    match v
    case Leaf(_) => v
    case Arr(items) => Arr(CloneItems(items))
    case Obj(fields) => Obj(CloneFields(fields))
  }

  function CloneItems(items: seq<Json>): seq<Json> {
    if items == [] then [] else [CloneSanitized(items[0])] + CloneItems(items[1..])
  }

  function CloneFields(fields: seq<Field>): seq<Field> {
    if fields == [] then []
    else if fields[0].key in FORBIDDEN_KEYS then CloneFields(fields[1..])
    else [Field(fields[0].key, CloneSanitized(fields[0].value))] + CloneFields(fields[1..])
  }

  /** No forbidden key at any depth. */
  predicate Clean(v: Json) {
    match v
    case Leaf(_) => true
    case Arr(items) => forall item :: item in items ==> Clean(item)
    case Obj(fields) => forall f :: f in fields ==> f.key !in FORBIDDEN_KEYS && Clean(f.value)
  }

  lemma {:induction false} SanitizedIsClean(v: Json)
    ensures Clean(CloneSanitized(v))
  {
    match v
    case Leaf(_) =>
    case Arr(items) => ItemsAreClean(items);
    case Obj(fields) => FieldsAreClean(fields);
  }

  lemma {:induction false} ItemsAreClean(items: seq<Json>)
    ensures forall item :: item in CloneItems(items) ==> Clean(item)
  {
    if items != [] {
      SanitizedIsClean(items[0]);
      ItemsAreClean(items[1..]);
    }
  }

  lemma {:induction false} FieldsAreClean(fields: seq<Field>)
    ensures forall f :: f in CloneFields(fields) ==> f.key !in FORBIDDEN_KEYS && Clean(f.value)
  {
    if fields != [] {
      SanitizedIsClean(fields[0].value);
      FieldsAreClean(fields[1..]);
    }
  }

  lemma {:induction false} CleanIsKept(v: Json)
    requires Clean(v)
    ensures CloneSanitized(v) == v
  {
    match v
    case Leaf(_) =>
    case Arr(items) => ItemsAreKept(items);
    case Obj(fields) => FieldsAreKept(fields);
  }

  lemma {:induction false} ItemsAreKept(items: seq<Json>)
    requires forall item :: item in items ==> Clean(item)
    ensures CloneItems(items) == items
  {
    if items != [] {
      CleanIsKept(items[0]);
      ItemsAreKept(items[1..]);
    }
  }

  lemma {:induction false} FieldsAreKept(fields: seq<Field>)
    requires forall f :: f in fields ==> f.key !in FORBIDDEN_KEYS && Clean(f.value)
    ensures CloneFields(fields) == fields
  {
    if fields != [] {
      CleanIsKept(fields[0].value);
      FieldsAreKept(fields[1..]);
    }
  }

  /** Sanitising changes exactly the values that hold a forbidden key, and only once. */
  lemma SanitizingIsIdempotent(v: Json)
    ensures CloneSanitized(v) == v <==> Clean(v)
    ensures CloneSanitized(CloneSanitized(v)) == CloneSanitized(v)
  {
    SanitizedIsClean(v);
    CleanIsKept(CloneSanitized(v));
    if Clean(v) {
      CleanIsKept(v);
    }
  }

  lemma {:induction false} SanitizingShrinks(v: Json)
    ensures Nodes(CloneSanitized(v)) <= Nodes(v) && Depth(CloneSanitized(v)) <= Depth(v)
  {
    match v
    case Leaf(_) =>
    case Arr(items) => ItemsShrink(items);
    case Obj(fields) => FieldsShrink(fields);
  }

  lemma {:induction false} ItemsShrink(items: seq<Json>)
    ensures ItemNodes(CloneItems(items)) <= ItemNodes(items) && ItemDepth(CloneItems(items)) <= ItemDepth(items)
  {
    if items != [] {
      SanitizingShrinks(items[0]);
      ItemsShrink(items[1..]);
      assert CloneItems(items)[1..] == CloneItems(items[1..]);
    }
  }

  lemma {:induction false} FieldsShrink(fields: seq<Field>)
    ensures FieldNodes(CloneFields(fields)) <= FieldNodes(fields) && FieldDepth(CloneFields(fields)) <= FieldDepth(fields)
  {
    if fields != [] {
      SanitizingShrinks(fields[0].value);
      FieldsShrink(fields[1..]);
      if fields[0].key !in FORBIDDEN_KEYS {
        assert CloneFields(fields)[1..] == CloneFields(fields[1..]);
      }
    }
  }

  function Lookup(fields: seq<Field>, key: string): Option<Json> {
    if fields == [] then None
    else if fields[0].key == key then Some(fields[0].value)
    else Lookup(fields[1..], key)
  }

  /** A field survives exactly when its key is allowed, with its own value sanitised. */
  lemma {:induction false} FieldsSurvive(fields: seq<Field>, key: string)
    ensures Lookup(CloneFields(fields), key)
         == if key == "__proto__" || key == "constructor" || key == "prototype" || Lookup(fields, key).None? then None
            else Some(CloneSanitized(Lookup(fields, key).value))
  {
    if fields != [] {
      FieldsSurvive(fields[1..], key);
      if fields[0].key !in FORBIDDEN_KEYS {
        assert CloneFields(fields)[1..] == CloneFields(fields[1..]);
      }
    }
  }

  method SanitizeParsed(value: Json, maxDepth: int, maxNodes: int) returns (r: Option<Json>)
    ensures r == if WithinLimits(value, maxDepth, maxNodes) then Some(CloneSanitized(value)) else None
    ensures r.Some? ==> Clean(r.value) && WithinLimits(r.value, maxDepth, maxNodes)
  {
    var verdict, _ := AssertJsonLimits(value, maxDepth, maxNodes);
    if verdict != Accepted {
      return None;
    }
    SanitizedIsClean(value);
    SanitizingShrinks(value);
    r := Some(CloneSanitized(value));
  }

  /** What passed once passes again, unchanged. */
  lemma SanitizedPassesAgain(v: Json, maxDepth: int, maxNodes: int)
    requires WithinLimits(v, maxDepth, maxNodes)
    ensures var once := CloneSanitized(v);
      WithinLimits(once, maxDepth, maxNodes) && CloneSanitized(once) == once
  {
    SanitizingShrinks(v);
    SanitizingIsIdempotent(v);
  }
}
