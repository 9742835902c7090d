/**
 Values that may refer to each other in any way, and the two checks that walk them along a path of ancestors:
 `isProtocolValue` (packages/protocol/src/codec.ts) and `toProtocolJsonValue` (packages/server/src/protocol.ts).

 A heap maps references to arrays, which may have holes, and to objects, which have a prototype and own properties.
 A value denotes a finite tree if following its references comes to an end; `Unfolds` says which tree.
 */
module ObjectGraphs {
  import opened Options

  type Ref = nat

  datatype Value =
    | Undefined
    | Null
    | Boolean(b: bool)
    | Number(finite: bool, n: real)
    | Text(s: string)
    | Reference(r: Ref)
    | Unsupported

  datatype Prototype = ObjectPrototype | NullPrototype | OtherPrototype

  datatype Node =
    | Array(items: seq<Option<Value>>)
    | Object(prototype: Prototype, entries: seq<(string, Value)>)

  type Heap = map<Ref, Node>

  /** No reference dangles. */
  predicate Closed(h: Heap) {
    forall r | r in h ::
      match h[r]
      case Array(items) => forall i | 0 <= i < |items| && items[i].Some? :: InHeap(h, items[i].value)
      case Object(_, entries) => forall i | 0 <= i < |entries| :: InHeap(h, entries[i].1)
  }

  predicate InHeap(h: Heap, v: Value) {
    v.Reference? ==> v.r in h
  }

  datatype Tree =
    | Hole
    | Leaf(value: Value)
    | Items(items: seq<Tree>)
    | Properties(prototype: Prototype, properties: seq<Property>)

  datatype Property = Property(key: string, tree: Tree)

  /** `t` is what `v` looks like when all references are followed. */
  predicate Unfolds(h: Heap, v: Value, t: Tree)
    decreases t
  {
    if !v.Reference? then t == Leaf(v)
    else if v.r !in h then false
    else
      match h[v.r]
      case Array(items) =>
        t.Items? && |t.items| == |items|
        && forall i | 0 <= i < |items| ::
             if items[i].None? then t.items[i] == Hole else Unfolds(h, items[i].value, t.items[i])
      case Object(prototype, entries) =>
        t.Properties? && t.prototype == prototype && |t.properties| == |entries|
        && forall i | 0 <= i < |entries| :: t.properties[i].key == entries[i].0 && Unfolds(h, entries[i].1, t.properties[i].tree)
  }

  // ----- what each check allows, said of trees -----

  /** Arrays of values, plain objects whose properties may be undefined, and primitives; holes are not looked at. */
  predicate IsProtocolTree(t: Tree, optional: bool) {
    match t
    case Hole => true
    case Leaf(v) => (v.Undefined? && optional) || v.Null? || v.Boolean? || v.Number? || v.Text?
    case Items(items) => forall i | 0 <= i < |items| :: IsProtocolTree(items[i], false)
    case Properties(prototype, properties) =>
      prototype.ObjectPrototype? && forall i | 0 <= i < |properties| :: IsProtocolTree(properties[i].tree, true)
  }

  /** JSON: finite numbers, no holes, nothing undefined, objects that are plain or have no prototype. */
  predicate IsJsonTree(t: Tree) {
    match t
    case Hole => false
    case Leaf(v) => v.Null? || v.Boolean? || (v.Number? && v.finite) || v.Text?
    case Items(items) => forall i | 0 <= i < |items| :: IsJsonTree(items[i])
    case Properties(prototype, properties) =>
      !prototype.OtherPrototype? && forall i | 0 <= i < |properties| :: IsJsonTree(properties[i].tree)
  }

  // ----- the two checks -----

  /** `isProtocolValue`: fails on an ancestor of its own, so it ends on every graph. */
  predicate IsProtocolValue(h: Heap, v: Value, optional: bool, ancestors: set<Ref>)
    requires Closed(h) && InHeap(h, v)
    decreases h.Keys - ancestors, 0
  {
    match v
    case Undefined => optional
    case Unsupported => false
    case Reference(r) =>
      r !in ancestors
      && (match h[r]
          case Array(items) => AllItems(h, items, r, ancestors)
          case Object(prototype, entries) => prototype.ObjectPrototype? && AllEntries(h, entries, r, ancestors))
    case _ => true
  }

  predicate AllItems(h: Heap, items: seq<Option<Value>>, r: Ref, ancestors: set<Ref>)
    requires Closed(h) && r in h && r !in ancestors
    requires forall i | 0 <= i < |items| && items[i].Some? :: InHeap(h, items[i].value)
    decreases h.Keys - ancestors - {r}, 1
  {
    forall i | 0 <= i < |items| && items[i].Some? :: IsProtocolValue(h, items[i].value, false, ancestors + {r})
  }

  predicate AllEntries(h: Heap, entries: seq<(string, Value)>, r: Ref, ancestors: set<Ref>)
    requires Closed(h) && r in h && r !in ancestors
    requires forall i | 0 <= i < |entries| :: InHeap(h, entries[i].1)
    decreases h.Keys - ancestors - {r}, 1
  {
    forall i | 0 <= i < |entries| :: IsProtocolValue(h, entries[i].1, true, ancestors + {r})
  }

  /** What `toProtocolJsonValue` returns. */
  datatype Json = JsonLeaf(value: Value) | JsonArray(items: seq<Json>) | JsonObject(entries: seq<(string, Json)>)

  const PROTO := "__proto__"

  /** `result[key] = value`, which makes no own property of the key `__proto__`. */
  function Assign(result: seq<(string, Json)>, key: string, value: Json): seq<(string, Json)> {
    if key == PROTO then result else result + [(key, value)]
  }

  function ToJson(h: Heap, v: Value, seen: set<Ref>): Option<Json>
    requires Closed(h) && InHeap(h, v)
    decreases h.Keys - seen, 0, 0
  {
    match v
    case Undefined => None
    case Unsupported => None
    case Number(finite, _) => if finite then Some(JsonLeaf(v)) else None
    case Reference(r) =>
      if r in seen then None
      else
        (match h[r]
         case Array(items) =>
           var converted := ItemsToJson(h, items, r, seen);
           if converted.None? then None else Some(JsonArray(converted.value))
         case Object(prototype, entries) =>
           if prototype.OtherPrototype? then None
           else
             var converted := EntriesToJson(h, entries, r, seen);
             if converted.None? then None else Some(JsonObject(converted.value)))
    case _ => Some(JsonLeaf(v))
  }

  /** A hole reads as undefined here. */
  function ItemToJson(h: Heap, item: Option<Value>, r: Ref, seen: set<Ref>): Option<Json>
    requires Closed(h) && r in h && r !in seen && (item.Some? ==> InHeap(h, item.value))
    decreases h.Keys - seen - {r}, 1, 0
  {
    if item.None? then None else ToJson(h, item.value, seen + {r})
  }

  function ItemsToJson(h: Heap, items: seq<Option<Value>>, r: Ref, seen: set<Ref>): Option<seq<Json>>
    requires Closed(h) && r in h && r !in seen
    requires forall i | 0 <= i < |items| && items[i].Some? :: InHeap(h, items[i].value)
    decreases h.Keys - seen - {r}, 2, |items|
  {
    if items == [] then Some([])
    else
      var before := ItemsToJson(h, items[..|items| - 1], r, seen);
      var last := ItemToJson(h, items[|items| - 1], r, seen);
      if before.None? || last.None? then None else Some(before.value + [last.value])
  }

  function EntriesToJson(h: Heap, entries: seq<(string, Value)>, r: Ref, seen: set<Ref>): Option<seq<(string, Json)>>
    requires Closed(h) && r in h && r !in seen
    requires forall i | 0 <= i < |entries| :: InHeap(h, entries[i].1)
    decreases h.Keys - seen - {r}, 2, |entries|
  {
    if entries == [] then Some([])
    else
      var before := EntriesToJson(h, entries[..|entries| - 1], r, seen);
      var last := ToJson(h, entries[|entries| - 1].1, seen + {r});
      if before.None? || last.None? then None
      else Some(Assign(before.value, entries[|entries| - 1].0, last.value))
  }

  // ----- the tree of a graph -----

  /** A value denotes at most one tree. */
  lemma {:induction false} OneTree(h: Heap, v: Value, t: Tree, u: Tree)
    requires Unfolds(h, v, t) && Unfolds(h, v, u)
    ensures t == u
    decreases t
  {
    if v.Reference? {
      match h[v.r]
      case Array(items) =>
        forall i | 0 <= i < |items|
          ensures t.items[i] == u.items[i]
        {
          if items[i].Some? {
            OneTree(h, items[i].value, t.items[i], u.items[i]);
          }
        }
        assert t.items == u.items;
      case Object(_, entries) =>
        forall i | 0 <= i < |entries|
          ensures t.properties[i] == u.properties[i]
        {
          OneTree(h, entries[i].1, t.properties[i].tree, u.properties[i].tree);
        }
        assert t.properties == u.properties;
    }
  }

  /** Every ancestor unfolds to a tree that properly contains `t`. */
  ghost predicate Above(h: Heap, ancestors: set<Ref>, t: Tree) {
    forall r | r in ancestors :: exists u :: Unfolds(h, Reference(r), u) && t < u
  }

  /** So a value that unfolds to `t` is not one of them: a finite tree holds no cycle. */
  lemma NotAnAncestor(h: Heap, r: Ref, t: Tree, ancestors: set<Ref>)
    requires Unfolds(h, Reference(r), t) && Above(h, ancestors, t)
    ensures r !in ancestors
  {
    if r in ancestors {
      var u :| Unfolds(h, Reference(r), u) && t < u;
      OneTree(h, Reference(r), t, u);
    }
  }

  lemma AboveChild(h: Heap, r: Ref, t: Tree, child: Tree, ancestors: set<Ref>)
    requires Unfolds(h, Reference(r), t) && Above(h, ancestors, t) && child < t
    ensures Above(h, ancestors + {r}, child)
  {
    hide Unfolds;
    forall q | q in ancestors + {r}
      ensures exists u :: Unfolds(h, Reference(q), u) && child < u
    {
      if q in ancestors {
        var u :| Unfolds(h, Reference(q), u) && t < u;
        assert Unfolds(h, Reference(q), u) && child < u;
      } else {
        assert Unfolds(h, Reference(q), t) && child < t;
      }
    }
  }

  /** The tree met when following references, with the path cut where it comes back to itself. */
  ghost function TreeOf(h: Heap, v: Value, path: set<Ref>): Tree
    requires Closed(h) && InHeap(h, v)
    decreases h.Keys - path, 0
  {
    if !v.Reference? then Leaf(v)
    else if v.r in path then Hole
    else
      match h[v.r]
      case Array(items) => Items(ItemTrees(h, items, v.r, path))
      case Object(prototype, entries) => Properties(prototype, EntryTrees(h, entries, v.r, path))
  }

  ghost function ItemTrees(h: Heap, items: seq<Option<Value>>, r: Ref, path: set<Ref>): seq<Tree>
    requires Closed(h) && r in h && r !in path
    requires forall i | 0 <= i < |items| && items[i].Some? :: InHeap(h, items[i].value)
    decreases h.Keys - path - {r}, 1
  {
    seq(|items|, i requires 0 <= i < |items| => if items[i].None? then Hole else TreeOf(h, items[i].value, path + {r}))
  }

  ghost function EntryTrees(h: Heap, entries: seq<(string, Value)>, r: Ref, path: set<Ref>): seq<Property>
    requires Closed(h) && r in h && r !in path
    requires forall i | 0 <= i < |entries| :: InHeap(h, entries[i].1)
    decreases h.Keys - path - {r}, 1
  {
    seq(|entries|, i requires 0 <= i < |entries| => Property(entries[i].0, TreeOf(h, entries[i].1, path + {r})))
  }

  // ----- isProtocolValue accepts exactly the trees of its kind -----

  lemma {:induction false} AcceptedUnfolds(h: Heap, v: Value, optional: bool, ancestors: set<Ref>)
    requires Closed(h) && InHeap(h, v) && IsProtocolValue(h, v, optional, ancestors)
    ensures Unfolds(h, v, TreeOf(h, v, ancestors)) && IsProtocolTree(TreeOf(h, v, ancestors), optional)
    decreases h.Keys - ancestors
  {
    if v.Reference? {
      match h[v.r]
      case Array(items) =>
        forall i | 0 <= i < |items| && items[i].Some?
          ensures Unfolds(h, items[i].value, TreeOf(h, items[i].value, ancestors + {v.r}))
          ensures IsProtocolTree(TreeOf(h, items[i].value, ancestors + {v.r}), false)
        {
          AcceptedUnfolds(h, items[i].value, false, ancestors + {v.r});
        }
      case Object(_, entries) =>
        forall i | 0 <= i < |entries|
          ensures Unfolds(h, entries[i].1, TreeOf(h, entries[i].1, ancestors + {v.r}))
          ensures IsProtocolTree(TreeOf(h, entries[i].1, ancestors + {v.r}), true)
        {
          AcceptedUnfolds(h, entries[i].1, true, ancestors + {v.r});
        }
    }
  }

  lemma {:induction false} TreeIsAccepted(h: Heap, v: Value, t: Tree, optional: bool, ancestors: set<Ref>)
    requires Closed(h) && InHeap(h, v)
    requires Unfolds(h, v, t) && IsProtocolTree(t, optional) && Above(h, ancestors, t)
    ensures IsProtocolValue(h, v, optional, ancestors)
    decreases t
  {
    if v.Reference? {
      NotAnAncestor(h, v.r, t, ancestors);
      match h[v.r]
      case Array(items) =>
        forall i | 0 <= i < |items| && items[i].Some?
          ensures IsProtocolValue(h, items[i].value, false, ancestors + {v.r})
        {
          AboveChild(h, v.r, t, t.items[i], ancestors);
          TreeIsAccepted(h, items[i].value, t.items[i], false, ancestors + {v.r});
        }
      case Object(_, entries) =>
        forall i | 0 <= i < |entries|
          ensures IsProtocolValue(h, entries[i].1, true, ancestors + {v.r})
        {
          AboveChild(h, v.r, t, t.properties[i].tree, ancestors);
          TreeIsAccepted(h, entries[i].1, t.properties[i].tree, true, ancestors + {v.r});
        }
    }
  }

  /** Sharing is fine, cycles are not: a value is accepted exactly if it unfolds to a finite tree of protocol values. */
  lemma ProtocolValuesAreTrees(h: Heap, v: Value, optional: bool)
    requires Closed(h) && InHeap(h, v)
    ensures IsProtocolValue(h, v, optional, {}) <==> exists t :: Unfolds(h, v, t) && IsProtocolTree(t, optional)
  {
    if IsProtocolValue(h, v, optional, {}) {
      AcceptedUnfolds(h, v, optional, {});
      var t := TreeOf(h, v, {});
      assert Unfolds(h, v, t) && IsProtocolTree(t, optional);
    }
    if t :| Unfolds(h, v, t) && IsProtocolTree(t, optional) {
      TreeIsAccepted(h, v, t, optional, {});
    }
  }

  // ----- toProtocolJsonValue returns the tree -----

  /** The tree as JSON, without properties of the key `__proto__`. */
  function Copy(t: Tree): Json
    requires IsJsonTree(t)
  {
    match t
    case Leaf(v) => JsonLeaf(v)
    case Items(items) => JsonArray(seq(|items|, i requires 0 <= i < |items| => Copy(items[i])))
    case Properties(_, properties) => JsonObject(CopyProperties(properties))
  }

  function CopyProperties(properties: seq<Property>): seq<(string, Json)>
    requires forall i | 0 <= i < |properties| :: IsJsonTree(properties[i].tree)
  {
    if properties == [] then []
    else
      Assign(CopyProperties(properties[..|properties| - 1]), properties[|properties| - 1].key,
             Copy(properties[|properties| - 1].tree))
  }

  /** The tree as JSON with all its properties. */
  function Whole(t: Tree): Json
    requires IsJsonTree(t)
  {
    match t
    case Leaf(v) => JsonLeaf(v)
    case Items(items) => JsonArray(seq(|items|, i requires 0 <= i < |items| => Whole(items[i])))
    case Properties(_, properties) =>
      JsonObject(seq(|properties|, i requires 0 <= i < |properties| => (properties[i].key, Whole(properties[i].tree))))
  }

  /** No object anywhere in the tree has a property of its own named `__proto__`. */
  predicate NoProtoKey(t: Tree) {
    match t
    case Hole => true
    case Leaf(_) => true
    case Items(items) => forall i | 0 <= i < |items| :: NoProtoKey(items[i])
    case Properties(_, properties) =>
      forall i | 0 <= i < |properties| :: properties[i].key != PROTO && NoProtoKey(properties[i].tree)
  }

  lemma {:induction false} ConvertedUnfolds(h: Heap, v: Value, seen: set<Ref>)
    requires Closed(h) && InHeap(h, v) && ToJson(h, v, seen).Some?
    ensures var t := TreeOf(h, v, seen);
            Unfolds(h, v, t) && IsJsonTree(t) && ToJson(h, v, seen) == Some(Copy(t))
    decreases h.Keys - seen, 0, 0
  {
    if v.Reference? {
      match h[v.r]
      case Array(items) =>
        ItemsConverted(h, items, v.r, seen);
        var trees := ItemTrees(h, items, v.r, seen);
        assert ItemsToJson(h, items, v.r, seen).value == seq(|trees|, i requires 0 <= i < |trees| => Copy(trees[i]));
      case Object(_, entries) => EntriesConverted(h, entries, v.r, seen);
    }
  }

  lemma {:induction false} ItemsConverted(h: Heap, items: seq<Option<Value>>, r: Ref, seen: set<Ref>)
    requires Closed(h) && r in h && r !in seen
    requires forall i | 0 <= i < |items| && items[i].Some? :: InHeap(h, items[i].value)
    requires ItemsToJson(h, items, r, seen).Some?
    ensures var trees := ItemTrees(h, items, r, seen); var converted := ItemsToJson(h, items, r, seen).value;
            |converted| == |items|
            && forall i | 0 <= i < |items| ::
                 items[i].Some? && Unfolds(h, items[i].value, trees[i]) && IsJsonTree(trees[i])
                 && converted[i] == Copy(trees[i])
    decreases h.Keys - seen - {r}, 2, |items|
  {
    hide ToJson, Copy, Unfolds, IsJsonTree, TreeOf;
    if items != [] {
      var before, last := items[..|items| - 1], items[|items| - 1];
      ItemsConverted(h, before, r, seen);
      ConvertedUnfolds(h, last.value, seen + {r});
    }
  }

  lemma {:induction false} EntriesConverted(h: Heap, entries: seq<(string, Value)>, r: Ref, seen: set<Ref>)
    requires Closed(h) && r in h && r !in seen
    requires forall i | 0 <= i < |entries| :: InHeap(h, entries[i].1)
    requires EntriesToJson(h, entries, r, seen).Some?
    ensures var trees := EntryTrees(h, entries, r, seen);
            && (forall i | 0 <= i < |entries| :: Unfolds(h, entries[i].1, trees[i].tree) && IsJsonTree(trees[i].tree))
            && EntriesToJson(h, entries, r, seen) == Some(CopyProperties(trees))
    decreases h.Keys - seen - {r}, 2, |entries|
  {
    hide ToJson, Copy, Unfolds, IsJsonTree, TreeOf;
    if entries != [] {
      var before, last := entries[..|entries| - 1], entries[|entries| - 1];
      EntriesConverted(h, before, r, seen);
      ConvertedUnfolds(h, last.1, seen + {r});
      var trees := EntryTrees(h, entries, r, seen);
      assert trees[..|entries| - 1] == EntryTrees(h, before, r, seen);
    }
  }

  lemma {:induction false} TreeIsConverted(h: Heap, v: Value, t: Tree, seen: set<Ref>)
    requires Closed(h) && InHeap(h, v) && Unfolds(h, v, t) && IsJsonTree(t) && Above(h, seen, t)
    ensures ToJson(h, v, seen).Some?
    decreases t, 1
  {
    if v.Reference? {
      NotAnAncestor(h, v.r, t, seen);
      match h[v.r]
      case Array(items) =>
        ItemsAreConverted(h, items, v.r, t, seen, |items|);
        assert items[..|items|] == items;
      case Object(_, entries) =>
        EntriesAreConverted(h, entries, v.r, t, seen, |entries|);
        assert entries[..|entries|] == entries;
    }
  }

  lemma {:induction false} ItemsAreConverted(h: Heap, items: seq<Option<Value>>, r: Ref, t: Tree, seen: set<Ref>, n: nat)
    requires Closed(h) && r in h && r !in seen && h[r] == Array(items) && n <= |items|
    requires Unfolds(h, Reference(r), t) && IsJsonTree(t) && Above(h, seen, t)
    ensures ItemsToJson(h, items[..n], r, seen).Some?
    decreases t, 0, n
  {
    if n > 0 {
      ItemsAreConverted(h, items, r, t, seen, n - 1);
      assert items[..n][..n - 1] == items[..n - 1];
      AboveChild(h, r, t, t.items[n - 1], seen);
      TreeIsConverted(h, items[n - 1].value, t.items[n - 1], seen + {r});
    }
  }

  lemma {:induction false} EntriesAreConverted(h: Heap, entries: seq<(string, Value)>, r: Ref, t: Tree, seen: set<Ref>, n: nat)
    requires Closed(h) && r in h && r !in seen && h[r].Object? && h[r].entries == entries && n <= |entries|
    requires Unfolds(h, Reference(r), t) && IsJsonTree(t) && Above(h, seen, t)
    ensures EntriesToJson(h, entries[..n], r, seen).Some?
    decreases t, 0, n
  {
    if n > 0 {
      EntriesAreConverted(h, entries, r, t, seen, n - 1);
      assert entries[..n][..n - 1] == entries[..n - 1];
      AboveChild(h, r, t, t.properties[n - 1].tree, seen);
      TreeIsConverted(h, entries[n - 1].1, t.properties[n - 1].tree, seen + {r});
    }
  }

  /** A value converts exactly if it unfolds to a finite tree of JSON values, and converts to a copy of that tree. */
  lemma JsonIsTheTree(h: Heap, v: Value)
    requires Closed(h) && InHeap(h, v)
    ensures ToJson(h, v, {}).Some? <==> exists t :: Unfolds(h, v, t) && IsJsonTree(t)
    ensures forall t | Unfolds(h, v, t) && IsJsonTree(t) :: ToJson(h, v, {}) == Some(Copy(t))
  {
    if ToJson(h, v, {}).Some? {
      ConvertedUnfolds(h, v, {});
      var t := TreeOf(h, v, {});
      assert Unfolds(h, v, t) && IsJsonTree(t);
    }
    forall t | Unfolds(h, v, t) && IsJsonTree(t)
      ensures ToJson(h, v, {}) == Some(Copy(t))
    {
      TreeIsConverted(h, v, t, {});
      ConvertedUnfolds(h, v, {});
      OneTree(h, v, t, TreeOf(h, v, {}));
    }
  }

  /** The copy is the whole tree exactly if no object in it has a property named `__proto__`. */
  lemma {:induction false} CopyIsWhole(t: Tree)
    requires IsJsonTree(t)
    ensures Copy(t) == Whole(t) <==> NoProtoKey(t)
    decreases t, 0
  {
    match t
    case Leaf(_) =>
    case Items(items) =>
      forall i | 0 <= i < |items|
        ensures Copy(t).items[i] == Whole(t).items[i] <==> NoProtoKey(items[i])
      {
        CopyIsWhole(items[i]);
      }
      assert Copy(t) == Whole(t) <==> Copy(t).items == Whole(t).items;
    case Properties(_, properties) =>
      PropertiesAreWhole(t, |properties|);
      assert properties[..|properties|] == properties;
      assert WholeProperties(properties) == Whole(t).entries;
  }

  function WholeProperties(properties: seq<Property>): seq<(string, Json)>
    requires forall i | 0 <= i < |properties| :: IsJsonTree(properties[i].tree)
  {
    seq(|properties|, i requires 0 <= i < |properties| => (properties[i].key, Whole(properties[i].tree)))
  }

  predicate NoProtoKeys(properties: seq<Property>) {
    forall i | 0 <= i < |properties| :: properties[i].key != PROTO && NoProtoKey(properties[i].tree)
  }

  lemma OneMoreProperty(properties: seq<Property>, last: Property)
    requires forall i | 0 <= i < |properties| :: IsJsonTree(properties[i].tree)
    requires IsJsonTree(last.tree)
    ensures var some := properties + [last];
            && (forall i | 0 <= i < |some| :: IsJsonTree(some[i].tree))
            && CopyProperties(some) == Assign(CopyProperties(properties), last.key, Copy(last.tree))
            && WholeProperties(some) == WholeProperties(properties) + [(last.key, Whole(last.tree))]
            && (NoProtoKeys(some) <==> NoProtoKeys(properties) && last.key != PROTO && NoProtoKey(last.tree))
  {
    hide Copy, Whole, NoProtoKey, IsJsonTree;
    var some := properties + [last];
    assert some[..|some| - 1] == properties && some[|some| - 1] == last;
  }

  lemma {:induction false} PropertiesAreWhole(t: Tree, n: nat)
    requires t.Properties? && IsJsonTree(t) && n <= |t.properties|
    ensures var some := t.properties[..n];
            |CopyProperties(some)| <= n && (CopyProperties(some) == WholeProperties(some) <==> NoProtoKeys(some))
    decreases t, 0, n
  {
    if n > 0 {
      var before, last := t.properties[..n - 1], t.properties[n - 1];
      assert t.properties[..n] == before + [last];
      PropertiesAreWhole(t, n - 1);
      CopyIsWhole(last.tree);
      OneMoreProperty(before, last);
      hide Copy, Whole, NoProtoKey, NoProtoKeys, CopyProperties, WholeProperties;
      SnocEqual(CopyProperties(before), (last.key, Copy(last.tree)), WholeProperties(before), (last.key, Whole(last.tree)));
    }
  }

  const WITH_PROTO: Heap := map[0 := Object(ObjectPrototype, [(PROTO, Text("x"))])]
  const PROTO_TREE := Properties(ObjectPrototype, [Property(PROTO, Leaf(Text("x")))])

  /** An object whose only property the copy loses. */
  lemma ProtoIsDropped()
    ensures Closed(WITH_PROTO) && Unfolds(WITH_PROTO, Reference(0), PROTO_TREE) && IsJsonTree(PROTO_TREE)
    ensures ToJson(WITH_PROTO, Reference(0), {}) == Some(JsonObject([]))
    ensures Whole(PROTO_TREE) == JsonObject([(PROTO, JsonLeaf(Text("x")))])
  {
    assert IsJsonTree(PROTO_TREE.properties[0].tree);
    var entries := WITH_PROTO[0].entries;
    assert entries[..0] == [];
    assert EntriesToJson(WITH_PROTO, entries, 0, {}) == Some([]);
  }

  lemma SnocEqual<T>(a: seq<T>, x: T, b: seq<T>, y: T)
    ensures a + [x] == b + [y] <==> a == b && x == y
  {
    if a + [x] == b + [y] {
      assert (a + [x])[..|a|] == a && (b + [y])[..|b|] == b;
      assert (a + [x])[|a|] == x && (b + [y])[|b|] == y;
    }
  }

  // ----- one set of ancestors for the whole walk -----

  /** The walks of both checks over a set that they add to on the way down and take from on the way up. */
  class GraphWalk {
    var ancestors: set<Ref>

    constructor ()
      ensures ancestors == {}
    {
      ancestors := {};
    }

    method CheckProtocolValue(h: Heap, v: Value, optional: bool) returns (ok: bool)
      requires Closed(h) && InHeap(h, v)
      modifies this
      ensures ancestors == old(ancestors)
      ensures ok == IsProtocolValue(h, v, optional, ancestors)
      decreases h.Keys - ancestors
    {
      if v.Undefined? {
        return optional;
      }
      if !v.Reference? {
        return !v.Unsupported?;
      }
      if v.r in ancestors {
        return false;
      }
      ghost var before := ancestors;
      ancestors := ancestors + {v.r};
      ok := true;
      match h[v.r] {
        case Array(items) =>
          for i := 0 to |items|
            invariant ancestors == before + {v.r}
            invariant ok <==> forall j | 0 <= j < i && items[j].Some? :: IsProtocolValue(h, items[j].value, false, ancestors)
          {
            if ok && items[i].Some? {
              ok := CheckProtocolValue(h, items[i].value, false);
            }
          }
        case Object(prototype, entries) =>
          ok := prototype == ObjectPrototype;
          if ok {
            for i := 0 to |entries|
              invariant ancestors == before + {v.r}
              invariant ok <==> forall j | 0 <= j < i :: IsProtocolValue(h, entries[j].1, true, ancestors)
            {
              if ok {
                ok := CheckProtocolValue(h, entries[i].1, true);
              }
            }
          }
      }
      ancestors := ancestors - {v.r};
      assert ancestors == before;
    }

    method Convert(h: Heap, v: Value) returns (json: Option<Json>)
      requires Closed(h) && InHeap(h, v)
      modifies this
      ensures ancestors == old(ancestors)
      ensures json == ToJson(h, v, ancestors)
      decreases h.Keys - ancestors, 0
    {
      hide ItemsToJson, EntriesToJson;
      if v.Null? || v.Text? || v.Boolean? || (v.Number? && v.finite) {
        return Some(JsonLeaf(v));
      }
      if !v.Reference? || v.r in ancestors || (h[v.r].Object? && h[v.r].prototype == OtherPrototype) {
        return None;
      }
      ghost var before := ancestors;
      ancestors := ancestors + {v.r};
      match h[v.r] {
        case Array(items) =>
          var converted := ConvertItems(h, items, v.r, before);
          json := if converted.None? then None else Some(JsonArray(converted.value));
        case Object(_, entries) =>
          var converted := ConvertEntries(h, entries, v.r, before);
          json := if converted.None? then None else Some(JsonObject(converted.value));
      }
      ancestors := ancestors - {v.r};
      assert ancestors == before;
    }

    method ConvertItems(h: Heap, items: seq<Option<Value>>, r: Ref, ghost before: set<Ref>)
      returns (converted: Option<seq<Json>>)
      requires Closed(h) && r in h && r !in before && ancestors == before + {r}
      requires forall i | 0 <= i < |items| && items[i].Some? :: InHeap(h, items[i].value)
      modifies this
      ensures ancestors == old(ancestors) && converted == ItemsToJson(h, items, r, before)
      decreases h.Keys - ancestors, 1
    {
      hide ToJson;
      converted := Some([]);
      assert items[..|items|] == items;
      for i := 0 to |items|
        invariant ancestors == before + {r}
        invariant converted == ItemsToJson(h, items[..i], r, before)
      {
        assert items[..i + 1][..i] == items[..i];
        if converted.Some? {
          var item := None;
          if items[i].Some? {
            item := Convert(h, items[i].value);
          }
          converted := if item.None? then None else Some(converted.value + [item.value]);
        }
      }
    }

    method ConvertEntries(h: Heap, entries: seq<(string, Value)>, r: Ref, ghost before: set<Ref>)
      returns (converted: Option<seq<(string, Json)>>)
      requires Closed(h) && r in h && r !in before && ancestors == before + {r}
      requires forall i | 0 <= i < |entries| :: InHeap(h, entries[i].1)
      modifies this
      ensures ancestors == old(ancestors) && converted == EntriesToJson(h, entries, r, before)
      decreases h.Keys - ancestors, 1
    {
      hide ToJson, Assign;
      converted := Some([]);
      assert entries[..|entries|] == entries;
      for i := 0 to |entries|
        invariant ancestors == before + {r}
        invariant converted == EntriesToJson(h, entries[..i], r, before)
      {
        assert entries[..i + 1][..i] == entries[..i];
        if converted.Some? {
          var property := Convert(h, entries[i].1);
          converted := if property.None? then None
                       else Some(Assign(converted.value, entries[i].0, property.value));
        }
      }
    }
  }
}
