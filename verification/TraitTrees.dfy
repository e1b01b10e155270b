/** Trees of identity traits on the heap and their deep copy (cloneTraits and its helpers in
    internal/challenge/service.go), next to the shallow copy of one map (cloneMap in
    internal/challenge/identity_mapper.go).

    A Go map is an object, a Go slice an array; both may be nil. A value of any other type is
    a scalar and copied as it stands. */
module TraitTrees {

  datatype Value =
    | Scalar(text: string)
    | MapRef(m: TraitMap?)
    | SliceRef(s: array?<Value>)

  class TraitMap {
    var entries: map<string, Value>

    constructor ()
      ensures entries == map[]
    {
      entries := map[];
    }
  }

  /** What a tree says, apart from where its maps and slices live. */
  datatype Tree =
    | Leaf(text: string)
    | NilMap
    | Object(fields: map<string, Tree>)
    | NilSlice
    | List(items: seq<Tree>)

  /** `v` is a tree (maps and slices may be shared, but never contain themselves) of nesting
      depth at most `depth`, and all its maps and slices are in `repr`. */
  ghost predicate Acyclic(v: Value, depth: nat, repr: set<object>)
    reads repr
    decreases depth
  {
    match v
    case Scalar(_) => true
    case MapRef(m) =>
      m == null || (depth > 0 && m in repr && forall k | k in m.entries :: Acyclic(m.entries[k], depth - 1, repr))
    case SliceRef(s) =>
      s == null || (depth > 0 && s in repr && forall i | 0 <= i < s.Length :: Acyclic(s[i], depth - 1, repr))
  }

  ghost function View(v: Value, depth: nat, repr: set<object>): Tree
    requires Acyclic(v, depth, repr)
    reads repr
    decreases depth, 0
  {
    match v
    case Scalar(text) => Leaf(text)
    case MapRef(m) =>
      if m == null then NilMap
      else Object(map k | k in m.entries :: View(m.entries[k], depth - 1, repr))
    case SliceRef(s) =>
      if s == null then NilSlice
      else List(ItemsView(s[..], depth - 1, repr))
  }

  ghost function ItemsView(items: seq<Value>, depth: nat, repr: set<object>): (r: seq<Tree>)
    requires forall i | 0 <= i < |items| :: Acyclic(items[i], depth, repr)
    reads repr
    ensures |r| == |items| && forall i | 0 <= i < |items| :: r[i] == View(items[i], depth, repr)
    decreases depth, 1, |items|
  {
    if items == [] then [] else [View(items[0], depth, repr)] + ItemsView(items[1..], depth, repr)
  }

  /** A map or slice of the tree at any depth. */
  ghost predicate Contains(v: Value, depth: nat, repr: set<object>, o: object)
    requires Acyclic(v, depth, repr)
    reads repr
    decreases depth
  {
    match v
    case Scalar(_) => false
    case MapRef(m) =>
      m != null && (m == o || exists k | k in m.entries :: Contains(m.entries[k], depth - 1, repr, o))
    case SliceRef(s) =>
      s != null && (s == o || exists i | 0 <= i < s.Length :: Contains(s[i], depth - 1, repr, o))
  }

  lemma {:induction false} ContainedInRepr(v: Value, depth: nat, repr: set<object>, o: object)
    requires Acyclic(v, depth, repr) && Contains(v, depth, repr, o)
    ensures o in repr
    decreases depth
  {
    match v
    case Scalar(_) =>
    case MapRef(m) =>
      if m != o {
        var k :| k in m.entries && Contains(m.entries[k], depth - 1, repr, o);
        ContainedInRepr(m.entries[k], depth - 1, repr, o);
      }
    case SliceRef(s) =>
      if s != o {
        var i :| 0 <= i < s.Length && Contains(s[i], depth - 1, repr, o);
        ContainedInRepr(s[i], depth - 1, repr, o);
      }
  }

  /** A larger set of objects changes nothing. */
  lemma {:induction false} LargerRepr(v: Value, depth: nat, repr: set<object>, more: set<object>)
    requires Acyclic(v, depth, repr) && repr <= more
    ensures Acyclic(v, depth, more) && View(v, depth, more) == View(v, depth, repr)
    decreases depth
  {
    match v
    case Scalar(_) =>
    case MapRef(m) =>
      if m != null {
        forall k | k in m.entries
          ensures Acyclic(m.entries[k], depth - 1, more)
          ensures View(m.entries[k], depth - 1, more) == View(m.entries[k], depth - 1, repr)
        {
          LargerRepr(m.entries[k], depth - 1, repr, more);
        }
      }
    case SliceRef(s) =>
      if s != null {
        forall i | 0 <= i < s.Length
          ensures Acyclic(s[i], depth - 1, more)
          ensures View(s[i], depth - 1, more) == View(s[i], depth - 1, repr)
        {
          LargerRepr(s[i], depth - 1, repr, more);
        }
      }
  }

  /** Writes outside a tree's maps and slices do not show in it. */
  twostate lemma UntouchedTreeKeepsView(v: Value, depth: nat, repr: set<object>)
    requires old(Acyclic(v, depth, repr))
    requires forall o | o in repr :: unchanged(o)
    ensures Acyclic(v, depth, repr) && View(v, depth, repr) == old(View(v, depth, repr))
  {
  }

  /** The fields of a map show these trees. */
  ghost predicate FieldsShow(entries: map<string, Value>, trees: map<string, Tree>, depth: nat, repr: set<object>)
    reads repr
  {
    && entries.Keys == trees.Keys
    && forall k | k in entries :: Acyclic(entries[k], depth, repr) && View(entries[k], depth, repr) == trees[k]
  }

  lemma FieldsShowMore(
    entries: map<string, Value>, trees: map<string, Tree>, depth: nat, repr: set<object>, more: set<object>)
    requires FieldsShow(entries, trees, depth, repr) && repr <= more
    ensures FieldsShow(entries, trees, depth, more)
  {
    forall k | k in entries
      ensures Acyclic(entries[k], depth, more) && View(entries[k], depth, more) == trees[k]
    {
      LargerRepr(entries[k], depth, repr, more);
    }
  }

  lemma FieldsShowAdded(
    entries: map<string, Value>, trees: map<string, Tree>, depth: nat, repr: set<object>,
    key: string, value: Value, inner: set<object>, tree: Tree)
    requires FieldsShow(entries, trees, depth, repr)
    requires Acyclic(value, depth, inner) && View(value, depth, inner) == tree
    ensures FieldsShow(entries[key := value], trees[key := tree], depth, repr + inner)
  {
    FieldsShowMore(entries, trees, depth, repr, repr + inner);
    LargerRepr(value, depth, inner, repr + inner);
  }

  lemma MapShows(m: TraitMap, trees: map<string, Tree>, depth: nat, repr: set<object>)
    requires depth > 0 && m in repr
    ensures FieldsShow(m.entries, trees, depth - 1, repr) <==>
            Acyclic(MapRef(m), depth, repr) && View(MapRef(m), depth, repr) == Object(trees)
  {
    if FieldsShow(m.entries, trees, depth - 1, repr) {
      assert View(MapRef(m), depth, repr).fields == trees;
    }
  }

  /** The items of a slice show these trees. */
  ghost predicate ItemsShow(items: seq<Value>, trees: seq<Tree>, depth: nat, repr: set<object>)
    reads repr
  {
    && |items| == |trees|
    && forall i | 0 <= i < |items| :: Acyclic(items[i], depth, repr) && View(items[i], depth, repr) == trees[i]
  }

  lemma ItemsShowMore(items: seq<Value>, trees: seq<Tree>, depth: nat, repr: set<object>, more: set<object>)
    requires ItemsShow(items, trees, depth, repr) && repr <= more
    ensures ItemsShow(items, trees, depth, more)
  {
    forall i | 0 <= i < |items|
      ensures Acyclic(items[i], depth, more) && View(items[i], depth, more) == trees[i]
    {
      LargerRepr(items[i], depth, repr, more);
    }
  }

  lemma SliceShows(a: array<Value>, trees: seq<Tree>, depth: nat, repr: set<object>)
    requires depth > 0 && a in repr
    ensures ItemsShow(a[..], trees, depth - 1, repr) <==>
            Acyclic(SliceRef(a), depth, repr) && View(SliceRef(a), depth, repr) == List(trees)
  {
    assert forall i | 0 <= i < a.Length :: a[..][i] == a[i];
    if ItemsShow(a[..], trees, depth - 1, repr) {
      assert View(SliceRef(a), depth, repr).items == trees;
    }
  }

  lemma ItemsShowAdded(
    items: seq<Value>, trees: seq<Tree>, depth: nat, repr: set<object>, value: Value, inner: set<object>, tree: Tree)
    requires ItemsShow(items, trees, depth, repr)
    requires Acyclic(value, depth, inner) && View(value, depth, inner) == tree
    ensures ItemsShow(items + [value], trees + [tree], depth, repr + inner)
  {
    ItemsShowMore(items, trees, depth, repr, repr + inner);
    LargerRepr(value, depth, inner, repr + inner);
  }

  /** One assignment to a field of the copy, of a value whose maps and slices are elsewhere. */
  method PutField(
    m: TraitMap, key: string, value: Value,
    ghost trees: map<string, Tree>, ghost depth: nat, ghost repr: set<object>,
    ghost inner: set<object>, ghost tree: Tree)
    requires m !in repr + inner
    requires FieldsShow(m.entries, trees, depth, repr) && Acyclic(value, depth, inner)
    requires View(value, depth, inner) == tree
    modifies m
    ensures FieldsShow(m.entries, trees[key := tree], depth, repr + inner)
  {
    FieldsShowAdded(m.entries, trees, depth, repr, key, value, inner, tree);
    m.entries := m.entries[key := value];
  }

  method PutItem(
    a: array<Value>, i: nat, value: Value,
    ghost trees: seq<Tree>, ghost depth: nat, ghost repr: set<object>, ghost inner: set<object>, ghost tree: Tree)
    requires i < a.Length && a !in repr + inner
    requires ItemsShow(a[..i], trees, depth, repr) && Acyclic(value, depth, inner)
    requires View(value, depth, inner) == tree
    modifies a
    ensures ItemsShow(a[..i + 1], trees + [tree], depth, repr + inner)
  {
    ghost var before := a[..i];
    ItemsShowAdded(before, trees, depth, repr, value, inner, tree);
    a[i] := value;
    assert a[..i + 1] == before + [value];
  }

  /** The copy shows the same tree and all its maps and slices are new. */
  method CloneTraits(src: TraitMap?, ghost depth: nat, ghost repr: set<object>)
    returns (clone: TraitMap?, ghost cloned: set<object>)
    requires Acyclic(MapRef(src), depth, repr)
    ensures fresh(cloned) && Acyclic(MapRef(clone), depth, cloned)
    ensures View(MapRef(clone), depth, cloned) == old(View(MapRef(src), depth, repr))
  {
    clone, cloned := null, {};
    if src != null {
      clone, cloned := CloneTraitMap(src, depth, repr);
    }
  }

  method CloneTraitMap(src: TraitMap?, ghost depth: nat, ghost repr: set<object>)
    returns (clone: TraitMap?, ghost cloned: set<object>)
    requires Acyclic(MapRef(src), depth, repr)
    ensures fresh(cloned) && Acyclic(MapRef(clone), depth, cloned)
    ensures View(MapRef(clone), depth, cloned) == old(View(MapRef(src), depth, repr))
    decreases depth, 1
  {
    if src == null {
      return null, {};
    }
    ghost var goal := View(MapRef(src), depth, repr).fields;
    MapShows(src, goal, depth, repr);
    clone, cloned := CloneEntries(src, goal, depth - 1, repr);
    FieldsShowMore(clone.entries, goal, depth - 1, cloned, cloned + {clone});
    cloned := cloned + {clone};
    MapShows(clone, goal, depth, cloned);
  }

  /** The loop of cloneTraitMap; the order in which it meets the keys is arbitrary. */
  method CloneEntries(src: TraitMap, ghost goal: map<string, Tree>, ghost depth: nat, ghost repr: set<object>)
    returns (clone: TraitMap, ghost cloned: set<object>)
    requires FieldsShow(src.entries, goal, depth, repr)
    ensures fresh(clone) && fresh(cloned) && clone !in cloned
    ensures FieldsShow(clone.entries, goal, depth, cloned)
    decreases depth + 1, 0
  {
    clone := new TraitMap();
    cloned := {};
    var keys := src.entries.Keys;
    ghost var shown := map[];
    while keys != {}
      invariant keys <= src.entries.Keys
      invariant FieldsShow(src.entries, goal, depth, repr)
      invariant fresh(clone) && fresh(cloned) && clone !in cloned
      invariant shown.Keys == goal.Keys - keys && forall k | k in shown :: shown[k] == goal[k]
      invariant FieldsShow(clone.entries, shown, depth, cloned)
      decreases keys
    {
      var key :| key in keys;
      cloned := CopyField(src, clone, key, goal, shown, depth, repr, cloned);
      keys, shown := keys - {key}, shown[key := goal[key]];
    }
    assert shown == goal;
  }

  /** One round of that loop. */
  method CopyField(
    src: TraitMap, clone: TraitMap, key: string,
    ghost goal: map<string, Tree>, ghost shown: map<string, Tree>, ghost depth: nat,
    ghost repr: set<object>, ghost cloned: set<object>)
    returns (ghost grown: set<object>)
    requires FieldsShow(src.entries, goal, depth, repr) && key in src.entries
    requires src != clone && clone !in repr + cloned
    requires FieldsShow(clone.entries, shown, depth, cloned)
    modifies clone
    ensures cloned <= grown && fresh(grown - cloned) && clone !in grown
    ensures FieldsShow(clone.entries, shown[key := goal[key]], depth, grown)
    decreases depth, 3
  {
    var value, inner := CloneTraitValue(src.entries[key], depth, repr);
    PutField(clone, key, value, shown, depth, cloned, inner, goal[key]);
    grown := cloned + inner;
  }

  method CloneTraitSlice(src: array?<Value>, ghost depth: nat, ghost repr: set<object>)
    returns (clone: array?<Value>, ghost cloned: set<object>)
    requires Acyclic(SliceRef(src), depth, repr)
    ensures fresh(cloned) && Acyclic(SliceRef(clone), depth, cloned)
    ensures View(SliceRef(clone), depth, cloned) == old(View(SliceRef(src), depth, repr))
    decreases depth, 1
  {
    if src == null {
      return null, {};
    }
    ghost var goal := View(SliceRef(src), depth, repr).items;
    SliceShows(src, goal, depth, repr);
    clone, cloned := CloneItems(src, goal, depth - 1, repr);
    ItemsShowMore(clone[..], goal, depth - 1, cloned, cloned + {clone});
    cloned := cloned + {clone};
    SliceShows(clone, goal, depth, cloned);
  }

  /** The loop of cloneTraitSlice. */
  method CloneItems(src: array<Value>, ghost goal: seq<Tree>, ghost depth: nat, ghost repr: set<object>)
    returns (clone: array<Value>, ghost cloned: set<object>)
    requires ItemsShow(src[..], goal, depth, repr)
    ensures fresh(clone) && fresh(cloned) && clone !in cloned
    ensures ItemsShow(clone[..], goal, depth, cloned)
    decreases depth + 1, 0
  {
    clone := new Value[src.Length](_ => Scalar(""));
    cloned := {};
    var i := 0;
    while i < src.Length
      invariant 0 <= i <= src.Length == clone.Length
      invariant ItemsShow(src[..], goal, depth, repr)
      invariant fresh(clone) && fresh(cloned) && clone !in cloned
      invariant ItemsShow(clone[..i], goal[..i], depth, cloned)
    {
      cloned := CopyItem(src, clone, i, goal, depth, repr, cloned);
      i := i + 1;
    }
    assert clone[..i] == clone[..] && goal[..i] == goal;
  }

  /** One round of that loop. */
  method CopyItem(
    src: array<Value>, clone: array<Value>, i: nat,
    ghost goal: seq<Tree>, ghost depth: nat, ghost repr: set<object>, ghost cloned: set<object>)
    returns (ghost grown: set<object>)
    requires ItemsShow(src[..], goal, depth, repr) && i < src.Length == clone.Length
    requires src != clone && clone !in repr + cloned
    requires ItemsShow(clone[..i], goal[..i], depth, cloned)
    modifies clone
    ensures cloned <= grown && fresh(grown - cloned) && clone !in grown
    ensures ItemsShow(clone[..i + 1], goal[..i + 1], depth, grown)
    decreases depth, 3
  {
    assert src[..][i] == src[i];
    var value, inner := CloneTraitValue(src[i], depth, repr);
    PutItem(clone, i, value, goal[..i], depth, cloned, inner, goal[i]);
    grown := cloned + inner;
    assert goal[..i + 1] == goal[..i] + [goal[i]];
  }

  method CloneTraitValue(value: Value, ghost depth: nat, ghost repr: set<object>)
    returns (clone: Value, ghost cloned: set<object>)
    requires Acyclic(value, depth, repr)
    ensures fresh(cloned) && Acyclic(clone, depth, cloned)
    ensures View(clone, depth, cloned) == old(View(value, depth, repr))
    decreases depth, 2
  {
    match value
    case MapRef(m) =>
      var copy, inner := CloneTraitMap(m, depth, repr);
      return MapRef(copy), inner;
    case SliceRef(s) =>
      var copy, inner := CloneTraitSlice(s, depth, repr);
      return SliceRef(copy), inner;
    case Scalar(_) =>
      return value, {};
  }

  /** The shallow copy: a new map that holds the very same values. */
  method CloneMap(src: TraitMap?) returns (clone: TraitMap?)
    ensures clone == null <==> src == null
    ensures clone != null ==> fresh(clone) && clone.entries == src.entries
  {
    if src == null {
      return null;
    }
    clone := new TraitMap();
    var keys := src.entries.Keys;
    while keys != {}
      invariant keys <= src.entries.Keys
      invariant fresh(clone)
      invariant clone.entries == map k | k in src.entries && k !in keys :: src.entries[k]
      decreases keys
    {
      var key :| key in keys;
      keys := keys - {key};
      clone.entries := clone.entries[key := src.entries[key]];
    }
  }

  /** A source and its copy have no map and no slice in common, at any depth. */
  lemma CloneSharesNothing(
    v: Value, depth: nat, repr: set<object>, clone: Value, cloneDepth: nat, cloned: set<object>, o: object)
    requires Acyclic(v, depth, repr) && Acyclic(clone, cloneDepth, cloned) && repr !! cloned
    ensures !Contains(v, depth, repr, o) || !Contains(clone, cloneDepth, cloned, o)
  {
    if Contains(v, depth, repr, o) && Contains(clone, cloneDepth, cloned, o) {
      ContainedInRepr(v, depth, repr, o);
      ContainedInRepr(clone, cloneDepth, cloned, o);
    }
  }

  /** A shallow copy keeps every nested map in common with its source. */
  lemma ShallowCopySharesNestedMaps(
    src: TraitMap, clone: TraitMap, depth: nat, repr: set<object>, key: string, nested: TraitMap)
    requires Acyclic(MapRef(src), depth, repr) && clone.entries == src.entries
    requires key in src.entries && src.entries[key] == MapRef(nested)
    ensures Acyclic(MapRef(clone), depth, repr + {clone})
    ensures Contains(MapRef(src), depth, repr, nested) && Contains(MapRef(clone), depth, repr + {clone}, nested)
  {
    assert FieldsShow(src.entries, View(MapRef(src), depth, repr).fields, depth - 1, repr);
    FieldsShowMore(src.entries, View(MapRef(src), depth, repr).fields, depth - 1, repr, repr + {clone});
    assert Contains(src.entries[key], depth - 1, repr, nested);
    assert Contains(clone.entries[key], depth - 1, repr + {clone}, nested);
  }

  /** A write into the source after the copy, anywhere in it, leaves the copy as it was: the
      clone is taken, a field of one of the source's maps is overwritten, and the clone still
      shows the tree the source showed. */
  method OverwriteAfterClone(
    src: TraitMap, ghost depth: nat, ghost repr: set<object>, target: TraitMap, key: string, value: Value)
    returns (clone: TraitMap?, ghost cloned: set<object>)
    requires Acyclic(MapRef(src), depth, repr) && target in repr
    modifies target
    ensures fresh(cloned) && Acyclic(MapRef(clone), depth, cloned)
    ensures View(MapRef(clone), depth, cloned) == old(View(MapRef(src), depth, repr))
    ensures target.entries == old(target.entries)[key := value]
  {
    clone, cloned := CloneTraits(src, depth, repr);
    target.entries := target.entries[key := value];
  }
}
