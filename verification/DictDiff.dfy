/** The difference of two dicts, and merging one into another. */
module DictDiff {
  import opened Wrappers

  type Key = string

  datatype Value =
    | Null
    | Bool(b: bool)
    | Int(i: int)
    | Str(s: string)
    | List(items: seq<Value>)
    | Dict(entries: map<Key, Value>)

  /** Python compares booleans as numbers. */
  function Number(v: Value): Option<int> {
    match v
    case Bool(b) => Some(if b then 1 else 0)
    case Int(i) => Some(i)
    case _ => None
  }

  /** Python's `==`. */
  predicate Same(x: Value, y: Value)
    decreases x
  {
    match x
    case Null => y.Null?
    case Bool(_) => Number(x) == Number(y)
    case Int(_) => Number(x) == Number(y)
    case Str(s) => y == x
    case List(xs) => y.List? && |xs| == |y.items| && forall i | 0 <= i < |xs| :: Same(xs[i], y.items[i])
    case Dict(m) => y.Dict? && m.Keys == y.entries.Keys && forall k | k in m :: Same(m[k], y.entries[k])
  }

  // ---- the difference -----------------------------------------------------------------------------

  /** What the difference has for a key of the second dict. */
  function Update(a: Value, k: Key, v: Value): Option<Value>
    requires a.Dict?
    decreases v, 1
  {
    if k !in a.entries then Some(v)
    else if a.entries[k].Dict? && v.Dict? then
      var nested := Updates(a.entries[k], v);
      if nested.entries == map[] then None else Some(nested)
    else if Same(a.entries[k], v) then None
    else Some(v)
  }

  /** `get_dict_updates` */
  function Updates(a: Value, b: Value): (r: Value)
    requires a.Dict? && b.Dict?
    ensures r.Dict?
    decreases b, 0
  {
    Dict(map k | k in b.entries && Update(a, k, b.entries[k]).Some? :: Update(a, k, b.entries[k]).value)
  }

  /** `get_updated_properties` */
  function UpdatedProperties(a: Value, b: Value): Value {
    if a.Dict? && b.Dict? then Updates(a, b) else if Same(a, b) then Null else b
  }

  // ---- merging ------------------------------------------------------------------------------------

  /** What a merged dict has for a key of the second dict. */
  function Entry(a: Value, k: Key, v: Value): Value
    requires a.Dict?
    decreases v, 1
  {
    if k in a.entries && a.entries[k].Dict? && v.Dict? then Merge(a.entries[k], v) else v
  }

  /** `_deep_merge_dict` */
  function Merge(a: Value, b: Value): (r: Value)
    requires a.Dict? && b.Dict?
    ensures r.Dict?
    decreases b, 0
  {
    Dict(map k | k in a.entries.Keys + b.entries.Keys ::
      if k in b.entries then Entry(a, k, b.entries[k]) else a.entries[k])
  }

  // ---- the loops ----------------------------------------------------------------------------------

  method GetDictUpdates(a: Value, b: Value) returns (updated: map<Key, Value>)
    requires a.Dict? && b.Dict?
    ensures Dict(updated) == Updates(a, b)
    decreases b, 0
  {
    updated := map[];
    var keys := b.entries.Keys;
    while keys != {}
      invariant keys <= b.entries.Keys
      invariant updated == map k | k in b.entries.Keys - keys && Update(a, k, b.entries[k]).Some? ::
        Update(a, k, b.entries[k]).value
      decreases keys
    {
      var key :| key in keys;
      var old', new' := a.entries, b.entries[key];
      if key in old' {
        if old'[key].Dict? && new'.Dict? {
          var nested := GetUpdatedProperties(old'[key], new');
          if nested.entries != map[] {
            updated := updated[key := nested];
          }
        } else if !Same(old'[key], new') {
          updated := updated[key := new'];
        }
      } else {
        updated := updated[key := new'];
      }
      keys := keys - {key};
    }
  }

  method GetUpdatedProperties(a: Value, b: Value) returns (r: Value)
    ensures r == UpdatedProperties(a, b)
    decreases b, 1
  {
    if a.Dict? && b.Dict? {
      var updated := GetDictUpdates(a, b);
      return Dict(updated);
    }
    if !Same(a, b) {
      return b;
    }
    return Null;
  }

  /** A dict that is changed in place. */
  class DictObject {
    var entries: map<Key, Value>

    constructor (entries: map<Key, Value>)
      ensures this.entries == entries
    {
      this.entries := entries;
    }

    method DeepMerge(d: Value)
      requires d.Dict?
      modifies this
      ensures Dict(entries) == Merge(Dict(old(entries)), d)
      decreases d
    {
      ghost var before := Dict(entries);
      var keys := d.entries.Keys;
      while keys != {}
        invariant keys <= d.entries.Keys
        invariant entries == map k | k in before.entries.Keys + (d.entries.Keys - keys) ::
          if k in d.entries.Keys - keys then Entry(before, k, d.entries[k]) else before.entries[k]
        decreases keys
      {
        var k :| k in keys;
        var v := d.entries[k];
        if k in entries && entries[k].Dict? && v.Dict? {
          var nested := new DictObject(entries[k].entries);
          nested.DeepMerge(v);
          entries := entries[k := Dict(nested.entries)];
        } else {
          entries := entries[k := v];
        }
        keys := keys - {k};
      }
    }
  }

  // ---- the difference is a patch ------------------------------------------------------------------

  lemma {:induction false} SameSelf(x: Value)
    ensures Same(x, x)
    decreases x
  {
    match x
    case List(xs) =>
      forall i | 0 <= i < |xs| {
        SameSelf(xs[i]);
      }
    case Dict(m) =>
      forall k | k in m {
        SameSelf(m[k]);
      }
    case _ =>
  }

  lemma {:induction false} SameSymmetric(x: Value, y: Value)
    requires Same(x, y)
    ensures Same(y, x)
    decreases x
  {
    match x
    case List(xs) =>
      forall i | 0 <= i < |xs| {
        SameSymmetric(xs[i], y.items[i]);
      }
    case Dict(m) =>
      forall k | k in m {
        SameSymmetric(m[k], y.entries[k]);
      }
    case _ =>
  }

  lemma {:induction false} SameTransitive(x: Value, y: Value, z: Value)
    requires Same(x, y) && Same(y, z)
    ensures Same(x, z)
    decreases x
  {
    match x
    case List(xs) =>
      forall i | 0 <= i < |xs| {
        SameTransitive(xs[i], y.items[i], z.items[i]);
      }
    case Dict(m) =>
      forall k | k in m {
        SameTransitive(m[k], y.entries[k], z.entries[k]);
      }
    case _ =>
  }

  lemma SameDicts(x: Value, y: Value)
    requires x.Dict? && y.Dict? && x.entries.Keys == y.entries.Keys
    requires forall k | k in x.entries :: Same(x.entries[k], y.entries[k])
    ensures Same(x, y)
  {
  }

  /** Main theorem: merging the difference does what merging the second dict does. */
  lemma {:induction false} DifferenceIsPatch(a: Value, b: Value)
    requires a.Dict? && b.Dict?
    ensures Same(Merge(a, Updates(a, b)), Merge(a, b))
    decreases b
  {
    hide Same;
    var patch := Updates(a, b);
    var x, y := Merge(a, patch), Merge(a, b);
    forall k | k in y.entries
      ensures k in x.entries && Same(x.entries[k], y.entries[k])
    {
      if k in b.entries {
        EntryPatched(a, b, k);
      } else {
        SameSelf(a.entries[k]);
      }
    }
    SameDicts(x, y);
  }

  lemma {:induction false} EntryPatched(a: Value, b: Value, k: Key)
    requires a.Dict? && b.Dict? && k in b.entries
    ensures k in Merge(a, Updates(a, b)).entries
    ensures Same(Merge(a, Updates(a, b)).entries[k], Merge(a, b).entries[k])
    decreases b, 0
  {
    hide Same;
    assert Update(a, k, b.entries[k]).None? ==> k in a.entries;
    var v := b.entries[k];
    SameSelf(v);
    if k in a.entries && a.entries[k].Dict? && v.Dict? {
      DifferenceIsPatch(a.entries[k], v);
      NothingChanges(a.entries[k], v);
    }
  }

  /** Main theorem: the difference is empty exactly when merging changes nothing. */
  lemma {:induction false} NothingChanges(a: Value, b: Value)
    requires a.Dict? && b.Dict?
    ensures Updates(a, b).entries == map[] <==> Same(a, Merge(a, b))
    decreases b
  {
    forall k | k in b.entries
      ensures Update(a, k, b.entries[k]).None? <==> k in a.entries && Same(a.entries[k], Merge(a, b).entries[k])
    {
      if k in a.entries && a.entries[k].Dict? && b.entries[k].Dict? {
        NothingChanges(a.entries[k], b.entries[k]);
      }
    }
    forall k | k in a.entries && k !in b.entries
      ensures Same(a.entries[k], Merge(a, b).entries[k])
    {
      SameSelf(a.entries[k]);
    }
    var u, m := Updates(a, b).entries, Merge(a, b).entries;
    if u == map[] {
      forall k | k in b.entries
        ensures k in a.entries && Same(a.entries[k], m[k])
      {
        assert k !in u;
        assert Update(a, k, b.entries[k]).None?;
      }
      assert a.entries.Keys == m.Keys;
      assert Same(a, Merge(a, b));
    }
    if Same(a, Merge(a, b)) {
      forall k
        ensures k !in u
      {
        assert k in b.entries ==> k in m;
      }
      assert u == map[];
    }
  }

  /** The second dict has every key of the first, also of dicts in both. */
  predicate KeepsKeys(a: Value, b: Value)
    requires a.Dict? && b.Dict?
    decreases b
  {
    forall k | k in a.entries ::
      k in b.entries && (a.entries[k].Dict? && b.entries[k].Dict? ==> KeepsKeys(a.entries[k], b.entries[k]))
  }

  /** Main theorem: merging gives the second dict exactly when that has every key of the first. */
  lemma {:induction false} MergeGivesSecond(a: Value, b: Value)
    requires a.Dict? && b.Dict?
    ensures Merge(a, b) == b <==> KeepsKeys(a, b)
    decreases b
  {
    forall k | k in b.entries
      ensures k in a.entries && a.entries[k].Dict? && b.entries[k].Dict? ==>
        (Entry(a, k, b.entries[k]) == b.entries[k] <==> KeepsKeys(a.entries[k], b.entries[k]))
    {
      if k in a.entries && a.entries[k].Dict? && b.entries[k].Dict? {
        MergeGivesSecond(a.entries[k], b.entries[k]);
      }
    }
    if KeepsKeys(a, b) {
      assert Merge(a, b).entries == b.entries;
    }
    if Merge(a, b) == b {
      forall k | k in a.entries
        ensures k in b.entries && (a.entries[k].Dict? && b.entries[k].Dict? ==> KeepsKeys(a.entries[k], b.entries[k]))
      {
        assert k in Merge(a, b).entries;
      }
    }
  }

  /** Merging is done once: a second time changes nothing. */
  lemma {:induction false} MergeTwice(a: Value, b: Value)
    requires a.Dict? && b.Dict?
    ensures Merge(Merge(a, b), b) == Merge(a, b)
    decreases b
  {
    var once := Merge(a, b);
    forall k | k in b.entries
      ensures Entry(once, k, b.entries[k]) == once.entries[k]
    {
      var v := b.entries[k];
      assert once.entries[k] == Entry(a, k, v);
      if v.Dict? {
        if k in a.entries && a.entries[k].Dict? {
          MergeTwice(a.entries[k], v);
        } else {
          MergeSelf(v);
        }
      }
    }
    assert Merge(once, b).entries == once.entries;
  }

  lemma {:induction false} MergeSelf(a: Value)
    requires a.Dict?
    ensures Merge(a, a) == a
    decreases a
  {
    forall k | k in a.entries
      ensures Entry(a, k, a.entries[k]) == a.entries[k]
    {
      if a.entries[k].Dict? {
        MergeSelf(a.entries[k]);
      }
    }
    assert Merge(a, a).entries == a.entries;
  }

  /** There is no difference left after merging. */
  lemma NoDifferenceAfterMerge(a: Value, b: Value)
    requires a.Dict? && b.Dict?
    ensures Updates(Merge(a, b), b).entries == map[]
  {
    MergeTwice(a, b);
    SameSelf(Merge(a, b));
    NothingChanges(Merge(a, b), b);
  }
}
