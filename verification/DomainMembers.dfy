/** Which instances a field loads, relation by relation, also of rows that no tree of blocks was saved to. */
module DomainMembers {
  import opened Wrappers
  import opened DomainTypes
  import opened DomainValues
  import opened DomainLoad

  /** Does no relation to the instance name a field, or does one name this field? */
  predicate Wants(rels: seq<Relation>, target: Uuid, field: Name) {
    || (forall i | 0 <= i < |rels| && rels[i].target == target :: rels[i].attr == "")
    || (exists i | 0 <= i < |rels| :: rels[i].target == target && rels[i].attr == field)
  }

  lemma WantsMeans(rels: seq<Relation>, target: Uuid, field: Name)
    requires field != ""
    ensures Wants(rels, target, field) <==> InField(rels, target, field)
  {
    var attrs := Attrs(rels, target);
    if Wants(rels, target, field) {
      if i :| 0 <= i < |rels| && rels[i].target == target && rels[i].attr == field {
        assert rels[i] in rels;
      } else {
        assert forall r | r in rels && r.target == target :: r.attr == "";
      }
    }
    if InField(rels, target, field) {
      if attrs == {} {
        assert forall r | r in rels && r.target == target && r.attr != "" :: r.attr in attrs;
      } else {
        var r :| r in rels && r.target == target && r.attr != "" && r.attr == field;
        var i :| 0 <= i < |rels| && rels[i] == r;
      }
    }
  }

  lemma {:induction false} OfTypeHas(db: Db, rels: seq<Relation>, t: Name, x: Uuid)
    ensures x in OfType(db, rels, t) <==> x in db && db[x].block == t && exists r :: r in rels && r.target == x
    decreases |rels|
  {
    if rels != [] {
      OfTypeHas(db, rels[1..], t, x);
      assert rels == [rels[0]] + rels[1..];
    }
  }

  lemma {:induction false} OfTypesHas(db: Db, rels: seq<Relation>, types: seq<Name>, x: Uuid)
    ensures x in OfTypes(db, rels, types)
       <==> x in db && db[x].block in types && exists r :: r in rels && r.target == x
    decreases |types|
  {
    if types != [] {
      OfTypeHas(db, rels, types[0], x);
      OfTypesHas(db, rels, types[1..], x);
      assert types == [types[0]] + types[1..];
    }
  }

  lemma {:induction false} MatchingHas(ids: seq<Uuid>, rels: seq<Relation>, field: Name, x: Uuid)
    ensures x in Matching(ids, rels, field) <==> x in ids && InField(rels, x, field)
    decreases |ids|
  {
    hide InField;
    if ids != [] {
      MatchingHas(ids[1..], rels, field, x);
      assert ids == [ids[0]] + ids[1..];
    }
  }

  /** For any relations: a field loads exactly the instances that the row depends on, that have a row of a type
      of the field, and to which no relation names a field, or one names this one. */
  lemma MembersHas(db: Db, rels: seq<Relation>, f: BlockField, x: Uuid)
    requires f.name != ""
    ensures x in Members(db, rels, f) <==>
      && (exists r :: r in rels && r.target == x) && x in db && db[x].block in f.types
      && (|| (forall r | r in rels && r.target == x :: r.attr == "")
          || (exists r :: r in rels && r.target == x && r.attr == f.name))
  {
    hide OfTypes, Matching, InField, Wants;
    OfTypesHas(db, rels, f.types, x);
    MatchingHas(OfTypes(db, rels, f.types), rels, f.name, x);
    WantsMeans(rels, x, f.name);
    WantsByRelation(rels, x, f.name);
  }

  lemma WantsByRelation(rels: seq<Relation>, target: Uuid, field: Name)
    ensures Wants(rels, target, field) <==>
      || (forall r | r in rels && r.target == target :: r.attr == "")
      || (exists r :: r in rels && r.target == target && r.attr == field)
  {
    if r :| r in rels && r.target == target && r.attr == field {
      var i :| 0 <= i < |rels| && rels[i] == r;
    }
  }

  /** The targets of the relations that are of a type and that the field wants, in order. */
  function Picked(db: Db, all: seq<Relation>, rels: seq<Relation>, t: Name, field: Name): seq<Uuid> {
    if rels == [] then []
    else
      var x := rels[0].target;
      (if x in db && db[x].block == t && Wants(all, x, field) then [x] else [])
      + Picked(db, all, rels[1..], t, field)
  }

  lemma {:induction false} PickedIsMatching(db: Db, all: seq<Relation>, rels: seq<Relation>, t: Name, field: Name)
    requires field != ""
    ensures Picked(db, all, rels, t, field) == Matching(OfType(db, rels, t), all, field)
    decreases |rels|
  {
    hide InField, Wants;
    if rels != [] {
      WantsMeans(all, rels[0].target, field);
      PickedIsMatching(db, all, rels[1..], t, field);
      var rest := OfType(db, rels[1..], t);
      assert ([rels[0].target] + rest)[1..] == rest;
      assert [] + Picked(db, all, rels[1..], t, field) == Picked(db, all, rels[1..], t, field);
    }
  }

  /** A field of one type loads its instances in the order of the relations. */
  lemma MembersInOrder(db: Db, rels: seq<Relation>, f: BlockField)
    requires f.name != "" && |f.types| == 1
    ensures Members(db, rels, f) == Picked(db, rels, rels, f.types[0], f.name)
  {
    hide OfType, Matching, Picked;
    PickedIsMatching(db, rels, rels, f.types[0], f.name);
    var ids := OfType(db, rels, f.types[0]);
    assert f.types[1..] == [] && OfTypes(db, rels, f.types[1..]) == [];
    assert OfTypes(db, rels, f.types) == ids + [] == ids;
  }

  /** The product blocks in use are those of all stored instances that the row depends on, of whatever field. */
  lemma BlocksUsedHas(db: Db, rels: seq<Relation>, n: Name)
    ensures n in BlocksUsed(db, rels) <==>
      exists i :: 0 <= i < |rels| && rels[i].target in db && db[rels[i].target].block == n
  {
    if n in BlocksUsed(db, rels) {
      var r :| r in rels && r.target in db && db[r.target].block == n;
      var i :| 0 <= i < |rels| && rels[i] == r;
    }
  }

  // ---- what is loaded -----------------------------------------------------------------------------

  lemma SlotIsLoadedToFit(f: ValueField, rows: seq<ValueRow>)
    requires LoadSlot(f, rows).Some?
    ensures SlotFits(f, LoadSlot(f, rows).value)
  {
  }

  lemma {:induction false} LoadedAre(env: Env, db: Db, ids: seq<Uuid>, fuel: nat)
    requires LoadAll(env, db, ids, fuel).Some?
    ensures
      var bs := LoadAll(env, db, ids, fuel).value;
      forall k | 0 <= k < |ids| :: ids[k] in db && bs[k].id == ids[k] && bs[k].name == db[ids[k]].block
    decreases |ids|
  {
    hide LoadSlots, LoadFields, Links;
    if ids != [] {
      LoadedAre(env, db, ids[1..], fuel);
    }
  }

  lemma OneFieldFits(env: Env, db: Db, rels: seq<Relation>, f: BlockField, fuel: nat)
    requires var ids := Members(db, rels, f);
      !((f.arity != Many && |ids| > 1) || (f.arity == One && ids == [])) && LoadAll(env, db, ids, fuel).Some?
    ensures LinkFits(f, Link(LoadAll(env, db, Members(db, rels, f), fuel).value))
  {
    hide LoadAll, OfTypes, Matching;
    var ids := Members(db, rels, f);
    LoadedAre(env, db, ids, fuel);
    forall k | 0 <= k < |ids|
      ensures db[ids[k]].block in f.types
    {
      assert ids[k] in ids && ids[k] in OfTypes(db, rels, f.types);
    }
  }

  /** The blocks that are loaded for a field fit it: as many as it can hold, of its types. */
  lemma {:induction false} OwnBlocksFit(env: Env, db: Db, rels: seq<Relation>, fs: seq<BlockField>, fuel: nat, i: nat)
    requires LoadFields(env, db, rels, fs, fuel).Some? && i < |fs|
    ensures LinkFits(fs[i], Link(LoadFields(env, db, rels, fs, fuel).value[i]))
    decreases |fs|
  {
    hide LoadAll, Members, LinkFits;
    if i == 0 {
      OneFieldFits(env, db, rels, fs[0], fuel);
    } else {
      OwnBlocksFit(env, db, rels, fs[1..], fuel, i - 1);
    }
  }

  /** For any rows: when no values and no blocks are missing, and every field holds its own blocks in the end, the
      object can be made. Only a list that fields share makes one that does not fit its class. */
  lemma LoadsUnlessShared(env: Env, db: Db, id: Uuid, fuel: nat)
    requires fuel > 0 && id in db && db[id].block in env.classes
    requires
      var c, rels := env.classes[db[id].block], env.queue(db[id].relations);
      var own := LoadFields(env, db, rels, c.blocks, fuel - 1);
      && LoadSlots(c.values, env.arrange(db[id].values)).Some? && own.Some?
      && forall i | 0 <= i < |c.blocks| :: Held(c.blocks, BlocksUsed(db, rels), own.value, i) == own.value[i]
    ensures FromDb(env, db, id, fuel).Some?
  {
    hide LoadFields, LoadSlots, Held, LinkFits, BlocksUsed;
    var c, rels := env.classes[db[id].block], env.queue(db[id].relations);
    var own := LoadFields(env, db, rels, c.blocks, fuel - 1).value;
    forall i | 0 <= i < |c.blocks|
      ensures LinkFits(c.blocks[i], Links(c.blocks, BlocksUsed(db, rels), own)[i])
    {
      OwnBlocksFit(env, db, rels, c.blocks, fuel - 1, i);
    }
  }

  /** Whatever the rows are: what is loaded is an object of its class. */
  lemma LoadedFits(env: Env, db: Db, id: Uuid, fuel: nat)
    requires FromDb(env, db, id, fuel).Some?
    ensures
      var b := FromDb(env, db, id, fuel).value;
      id in db && b.id == id && b.name == db[id].block && b.owner == db[id].subscription && BlockFits(env, b)
  {
    hide LoadFields, LoadSlots, Links, LinkFits, SlotFits, LoadSlot;
    var fs := env.classes[db[id].block].values;
    var rows := env.arrange(db[id].values);
    forall i | 0 <= i < |fs|
      ensures SlotFits(fs[i], LoadSlots(fs, rows).value[i])
    {
      assert LoadSlot(fs[i], rows) == Some(LoadSlots(fs, rows).value[i]);
      SlotIsLoadedToFit(fs[i], rows);
    }
  }
}
