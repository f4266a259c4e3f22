/** Loading a tree of product blocks from its rows. */
module DomainLoad {
  import opened Wrappers
  import opened DomainTypes
  import opened DomainValues

  // ---- which instances belong to a field ----------------------------------------------------------

  /** The fields of the row that the relations name for an instance. */
  function Attrs(rels: seq<Relation>, target: Uuid): set<Name> {
    set r | r in rels && r.target == target && r.attr != "" :: r.attr
  }

  /** An instance that no relation names a field for can be in any. */
  predicate InField(rels: seq<Relation>, target: Uuid, field: Name) {
    Attrs(rels, target) == {} || field in Attrs(rels, target)
  }

  /** The instances of one product block that the row depends on, in order. */
  function OfType(db: Db, rels: seq<Relation>, t: Name): (r: seq<Uuid>)
    ensures forall x | x in r :: x in db && db[x].block == t
  {
    if rels == [] then []
    else
      var rest := OfType(db, rels[1..], t);
      if rels[0].target in db && db[rels[0].target].block == t then [rels[0].target] + rest else rest
  }

  function OfTypes(db: Db, rels: seq<Relation>, types: seq<Name>): (r: seq<Uuid>)
    ensures forall x | x in r :: x in db && db[x].block in types
  {
    if types == [] then [] else OfType(db, rels, types[0]) + OfTypes(db, rels, types[1..])
  }

  function Matching(ids: seq<Uuid>, rels: seq<Relation>, field: Name): (r: seq<Uuid>)
    ensures forall x | x in r :: x in ids && InField(rels, x, field)
  {
    if ids == [] then []
    else if InField(rels, ids[0], field) then [ids[0]] + Matching(ids[1..], rels, field)
    else Matching(ids[1..], rels, field)
  }

  /** The instances of a field: grouped by product block, in the order of the field's types. */
  function Members(db: Db, rels: seq<Relation>, f: BlockField): seq<Uuid> {
    Matching(OfTypes(db, rels, f.types), rels, f.name)
  }

  /** The product blocks of the instances that the row depends on. */
  function BlocksUsed(db: Db, rels: seq<Relation>): set<Name> {
    set r | r in rels && r.target in db :: db[r.target].block
  }

  // ---- one list for several fields ----------------------------------------------------------------

  /** From field `i` to field `j` no list field starts a new list: each is named like a product block in use. */
  predicate SharesList(fs: seq<BlockField>, used: set<Name>, i: nat, j: nat) {
    && i <= j < |fs| && fs[i].arity == Many && fs[j].arity == Many
    && forall k | i < k <= j && fs[k].arity == Many :: fs[k].name in used
  }

  /** What the list of field `i` holds in the end, of the fields before `n`. */
  function Shared(fs: seq<BlockField>, used: set<Name>, own: seq<seq<Block>>, i: nat, n: nat): seq<Block>
    requires i < |fs| && n <= |own| <= |fs|
  {
    if n == 0 then []
    else if SharesList(fs, used, i, n - 1) || SharesList(fs, used, n - 1, i)
    then Shared(fs, used, own, i, n - 1) + own[n - 1]
    else Shared(fs, used, own, i, n - 1)
  }

  /** What field `i` holds in the end. */
  function Held(fs: seq<BlockField>, used: set<Name>, own: seq<seq<Block>>, i: nat): seq<Block>
    requires i < |own| == |fs|
  {
    if fs[i].arity == Many then Shared(fs, used, own, i, |own|) else own[i]
  }

  function Links(fs: seq<BlockField>, used: set<Name>, own: seq<seq<Block>>): (r: seq<Link>)
    requires |own| == |fs|
    ensures |r| == |fs|
  {
    seq(|fs|, i requires 0 <= i < |fs| => Link(Held(fs, used, own, i)))
  }

  // ---- the tree -----------------------------------------------------------------------------------

  /** A block of a tree that is `fuel` deep; nothing when an exception is raised. */
  function FromDb(env: Env, db: Db, id: Uuid, fuel: nat): Option<Block>
    decreases fuel, 2, 0
  {
    if fuel == 0 || id !in db || db[id].block !in env.classes then None
    else
      var row := db[id];
      var c := env.classes[row.block];
      var rels := env.queue(row.relations);
      var slots := LoadSlots(c.values, env.arrange(row.values));
      var own := LoadFields(env, db, rels, c.blocks, fuel - 1);
      if slots.None? || own.None? then None
      else
        var links := Links(c.blocks, BlocksUsed(db, rels), own.value);
        if LinksFit(c.blocks, links)
        then Some(Block(id, row.subscription, row.block, row.labelText, slots.value, links))
        else None
  }

  /** The blocks that belong to each of the fields. */
  function LoadFields(env: Env, db: Db, rels: seq<Relation>, fs: seq<BlockField>,
      fuel: nat): (r: Option<seq<seq<Block>>>)
    ensures r.Some? ==> |r.value| == |fs|
    decreases fuel, 4, |fs|
  {
    if fs == [] then Some([])
    else
      var ids := Members(db, rels, fs[0]);
      if (fs[0].arity != Many && |ids| > 1) || (fs[0].arity == One && ids == []) then None
      else
        var own := LoadAll(env, db, ids, fuel);
        var rest := LoadFields(env, db, rels, fs[1..], fuel);
        if own.Some? && rest.Some? then Some([own.value] + rest.value) else None
  }

  function LoadAll(env: Env, db: Db, ids: seq<Uuid>, fuel: nat): (r: Option<seq<Block>>)
    ensures r.Some? ==> |r.value| == |ids|
    decreases fuel, 3, |ids|
  {
    if ids == [] then Some([])
    else
      var b := FromDb(env, db, ids[0], fuel);
      var rest := LoadAll(env, db, ids[1..], fuel);
      if b.Some? && rest.Some? then Some([b.value] + rest.value) else None
  }
}
