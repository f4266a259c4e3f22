/** Saving a tree of product blocks leaves rows that say what the tree is, and spoils no other rows. */
module DomainSaved {
  import opened Wrappers
  import opened DomainTypes
  import opened DomainValues
  import opened DomainSave
  import opened DomainLoad
  import opened DomainRoundTrip
  import opened Sequences

  // ---- the relations of a saved block are read back by field --------------------------------------

  function FieldOf(rels: seq<Relation>, attr: Name): (r: seq<Relation>)
    ensures forall x | x in r :: x in rels && x.attr == attr
    ensures forall x | x in rels && x.attr == attr :: x in r
  {
    if rels == [] then []
    else if rels[0].attr == attr then [rels[0]] + FieldOf(rels[1..], attr)
    else FieldOf(rels[1..], attr)
  }

  lemma {:induction false} FieldOfConcat(a: seq<Relation>, b: seq<Relation>, attr: Name)
    ensures FieldOf(a + b, attr) == FieldOf(a, attr) + FieldOf(b, attr)
    decreases |a|
  {
    if a == [] {
      assert a + b == b;
    } else {
      assert (a + b)[1..] == a[1..] + b;
      FieldOfConcat(a[1..], b, attr);
    }
  }

  lemma FieldOfWithout(b: seq<Relation>, k: nat, attr: Name)
    requires k < |b|
    ensures multiset(FieldOf(b, attr)) == multiset(FieldOf(b[..k] + b[k + 1..], attr)) + multiset(FieldOf([b[k]], attr))
  {
    assert b == b[..k] + ([b[k]] + b[k + 1..]);
    FieldOfConcat(b[..k], [b[k]] + b[k + 1..], attr);
    FieldOfConcat([b[k]], b[k + 1..], attr);
    FieldOfConcat(b[..k], b[k + 1..], attr);
  }

  lemma {:induction false} FieldOfPermuted(a: seq<Relation>, b: seq<Relation>, attr: Name)
    requires multiset(a) == multiset(b)
    ensures multiset(FieldOf(a, attr)) == multiset(FieldOf(b, attr))
    decreases |a|
  {
    hide FieldOf;
    if a == [] {
      EmptyPermutation(b);
    } else {
      var k := TakeFirst(a, b);
      FieldOfWithout(b, k, attr);
      FieldOfWithout(a, 0, attr);
      assert a[..0] + a[1..] == a[1..];
      FieldOfPermuted(a[1..], b[..k] + b[k + 1..], attr);
    }
  }

  lemma LeastIsFirst(rels: seq<Relation>, x: Relation)
    requires Sorted(rels) && x in rels
    ensures rels[0].order <= x.order
  {
    var k :| 0 <= k < |rels| && rels[k] == x;
  }

  lemma {:induction false} FieldOfSorted(rels: seq<Relation>, attr: Name)
    requires Sorted(rels)
    ensures Sorted(FieldOf(rels, attr))
    decreases |rels|
  {
    if rels != [] {
      FieldOfSorted(rels[1..], attr);
      var rest := FieldOf(rels[1..], attr);
      forall i | 0 <= i < |rest|
        ensures rels[0].order <= rest[i].order
      {
        assert rest[i] in rest && rest[i] in rels[1..];
        LeastIsFirst(rels, rest[i]);
      }
    }
  }

  predicate StrictlySorted(rels: seq<Relation>) {
    forall i, j | 0 <= i < j < |rels| :: rels[i].order < rels[j].order
  }

  lemma LeastComesFirst(a: seq<Relation>, b: seq<Relation>, k: nat)
    requires Sorted(a) && StrictlySorted(b) && multiset(a) == multiset(b)
    requires a != [] && k < |b| && b[k] == a[0]
    ensures k == 0
  {
    assert b[0] in multiset(a);
    var j :| 0 <= j < |a| && a[j] == b[0];
    assert a[0].order <= a[j].order;
  }

  lemma SameFirst(a: seq<Relation>, b: seq<Relation>)
    requires Sorted(a) && StrictlySorted(b) && multiset(a) == multiset(b) && a != []
    ensures b != [] && a[0] == b[0] && multiset(a[1..]) == multiset(b[1..])
  {
    var k := TakeFirst(a, b);
    LeastComesFirst(a, b, k);
    assert b[..0] + b[1..] == b[1..];
  }

  lemma TailsAreSorted(a: seq<Relation>, b: seq<Relation>)
    requires Sorted(a) && StrictlySorted(b) && a != [] && b != []
    ensures Sorted(a[1..]) && StrictlySorted(b[1..])
  {
  }

  /** There is one way to sort relations of different orders. */
  lemma {:induction false} SortedIsUnique(a: seq<Relation>, b: seq<Relation>)
    requires Sorted(a) && StrictlySorted(b) && multiset(a) == multiset(b)
    ensures a == b
    decreases |a|
  {
    hide Sorted, StrictlySorted;
    if a == [] {
      EmptyPermutation(b);
    } else {
      SameFirst(a, b);
      TailsAreSorted(a, b);
      SortedIsUnique(a[1..], b[1..]);
      assert a == [a[0]] + a[1..] && b == [b[0]] + b[1..];
    }
  }

  lemma {:induction false} FieldRelationsFacts(attr: Name, bs: seq<Block>, first: nat)
    ensures var r := FieldRelations(attr, bs, first);
      && |r| == |bs| && StrictlySorted(r)
      && forall k | 0 <= k < |r| :: r[k] == Relation(bs[k].id, first + k, attr)
    decreases |bs|
  {
    if bs != [] {
      FieldRelationsFacts(attr, bs[1..], first + 1);
    }
  }

  lemma {:induction false} FieldOfAll(rels: seq<Relation>, own: Name, attr: Name)
    requires forall x | x in rels :: x.attr == own
    ensures FieldOf(rels, attr) == if own == attr then rels else []
    decreases |rels|
  {
    if rels != [] {
      assert rels[0] in rels;
      FieldOfAll(rels[1..], own, attr);
    }
  }

  lemma {:induction false} FieldOfRelations(fs: seq<BlockField>, ls: seq<Link>, i: nat)
    requires |fs| == |ls| && i < |fs| && forall i, j | 0 <= i < j < |fs| :: fs[i].name != fs[j].name
    ensures FieldOf(Relations(fs, ls), fs[i].name) == FieldRelations(fs[i].name, ls[i].blocks, 0)
    decreases |fs|
  {
    var first := FieldRelations(fs[0].name, ls[0].blocks, 0);
    FieldRelationsFacts(fs[0].name, ls[0].blocks, 0);
    FieldOfConcat(first, Relations(fs[1..], ls[1..]), fs[i].name);
    FieldOfAll(first, fs[0].name, fs[i].name);
    if i == 0 {
      FieldOfNone(fs[1..], ls[1..], fs[0].name);
    } else {
      FieldOfRelations(fs[1..], ls[1..], i - 1);
    }
  }

  lemma {:induction false} FieldOfNone(fs: seq<BlockField>, ls: seq<Link>, attr: Name)
    requires |fs| == |ls| && forall i | 0 <= i < |fs| :: fs[i].name != attr
    ensures FieldOf(Relations(fs, ls), attr) == []
    decreases |fs|
  {
    if fs != [] {
      var first := FieldRelations(fs[0].name, ls[0].blocks, 0);
      FieldRelationsFacts(fs[0].name, ls[0].blocks, 0);
      FieldOfConcat(first, Relations(fs[1..], ls[1..]), attr);
      FieldOfAll(first, fs[0].name, attr);
      FieldOfNone(fs[1..], ls[1..], attr);
    }
  }

  /** The relations of one field come back in order, whatever the order of the others. */
  lemma QueueKeepsFields(env: Env, fs: seq<BlockField>, ls: seq<Link>, i: nat)
    requires GoodEnv(env) && |fs| == |ls| && i < |fs| && forall i, j | 0 <= i < j < |fs| :: fs[i].name != fs[j].name
    ensures FieldOf(env.queue(Relations(fs, ls)), fs[i].name) == FieldRelations(fs[i].name, ls[i].blocks, 0)
  {
    var rels := Relations(fs, ls);
    var q := env.queue(rels);
    assert multiset(q) == multiset(rels) && Sorted(q);
    FieldOfPermuted(q, rels, fs[i].name);
    FieldOfSorted(q, fs[i].name);
    FieldOfRelations(fs, ls, i);
    FieldRelationsFacts(fs[i].name, ls[i].blocks, 0);
    SortedIsUnique(FieldOf(q, fs[i].name), FieldRelations(fs[i].name, ls[i].blocks, 0));
  }

  // ---- and give each field its blocks -------------------------------------------------------------

  /** Every relation names a field, and no two have the same target. */
  predicate OneEach(rels: seq<Relation>) {
    && (forall x | x in rels :: x.attr != "")
    && (forall x, y | x in rels && y in rels :: x.target == y.target ==> x == y)
  }

  lemma InFieldMeans(rels: seq<Relation>, x: Relation, f: Name)
    requires OneEach(rels) && x in rels
    ensures InField(rels, x.target, f) <==> x.attr == f
  {
    assert x.attr in Attrs(rels, x.target);
  }

  lemma {:induction false} MatchingOfType(db: Db, sub: seq<Relation>, rels: seq<Relation>, t: Name, f: Name)
    requires OneEach(rels) && forall x | x in sub :: x in rels
    ensures Matching(OfType(db, sub, t), rels, f) == OfType(db, FieldOf(sub, f), t)
    decreases |sub|
  {
    hide InField, OneEach;
    if sub != [] {
      assert sub[0] in rels;
      InFieldMeans(rels, sub[0], f);
      assert forall x | x in sub[1..] :: x in sub;
      MatchingOfType(db, sub[1..], rels, t, f);
    }
  }

  lemma {:induction false} MatchingConcat(a: seq<Uuid>, b: seq<Uuid>, rels: seq<Relation>, f: Name)
    ensures Matching(a + b, rels, f) == Matching(a, rels, f) + Matching(b, rels, f)
    decreases |a|
  {
    hide InField;
    if a == [] {
      assert a + b == b;
    } else {
      assert (a + b)[1..] == a[1..] + b;
      MatchingConcat(a[1..], b, rels, f);
    }
  }

  lemma {:induction false} MatchingOfTypes(db: Db, rels: seq<Relation>, types: seq<Name>, f: Name)
    requires OneEach(rels)
    ensures Matching(OfTypes(db, rels, types), rels, f) == OfTypes(db, FieldOf(rels, f), types)
    decreases |types|
  {
    assert Matching([], rels, f) == [];
    hide Matching, OfType, FieldOf, OneEach;
    if types != [] {
      MatchingConcat(OfType(db, rels, types[0]), OfTypes(db, rels, types[1..]), rels, f);
      MatchingOfType(db, rels, rels, types[0], f);
      MatchingOfTypes(db, rels, types[1..], f);
    }
  }

  lemma {:induction false} TypesOfRelations(db: Db, attr: Name, bs: seq<Block>, first: nat, t: Name)
    requires forall b | b in bs :: b.id in db && db[b.id].block == b.name
    ensures OfType(db, FieldRelations(attr, bs, first), t) == Ids(ByType(bs, t))
    decreases |bs|
  {
    if bs != [] {
      assert bs[0] in bs;
      TypesOfRelations(db, attr, bs[1..], first + 1, t);
    }
  }

  lemma {:induction false} GroupsOfRelations(db: Db, attr: Name, bs: seq<Block>, types: seq<Name>)
    requires forall b | b in bs :: b.id in db && db[b.id].block == b.name
    ensures OfTypes(db, FieldRelations(attr, bs, 0), types) == Ids(Grouped(bs, types))
    decreases |types|
  {
    hide OfType, ByType, FieldRelations;
    if types != [] {
      TypesOfRelations(db, attr, bs, 0, types[0]);
      GroupsOfRelations(db, attr, bs, types[1..]);
    }
  }

  /** The relations of a block are one for each of its kids, and name a field of the block. */
  lemma {:induction false} RelationsOfKids(fs: seq<BlockField>, ls: seq<Link>)
    requires |fs| == |ls| && forall i | 0 <= i < |fs| :: fs[i].name != ""
    ensures |Relations(fs, ls)| == |Kids(ls)|
    ensures forall k | 0 <= k < |Kids(ls)| ::
      Relations(fs, ls)[k].target == Kids(ls)[k].id && Relations(fs, ls)[k].attr != ""
    decreases |fs|
  {
    if fs != [] {
      FieldRelationsFacts(fs[0].name, ls[0].blocks, 0);
      RelationsOfKids(fs[1..], ls[1..]);
    }
  }

  /** Every kid has its row. */
  predicate KidsThere(db: Db, b: Block) {
    forall x | x in Kids(b.links) :: x.id in db && db[x.id].block == x.name
  }

  lemma {:induction false} RelationsOneEach(fs: seq<BlockField>, ls: seq<Link>, q: seq<Relation>)
    requires |fs| == |ls| && (forall i | 0 <= i < |fs| :: fs[i].name != "") && Distinct(Ids(Kids(ls)))
    requires multiset(q) == multiset(Relations(fs, ls))
    ensures OneEach(q)
  {
    hide Relations, Kids;
    var kids, rels := Kids(ls), Relations(fs, ls);
    RelationsOfKids(fs, ls);
    SameElements(q, rels);
    forall x, y | x in q && y in q && x.target == y.target
      ensures x == y
    {
      var i :| 0 <= i < |rels| && rels[i] == x;
      var j :| 0 <= j < |rels| && rels[j] == y;
      assert Ids(kids)[i] == Ids(kids)[j];
    }
  }

  lemma RelationsUse(db: Db, b: Block, fs: seq<BlockField>, q: seq<Relation>)
    requires |fs| == |b.links| && (forall i | 0 <= i < |fs| :: fs[i].name != "") && KidsThere(db, b)
    requires multiset(q) == multiset(Relations(fs, b.links))
    ensures BlocksUsed(db, q) == Used(b)
  {
    hide Relations, Kids;
    var kids, rels := Kids(b.links), Relations(fs, b.links);
    RelationsOfKids(fs, b.links);
    SameElements(q, rels);
    SameElements(rels, q);
    forall n | n in Used(b)
      ensures n in BlocksUsed(db, q)
    {
      var k :| 0 <= k < |kids| && kids[k].name == n;
      assert rels[k] in q && db[rels[k].target].block == n;
    }
    forall n | n in BlocksUsed(db, q)
      ensures n in Used(b)
    {
      var x :| x in q && x.target in db && db[x.target].block == n;
      var k :| 0 <= k < |rels| && rels[k] == x;
      assert kids[k] in kids && kids[k].name == n;
    }
  }

  /** The relations of a saved block give each field its blocks. */
  lemma RelationsRead(env: Env, db: Db, b: Block)
    requires GoodEnv(env) && BlockFits(env, b) && KidsThere(db, b) && Distinct(Ids(Kids(b.links)))
    requires b.id in db && db[b.id].relations == Relations(env.classes[b.name].blocks, b.links)
    ensures TailStored(env, db, b)
  {
    hide GoodEnv, Matching, OfTypes, FieldOf, Grouped, BlocksUsed, Used, OneEach, Distinct, Relations, FieldRelations;
    var fs, rels := env.classes[b.name].blocks, env.queue(db[b.id].relations);
    ClassIsGood(env, b.name);
    GoodOrder(env, [], Relations(fs, b.links));
    RelationsOneEach(fs, b.links, rels);
    RelationsUse(db, b, fs, rels);
    RelationsOfKids(fs, b.links);
    forall x | x in Relations(fs, b.links)
      ensures x.target in Ids(Kids(b.links))
    {
      var k :| 0 <= k < |Relations(fs, b.links)| && Relations(fs, b.links)[k] == x;
      assert Ids(Kids(b.links))[k] == x.target;
    }
    forall i | 0 <= i < |fs|
      ensures Members(db, rels, fs[i]) == Ids(Grouped(b.links[i].blocks, fs[i].types))
    {
      MatchingOfTypes(db, rels, fs[i].types, fs[i].name);
      QueueKeepsFields(env, fs, b.links, i);
      forall x | x in b.links[i].blocks
        ensures x in Kids(b.links)
      {
        InLinks(env, b.links, i, x);
      }
      GroupsOfRelations(db, fs[i].name, b.links[i].blocks, fs[i].types);
    }
  }

  // ---- what saving keeps --------------------------------------------------------------------------

  /** Relations point to instances that exist. */
  predicate Referential(db: Db) {
    forall id, x | id in db && x in db[id].relations :: x.target in db
  }

  /** One id, one block. */
  ghost predicate Consistent(world: set<Block>) {
    forall x, y | x in world && y in world && x.id == y.id :: x == y
  }

  /** The database can hold the blocks: relations point to instances, and an instance that there is for a
      block is of its product block. */
  ghost predicate Sound(db: Db, world: set<Block>) {
    Referential(db) && forall n | n in world && n.id in db :: db[n.id].block == n.name
  }

  /** Blocks of other subscriptions are as they are stored, with all below them. */
  ghost predicate ForeignStored(env: Env, db: Db, sub: Uuid, world: set<Block>) {
    forall n | n in world && n.owner != sub :: AllStored(env, db, Nodes(n))
  }

  /** What the rows said of a block they still say. */
  ghost predicate Keeps(env: Env, before: Db, after: Db, world: set<Block>) {
    && Grows(before, after)
    && (forall n | n in world && HeadStored(env, before, n) :: HeadStored(env, after, n))
    && (forall n | n in world && TailStored(env, before, n) :: TailStored(env, after, n))
  }

  lemma KeepsItself(env: Env, db: Db, world: set<Block>)
    ensures Keeps(env, db, db, world)
  {
  }

  lemma KeepsHead(env: Env, before: Db, after: Db, world: set<Block>, n: Block)
    requires Keeps(env, before, after, world) && n in world && HeadStored(env, before, n)
    ensures HeadStored(env, after, n)
  {
  }

  lemma KeepsThere(env: Env, before: Db, after: Db, world: set<Block>, id: Uuid)
    requires Keeps(env, before, after, world) && id in before
    ensures id in after
  {
  }

  lemma HeadIsThere(env: Env, db: Db, n: Block)
    requires HeadStored(env, db, n)
    ensures n.id in db
  {
  }

  lemma TailIsThere(env: Env, db: Db, n: Block)
    requires TailStored(env, db, n)
    ensures n.id in db
  {
  }

  lemma KeepsStored(env: Env, before: Db, after: Db, world: set<Block>, nodes: set<Block>)
    requires Keeps(env, before, after, world) && nodes <= world && AllStored(env, before, nodes)
    ensures AllStored(env, after, nodes)
  {
    hide HeadStored, TailStored;
  }

  lemma KeepsForeign(env: Env, before: Db, after: Db, sub: Uuid, world: set<Block>)
    requires Keeps(env, before, after, world) && ForeignStored(env, before, sub, world) && Closed(world)
    ensures ForeignStored(env, after, sub, world)
  {
    hide AllStored, Nodes, Keeps;
    forall n | n in world && n.owner != sub
      ensures AllStored(env, after, Nodes(n))
    {
      KeepsStored(env, before, after, world, Nodes(n));
    }
  }

  /** All below a block of the world is in the world. */
  ghost predicate Closed(world: set<Block>) {
    forall n | n in world :: Nodes(n) <= world
  }

  lemma KeepsTrans(env: Env, a: Db, b: Db, c: Db, world: set<Block>)
    requires Keeps(env, a, b, world) && Keeps(env, b, c, world)
    ensures Keeps(env, a, c, world)
  {
    hide HeadStored, TailStored;
  }

  /** The targets of the relations are there before and after, for the same product blocks. */
  predicate SameTargets(before: Db, after: Db, rels: seq<Relation>) {
    forall x | x in rels ::
      x.target in before && x.target in after && after[x.target].block == before[x.target].block
  }

  lemma {:induction false} OfTypeSame(before: Db, after: Db, rels: seq<Relation>, t: Name)
    requires SameTargets(before, after, rels)
    ensures OfType(before, rels, t) == OfType(after, rels, t)
    decreases |rels|
  {
    if rels != [] {
      assert rels[0] in rels;
      OfTypeSame(before, after, rels[1..], t);
    }
  }

  lemma {:induction false} OfTypesSame(before: Db, after: Db, rels: seq<Relation>, types: seq<Name>)
    requires SameTargets(before, after, rels)
    ensures OfTypes(before, rels, types) == OfTypes(after, rels, types)
    decreases |types|
  {
    hide OfType;
    if types != [] {
      OfTypeSame(before, after, rels, types[0]);
      OfTypesSame(before, after, rels, types[1..]);
    }
  }

  /** A row with the same relations gives each field the same blocks as before. */
  lemma TailKept(env: Env, before: Db, after: Db, n: Block)
    requires GoodEnv(env) && TailStored(env, before, n)
    requires n.id in after && after[n.id].relations == before[n.id].relations
    requires SameTargets(before, after, before[n.id].relations)
    ensures TailStored(env, after, n)
  {
    hide OfTypes, Matching, Grouped, GoodEnv, Used;
    var fs, row := env.classes[n.name].blocks, before[n.id];
    var rels := env.queue(row.relations);
    GoodOrder(env, [], row.relations);
    SameElements(rels, row.relations);
    forall i | 0 <= i < |fs|
      ensures Members(before, rels, fs[i]) == Members(after, rels, fs[i])
    {
      OfTypesSame(before, after, rels, fs[i].types);
    }
    assert BlocksUsed(before, rels) == BlocksUsed(after, rels);
  }

  /** Writing a block's own row says what the block is. */
  lemma HeadWritten(env: Env, db: Db, sub: Uuid, b: Block, world: set<Block>)
    requires GoodEnv(env) && BlockFits(env, b) && b in world && b.owner == sub
    requires Consistent(world) && Sound(db, world)
    ensures var after := db[b.id := Headed(env, db, sub, b)];
      Sound(after, world) && Keeps(env, db, after, world) && HeadStored(env, after, b)
  {
    hide SavedValues, Holds, GoodEnv, TailStored;
    var row := Headed(env, db, sub, b);
    var after := db[b.id := row];
    SavedHolds(env.classes[b.name].values, b.slots, env.arrange(RowOf(db, sub, b).values)) by {
      ClassIsGood(env, b.name);
    }
    assert HeadStored(env, after, b);
    forall n | n in world && TailStored(env, db, n)
      ensures TailStored(env, after, n)
    {
      TailIsThere(env, db, n);
      TailKept(env, db, after, n);
    }
  }

  /** Writing a block's relations says what it depends on. */
  lemma TailWritten(env: Env, db: Db, b: Block, world: set<Block>)
    requires GoodEnv(env) && BlockFits(env, b) && b in world && b.id in db
    requires Consistent(world) && Sound(db, world)
    requires KidsThere(db, b) && Distinct(Ids(Kids(b.links)))
    ensures var after := Linked(env, db, b);
      Sound(after, world) && Keeps(env, db, after, world) && TailStored(env, after, b)
  {
    hide Relations, Holds, GoodEnv, TailStored, Kids;
    var fs, after := env.classes[b.name].blocks, Linked(env, db, b);
    assert Referential(after) by {
      ClassIsGood(env, b.name);
      RelationsOfKids(fs, b.links);
      forall x | x in Relations(fs, b.links)
        ensures x.target in after
      {
        var k :| 0 <= k < |Relations(fs, b.links)| && Relations(fs, b.links)[k] == x;
        assert Kids(b.links)[k] in Kids(b.links);
      }
    }
    RelationsRead(env, after, b);
    forall n | n in world && TailStored(env, db, n)
      ensures TailStored(env, after, n)
    {
      if n.id != b.id {
        TailIsThere(env, db, n);
        TailKept(env, db, after, n);
      }
    }
  }

  // ---- when saving succeeds -----------------------------------------------------------------------

  /** No block that is saved would link another one twice. */
  predicate Savable(sub: Uuid, b: Block)
    decreases b, 1
  {
    b.owner != sub || (Distinct(Ids(Kids(b.links))) && LinksSavable(sub, b.links))
  }

  predicate LinksSavable(sub: Uuid, ls: seq<Link>)
    decreases ls
  {
    ls == [] || (ListSavable(sub, ls[0].blocks) && LinksSavable(sub, ls[1..]))
  }

  predicate ListSavable(sub: Uuid, bs: seq<Block>)
    decreases bs
  {
    bs == [] || (Savable(sub, bs[0]) && ListSavable(sub, bs[1..]))
  }

  // ---- saving the tree ----------------------------------------------------------------------------

  /** The database and the blocks that are saved in it. */
  ghost predicate Ready(env: Env, db: Db, sub: Uuid, world: set<Block>) {
    GoodEnv(env) && Consistent(world) && Closed(world) && Sound(db, world) && ForeignStored(env, db, sub, world)
  }

  ghost predicate Stores(env: Env, db: Db, s: Saved, world: set<Block>, nodes: set<Block>) {
    s.ok ==> Sound(s.db, world) && Keeps(env, db, s.db, world) && AllStored(env, s.db, nodes)
  }

  lemma {:induction false} BlockStores(env: Env, db: Db, sub: Uuid, b: Block, world: set<Block>)
    requires Fits(env, b) && Nodes(b) <= world && Ready(env, db, sub, world)
    ensures var s := SaveBlock(env, db, sub, b);
      (s.ok <==> Savable(sub, b)) && Stores(env, db, s, world, Nodes(b))
    decreases b, 1
  {
    hide GoodEnv, Consistent, Closed, Sound, HeadStored, TailStored, Kids, Keeps, Ids, Headed, Linked, LinksAllFit;
    assert b in Nodes(b);
    if b.owner != sub {
      assert AllStored(env, db, Nodes(b)) && Stored(env, db, b);
      HeadIsThere(env, db, b);
      KeepsItself(env, db, world);
    } else {
      var first := db[b.id := Headed(env, db, sub, b)];
      HeadWritten(env, db, sub, b, world);
      KeepsForeign(env, db, first, sub, world);
      if Distinct(Ids(Kids(b.links))) {
        FieldsStore(env, first, sub, b.links, world);
        var s := SaveFields(env, first, sub, b.links);
        if s.ok {
          KidsAreThere(env, s.db, b);
          KeepsThere(env, first, s.db, world, b.id);
          TailWritten(env, s.db, b, world);
          var last := Linked(env, s.db, b);
          KeepsTrans(env, db, first, s.db, world);
          KeepsTrans(env, db, s.db, last, world);
          KeepsStored(env, s.db, last, world, LinkNodes(b.links));
          KeepsHead(env, first, s.db, world, b);
          KeepsHead(env, s.db, last, world, b);
        }
      }
    }
  }

  lemma KidsAreThere(env: Env, db: Db, b: Block)
    requires AllStored(env, db, LinkNodes(b.links))
    ensures KidsThere(db, b)
  {
    hide TailStored;
    forall x | x in Kids(b.links)
      ensures x.id in db && db[x.id].block == x.name
    {
      KidIsNode(b.links, x);
      assert Stored(env, db, x);
    }
  }

  lemma {:induction false} KidIsNode(ls: seq<Link>, x: Block)
    requires x in Kids(ls)
    ensures x in LinkNodes(ls)
    decreases |ls|
  {
    if x in ls[0].blocks {
      ListedIsNode(ls[0].blocks, x);
    } else {
      KidIsNode(ls[1..], x);
    }
  }

  lemma {:induction false} ListedIsNode(bs: seq<Block>, x: Block)
    requires x in bs
    ensures x in ListNodes(bs)
    decreases |bs|
  {
    if x != bs[0] {
      ListedIsNode(bs[1..], x);
    }
  }

  lemma {:induction false} FieldsStore(env: Env, db: Db, sub: Uuid, ls: seq<Link>, world: set<Block>)
    requires LinksAllFit(env, ls) && LinkNodes(ls) <= world && Ready(env, db, sub, world)
    ensures var s := SaveFields(env, db, sub, ls);
      (s.ok <==> LinksSavable(sub, ls)) && Stores(env, db, s, world, LinkNodes(ls))
    decreases ls
  {
    hide GoodEnv, Consistent, Closed, Sound, HeadStored, TailStored, Keeps, ForeignStored, SaveAll, ListSavable,
        ListNodes, AllFit;
    if ls == [] {
      KeepsItself(env, db, world);
    } else {
      ListStores(env, db, sub, ls[0].blocks, world);
      var s := SaveAll(env, db, sub, ls[0].blocks);
      if s.ok {
        KeepsForeign(env, db, s.db, sub, world);
        FieldsStore(env, s.db, sub, ls[1..], world);
        var rest := SaveFields(env, s.db, sub, ls[1..]);
        if rest.ok {
          KeepsTrans(env, db, s.db, rest.db, world);
          KeepsStored(env, s.db, rest.db, world, ListNodes(ls[0].blocks));
        }
      }
    }
  }

  lemma {:induction false} ListStores(env: Env, db: Db, sub: Uuid, bs: seq<Block>, world: set<Block>)
    requires AllFit(env, bs) && ListNodes(bs) <= world && Ready(env, db, sub, world)
    ensures var s := SaveAll(env, db, sub, bs);
      (s.ok <==> ListSavable(sub, bs)) && Stores(env, db, s, world, ListNodes(bs))
    decreases bs, 0
  {
    hide GoodEnv, Consistent, Closed, Sound, HeadStored, TailStored, Keeps, ForeignStored, SaveBlock, Savable, Nodes,
        Fits;
    if bs == [] {
      KeepsItself(env, db, world);
    } else {
      BlockStores(env, db, sub, bs[0], world);
      var s := SaveBlock(env, db, sub, bs[0]);
      if s.ok {
        KeepsForeign(env, db, s.db, sub, world);
        ListStores(env, s.db, sub, bs[1..], world);
        var rest := SaveAll(env, s.db, sub, bs[1..]);
        if rest.ok {
          KeepsTrans(env, db, s.db, rest.db, world);
          KeepsStored(env, s.db, rest.db, world, Nodes(bs[0]));
        }
      }
    }
  }
}
