/** What saving a tree of product blocks leaves in the database is loaded as that tree, exactly when no
    list field is fused with another one. */
module DomainRoundTrip {
  import opened Wrappers
  import opened DomainTypes
  import opened DomainValues
  import opened DomainSave
  import opened DomainLoad
  import opened Sequences

  // ---- the tree that comes back -------------------------------------------------------------------

  function ByType(bs: seq<Block>, t: Name): (r: seq<Block>)
    ensures forall x | x in r :: x in bs && x.name == t
  {
    if bs == [] then []
    else if bs[0].name == t then [bs[0]] + ByType(bs[1..], t)
    else ByType(bs[1..], t)
  }

  /** The blocks of a list, one type after the other. */
  function Grouped(bs: seq<Block>, types: seq<Name>): (r: seq<Block>)
    ensures forall x | x in r :: x in bs
  {
    if types == [] then [] else ByType(bs, types[0]) + Grouped(bs, types[1..])
  }

  /** The same block, but for the order of lists of values, and of lists of blocks of several types. */
  predicate Restored(env: Env, b: Block, c: Block)
    decreases b
  {
    && b.name in env.classes
    && |b.links| == |c.links| == |env.classes[b.name].blocks|
    && c == b.(slots := c.slots, links := c.links)
    && SameSlots(b.slots, c.slots)
    && forall i | 0 <= i < |b.links| ::
         var bs := Grouped(b.links[i].blocks, env.classes[b.name].blocks[i].types);
         && |bs| == |c.links[i].blocks|
         && forall k | 0 <= k < |bs| ::
                 assert bs[k] in b.links[i].blocks;
                 Restored(env, bs[k], c.links[i].blocks[k])
  }

  /** The product blocks that a block uses. */
  function Used(b: Block): set<Name> {
    set k | k in Kids(b.links) :: k.name
  }

  /** Fields of the block that share one list hold nothing. */
  predicate Clear(env: Env, b: Block) {
    b.name in env.classes && |b.links| == |env.classes[b.name].blocks| &&
    forall i, j | 0 <= i < j < |b.links| && SharesList(env.classes[b.name].blocks, Used(b), i, j) ::
      b.links[i].blocks == [] && b.links[j].blocks == []
  }

  // ---- what the rows of a block must say ----------------------------------------------------------

  predicate HeadStored(env: Env, db: Db, b: Block) {
    && b.id in db && b.name in env.classes
    && var row := db[b.id];
       && row.subscription == b.owner && row.block == b.name && row.labelText == b.labelText
       && Holds(env.classes[b.name].values, b.slots, row.values)
  }

  predicate TailStored(env: Env, db: Db, b: Block) {
    && b.id in db && b.name in env.classes && |b.links| == |env.classes[b.name].blocks|
    && var fs, rels := env.classes[b.name].blocks, env.queue(db[b.id].relations);
       && (forall x | x in db[b.id].relations :: x.target in Ids(Kids(b.links)))
       && BlocksUsed(db, rels) == Used(b)
       && forall i | 0 <= i < |fs| :: Members(db, rels, fs[i]) == Ids(Grouped(b.links[i].blocks, fs[i].types))
  }

  /** The rows of the block say what the block is. */
  predicate Stored(env: Env, db: Db, b: Block) {
    HeadStored(env, db, b) && TailStored(env, db, b)
  }

  // ---- depth and nodes ----------------------------------------------------------------------------

  function Max(a: nat, b: nat): nat {
    if a < b then b else a
  }

  function Depth(b: Block): nat
    decreases b, 1
  {
    1 + LinksDepth(b.links)
  }

  function LinksDepth(ls: seq<Link>): nat
    decreases ls
  {
    if ls == [] then 0 else Max(ListDepth(ls[0].blocks), LinksDepth(ls[1..]))
  }

  function ListDepth(bs: seq<Block>): nat
    decreases bs
  {
    if bs == [] then 0 else Max(Depth(bs[0]), ListDepth(bs[1..]))
  }

  /** A block of a list is shallower than the list, its nodes are among those of the list, and it fits. */
  lemma {:induction false} InList(env: Env, bs: seq<Block>, x: Block)
    requires x in bs
    ensures Depth(x) <= ListDepth(bs) && Nodes(x) <= ListNodes(bs)
    ensures AllFit(env, bs) ==> Fits(env, x)
    decreases |bs|
  {
    hide Depth, Nodes, Fits;
    if x != bs[0] {
      InList(env, bs[1..], x);
    }
  }

  lemma {:induction false} InLinks(env: Env, ls: seq<Link>, i: nat, x: Block)
    requires i < |ls| && x in ls[i].blocks
    ensures Depth(x) <= LinksDepth(ls) && Nodes(x) <= LinkNodes(ls)
    ensures LinksAllFit(env, ls) ==> Fits(env, x)
    ensures x in Kids(ls)
    decreases |ls|
  {
    hide Depth, Nodes, Fits;
    if i == 0 {
      InList(env, ls[0].blocks, x);
    } else {
      InLinks(env, ls[1..], i - 1, x);
    }
  }

  /** Every node below a block is a node of one of its kids. */
  lemma {:induction false} NodeOfList(bs: seq<Block>, n: Block) returns (k: nat)
    requires n in ListNodes(bs)
    ensures k < |bs| && n in Nodes(bs[k])
    decreases |bs|
  {
    hide Nodes;
    if n in Nodes(bs[0]) {
      k := 0;
    } else {
      k := NodeOfList(bs[1..], n);
      k := k + 1;
    }
  }

  lemma {:induction false} NodeOfLinks(ls: seq<Link>, n: Block) returns (i: nat, k: nat)
    requires n in LinkNodes(ls)
    ensures i < |ls| && k < |ls[i].blocks| && n in Nodes(ls[i].blocks[k])
    decreases |ls|
  {
    hide Nodes, ListNodes;
    if n in ListNodes(ls[0].blocks) {
      i := 0;
      k := NodeOfList(ls[0].blocks, n);
    } else {
      i, k := NodeOfLinks(ls[1..], n);
      i := i + 1;
    }
  }

  // ---- grouping -----------------------------------------------------------------------------------

  lemma {:induction false} GroupedCons(bs: seq<Block>, types: seq<Name>)
    requires bs != [] && Distinct(types)
    ensures |Grouped(bs, types)| == |Grouped(bs[1..], types)| + if bs[0].name in types then 1 else 0
    decreases |types|
  {
    if types != [] {
      GroupedCons(bs, types[1..]);
    }
  }

  /** Grouping loses no block. */
  lemma {:induction false} GroupedLength(bs: seq<Block>, types: seq<Name>)
    requires Distinct(types) && forall b | b in bs :: b.name in types
    ensures |Grouped(bs, types)| == |bs|
    decreases |bs|
  {
    if bs == [] {
      GroupedNone(types);
    } else {
      GroupedCons(bs, types);
      GroupedLength(bs[1..], types);
    }
  }

  lemma {:induction false} GroupedNone(types: seq<Name>)
    ensures Grouped([], types) == []
  {
    if types != [] {
      GroupedNone(types[1..]);
    }
  }

  lemma {:induction false} GroupedHas(bs: seq<Block>, types: seq<Name>, b: Block)
    requires b in bs && b.name in types
    ensures b in Grouped(bs, types)
    decreases |types|
  {
    if types[0] == b.name {
      ByTypeHas(bs, b);
    } else {
      GroupedHas(bs, types[1..], b);
    }
  }

  lemma {:induction false} ByTypeHas(bs: seq<Block>, b: Block)
    requires b in bs
    ensures b in ByType(bs, b.name)
    decreases |bs|
  {
    if bs[0] != b {
      ByTypeHas(bs[1..], b);
    }
  }

  /** The order of a list of one type stays. */
  lemma {:induction false} GroupedSingle(bs: seq<Block>, t: Name)
    requires forall b | b in bs :: b.name == t
    ensures Grouped(bs, [t]) == bs
    decreases |bs|
  {
    assert [t][1..] == [];
    assert Grouped(bs, [t]) == ByType(bs, t) + [];
    if bs != [] {
      assert bs[0] in bs;
      GroupedSingle(bs[1..], t);
      assert Grouped(bs[1..], [t]) == ByType(bs[1..], t) + [];
    }
  }

  // ---- lists that are fused -----------------------------------------------------------------------

  predicate Together(fs: seq<BlockField>, used: set<Name>, i: nat, j: nat) {
    SharesList(fs, used, i, j) || SharesList(fs, used, j, i)
  }

  /** A list holds at least what any two fields that share it have. */
  lemma {:induction false} SharedAtLeast(
    fs: seq<BlockField>, used: set<Name>, own: seq<seq<Block>>, i: nat, n: nat, a: nat, b: nat)
    requires i < |fs| && n <= |own| <= |fs| && a < b < n
    requires Together(fs, used, i, a) && Together(fs, used, i, b)
    ensures |Shared(fs, used, own, i, n)| >= |own[a]| + |own[b]|
    decreases n
  {
    hide SharesList;
    if b < n - 1 {
      SharedAtLeast(fs, used, own, i, n - 1, a, b);
    } else {
      SharedHas(fs, used, own, i, n - 1, a);
    }
  }

  lemma {:induction false} SharedHas(fs: seq<BlockField>, used: set<Name>, own: seq<seq<Block>>, i: nat, n: nat, a: nat)
    requires i < |fs| && n <= |own| <= |fs| && a < n && Together(fs, used, i, a)
    ensures |Shared(fs, used, own, i, n)| >= |own[a]|
    decreases n
  {
    hide SharesList;
    if a < n - 1 {
      SharedHas(fs, used, own, i, n - 1, a);
    }
  }

  /** A list that no other field puts something in holds what its own field has. */
  lemma {:induction false} SharedAlone(fs: seq<BlockField>, used: set<Name>, own: seq<seq<Block>>, i: nat, n: nat)
    requires i < |fs| && n <= |own| <= |fs| && fs[i].arity == Many
    requires forall j | 0 <= j < |own| && j != i && Together(fs, used, i, j) :: own[j] == []
    ensures Shared(fs, used, own, i, n) == if i < n then own[i] else []
    decreases n
  {
    if n > 0 {
      SharedAlone(fs, used, own, i, n - 1);
      assert SharesList(fs, used, i, i);
      assert Together(fs, used, i, n - 1) ==> n - 1 == i || own[n - 1] == [];
    }
  }

  // ---- loading what is stored ---------------------------------------------------------------------

  lemma {:induction false} LoadAllSplits(env: Env, db: Db, ids: seq<Uuid>, fuel: nat)
    ensures LoadAll(env, db, ids, fuel).Some? <==> forall k | 0 <= k < |ids| :: FromDb(env, db, ids[k], fuel).Some?
    ensures LoadAll(env, db, ids, fuel).Some? ==>
      forall k | 0 <= k < |ids| :: FromDb(env, db, ids[k], fuel) == Some(LoadAll(env, db, ids, fuel).value[k])
    decreases |ids|
  {
    hide FromDb;
    if ids != [] {
      LoadAllSplits(env, db, ids[1..], fuel);
      assert forall k | 0 <= k < |ids| - 1 :: ids[1..][k] == ids[k + 1];
      assert forall k | 1 <= k < |ids| :: ids[k] == ids[1..][k - 1];
    }
  }

  /** The instances of each field are few enough for the field. */
  predicate ArityHolds(f: BlockField, ids: seq<Uuid>) {
    (f.arity == One ==> |ids| == 1) && (f.arity == Maybe ==> |ids| <= 1)
  }

  lemma {:induction false} LoadFieldsSplits(env: Env, db: Db, rels: seq<Relation>, fs: seq<BlockField>, fuel: nat)
    requires forall i | 0 <= i < |fs| :: ArityHolds(fs[i], Members(db, rels, fs[i]))
    ensures LoadFields(env, db, rels, fs, fuel).Some? <==>
      forall i | 0 <= i < |fs| :: LoadAll(env, db, Members(db, rels, fs[i]), fuel).Some?
    ensures LoadFields(env, db, rels, fs, fuel).Some? ==>
      forall i | 0 <= i < |fs| ::
        LoadAll(env, db, Members(db, rels, fs[i]), fuel) == Some(LoadFields(env, db, rels, fs, fuel).value[i])
    decreases |fs|
  {
    hide LoadAll, Members;
    if fs != [] {
      assert ArityHolds(fs[0], Members(db, rels, fs[0]));
      assert forall i | 0 <= i < |fs| - 1 :: fs[1..][i] == fs[i + 1];
      LoadFieldsSplits(env, db, rels, fs[1..], fuel);
      assert forall i | 1 <= i < |fs| :: fs[i] == fs[1..][i - 1];
    }
  }

  /** The block is loaded as itself. */
  predicate Returns(env: Env, db: Db, b: Block, fuel: nat) {
    var r := FromDb(env, db, b.id, fuel);
    r.Some? && Restored(env, b, r.value)
  }

  predicate AllClear(env: Env, b: Block) {
    forall n | n in Nodes(b) :: Clear(env, n)
  }

  ghost predicate AllStored(env: Env, db: Db, nodes: set<Block>) {
    forall n | n in nodes :: Stored(env, db, n)
  }

  /** The kids of a block, in the order in which they are loaded. */
  function Lists(env: Env, b: Block): (r: seq<seq<Block>>)
    requires b.name in env.classes && |b.links| == |env.classes[b.name].blocks|
    ensures |r| == |b.links|
    ensures forall i, x | 0 <= i < |r| && x in r[i] :: x in b.links[i].blocks
  {
    seq(|b.links|, i requires 0 <= i < |b.links| =>
      Grouped(b.links[i].blocks, env.classes[b.name].blocks[i].types))
  }

  /** All is clear below a block when it is clear and all is clear below its kids. */
  lemma AllClearSplits(env: Env, b: Block)
    requires BlockFits(env, b)
    ensures AllClear(env, b) <==>
      && Clear(env, b)
      && forall i, k | 0 <= i < |b.links| && 0 <= k < |Lists(env, b)[i]| :: AllClear(env, Lists(env, b)[i][k])
  {
    hide Clear, Grouped;
    var lists := Lists(env, b);
    if AllClear(env, b) {
      forall i, k | 0 <= i < |b.links| && 0 <= k < |lists[i]|
        ensures AllClear(env, lists[i][k])
      {
        InLinks(env, b.links, i, lists[i][k]);
      }
    }
    if Clear(env, b) && forall i, k | 0 <= i < |b.links| && 0 <= k < |lists[i]| :: AllClear(env, lists[i][k]) {
      forall n | n in Nodes(b)
        ensures Clear(env, n)
      {
        if n != b {
          var i, k := NodeOfLinks(b.links, n);
          var x := b.links[i].blocks[k];
          GroupedHas(b.links[i].blocks, env.classes[b.name].blocks[i].types, x);
          assert x in lists[i];
        }
      }
    }
  }

  /** What is loaded for each field is the kids of that field. */
  lemma OwnLists(env: Env, db: Db, b: Block, fuel: nat) returns (own: Option<seq<seq<Block>>>)
    requires GoodEnv(env) && BlockFits(env, b) && TailStored(env, db, b)
    ensures own == LoadFields(env, db, env.queue(db[b.id].relations), env.classes[b.name].blocks, fuel)
    ensures var lists := Lists(env, b);
      && (forall i | 0 <= i < |lists| :: |lists[i]| == |b.links[i].blocks|)
      && (own.Some? <==>
            forall i, k | 0 <= i < |lists| && 0 <= k < |lists[i]| :: FromDb(env, db, lists[i][k].id, fuel).Some?)
      && (own.Some? ==>
            forall i | 0 <= i < |lists| :: |own.value[i]| == |lists[i]| &&
              forall k | 0 <= k < |lists[i]| :: FromDb(env, db, lists[i][k].id, fuel) == Some(own.value[i][k]))
  {
    hide FromDb, LoadFields, LoadAll, Members, Grouped;
    var fs, rels, lists := env.classes[b.name].blocks, env.queue(db[b.id].relations), Lists(env, b);
    own := LoadFields(env, db, rels, fs, fuel);
    forall i | 0 <= i < |fs|
      ensures Members(db, rels, fs[i]) == Ids(lists[i]) && |lists[i]| == |b.links[i].blocks|
    {
      GroupedLength(b.links[i].blocks, fs[i].types);
    }
    forall i | 0 <= i < |fs|
      ensures ArityHolds(fs[i], Members(db, rels, fs[i]))
    {
      assert LinkFits(fs[i], b.links[i]);
    }
    LoadFieldsSplits(env, db, rels, fs, fuel);
    forall i | 0 <= i < |fs|
      ensures var r := LoadAll(env, db, Members(db, rels, fs[i]), fuel);
        && (r.Some? <==> forall k | 0 <= k < |lists[i]| :: FromDb(env, db, lists[i][k].id, fuel).Some?)
        && (r.Some? ==>
              |r.value| == |lists[i]| &&
              forall k | 0 <= k < |lists[i]| :: FromDb(env, db, lists[i][k].id, fuel) == Some(r.value[k]))
    {
      LoadAllSplits(env, db, Members(db, rels, fs[i]), fuel);
      var ids := Members(db, rels, fs[i]);
      assert ids == Ids(lists[i]) && |ids| == |lists[i]|;
      assert forall k | 0 <= k < |lists[i]| :: lists[i][k].id == ids[k];
      assert forall k | 0 <= k < |ids| :: ids[k] == lists[i][k].id;
    }
  }

  lemma SharesWithItself(fs: seq<BlockField>, used: set<Name>, i: nat, j: nat)
    requires SharesList(fs, used, i, j)
    ensures SharesList(fs, used, i, i) && SharesList(fs, used, j, j) && fs[i].arity == fs[j].arity == Many
  {
  }

  /** A clear block holds what was loaded for each of its fields; another does not. */
  lemma HeldIsOwn(env: Env, b: Block, own: seq<seq<Block>>)
    requires BlockFits(env, b) && |own| == |b.links|
    requires forall i | 0 <= i < |own| :: |own[i]| == |b.links[i].blocks|
    ensures var fs := env.classes[b.name].blocks;
      Clear(env, b) <==> forall i | 0 <= i < |own| :: |Held(fs, Used(b), own, i)| == |own[i]|
    ensures var fs := env.classes[b.name].blocks;
      Clear(env, b) ==> forall i | 0 <= i < |own| :: Held(fs, Used(b), own, i) == own[i]
  {
    var fs, used := env.classes[b.name].blocks, Used(b);
    assert |fs| == |own|;
    hide Shared, SharesList, Used, LinksFit;
    if Clear(env, b) {
      forall i | 0 <= i < |own|
        ensures Held(fs, used, own, i) == own[i]
      {
        if fs[i].arity == Many {
          SharedAlone(fs, used, own, i, |own|);
        }
      }
    } else {
      var i, j :| 0 <= i < j < |b.links| && SharesList(fs, used, i, j)
        && !(b.links[i].blocks == [] && b.links[j].blocks == []);
      SharesWithItself(fs, used, i, j);
      assert Together(fs, used, i, i) && Together(fs, used, j, j);
      assert Together(fs, used, i, j) && Together(fs, used, j, i);
      SharedAtLeast(fs, used, own, i, |own|, i, j);
      SharedAtLeast(fs, used, own, j, |own|, i, j);
      assert |Held(fs, used, own, i)| != |own[i]| || |Held(fs, used, own, j)| != |own[j]|;
    }
  }

  /** All kids of a block are loaded as themselves. */
  predicate KidsReturn(env: Env, db: Db, b: Block, fuel: nat)
    requires b.name in env.classes && |b.links| == |env.classes[b.name].blocks|
  {
    var lists := Lists(env, b);
    forall i, k | 0 <= i < |lists| && 0 <= k < |lists[i]| :: Returns(env, db, lists[i][k], fuel)
  }

  /** One step: a block is loaded as itself when it is clear and its kids are loaded as themselves. */
  lemma StepBack(env: Env, db: Db, b: Block, fuel: nat)
    requires GoodEnv(env) && BlockFits(env, b) && Stored(env, db, b)
    ensures Returns(env, db, b, fuel + 1) <==> Clear(env, b) && KidsReturn(env, db, b, fuel)
  {
    hide LoadFields, Members, Grouped, Clear, Held, Of, LoadSlots, Holds, SlotsFit, Used, GoodEnv, BlocksUsed;
    var c, row := env.classes[b.name], db[b.id];
    var fs, rels, lists := c.blocks, env.queue(row.relations), Lists(env, b);
    var slots := LoadSlots(c.values, env.arrange(row.values));
    assert slots.Some? && SameSlots(b.slots, slots.value) by {
      GoodOrder(env, row.values, row.relations);
      HoldsPermuted(c.values, b.slots, row.values, env.arrange(row.values));
      HeldIsLoaded(c.values, b.slots, env.arrange(row.values));
    }
    var own := OwnLists(env, db, b, fuel);
    if own.Some? {
      HeldIsOwn(env, b, own.value);
      var links := Links(fs, Used(b), own.value);
      if Clear(env, b) {
        assert forall i | 0 <= i < |lists| :: links[i].blocks == own.value[i];
        if KidsReturn(env, db, b, fuel) {
          forall i | 0 <= i < |fs|
            ensures LinkFits(fs[i], links[i])
          {
            assert LinkFits(fs[i], b.links[i]);
            forall k | 0 <= k < |links[i].blocks|
              ensures links[i].blocks[k].name in fs[i].types
            {
              assert Returns(env, db, lists[i][k], fuel);
              assert lists[i][k] in b.links[i].blocks;
            }
          }
        }
      }
    }
  }

  /** Main theorem, first half: a tree whose rows are stored is loaded as itself exactly when all its
      blocks are clear. */
  lemma {:induction false} LoadsBack(env: Env, db: Db, b: Block, fuel: nat)
    requires GoodEnv(env) && Fits(env, b) && AllStored(env, db, Nodes(b)) && Depth(b) <= fuel
    ensures Returns(env, db, b, fuel) <==> AllClear(env, b)
    decreases b
  {
    hide Returns, Stored, Clear, AllClear, GoodEnv;
    StepBack(env, db, b, fuel - 1);
    AllClearSplits(env, b);
    var lists := Lists(env, b);
    forall i, k | 0 <= i < |lists| && 0 <= k < |lists[i]|
      ensures Returns(env, db, lists[i][k], fuel - 1) <==> AllClear(env, lists[i][k])
    {
      var x := lists[i][k];
      assert x in b.links[i].blocks;
      InLinks(env, b.links, i, x);
      LoadsBack(env, db, x, fuel - 1);
    }
  }

  // ---- what is loaded is there --------------------------------------------------------------------

  lemma {:induction false} SharedIsOwn(
    fs: seq<BlockField>, used: set<Name>, own: seq<seq<Block>>, i: nat, n: nat, x: Block)
    returns (j: nat)
    requires i < |fs| && n <= |own| <= |fs| && x in Shared(fs, used, own, i, n)
    ensures j < n && x in own[j]
    decreases n
  {
    hide SharesList;
    if x in own[n - 1] {
      j := n - 1;
    } else {
      j := SharedIsOwn(fs, used, own, i, n - 1, x);
    }
  }

  lemma {:induction false} OwnIsLoaded(env: Env, db: Db, rels: seq<Relation>, fs: seq<BlockField>, fuel: nat, j: nat,
      x: Block)
    returns (id: Uuid)
    requires var own := LoadFields(env, db, rels, fs, fuel); own.Some? && j < |fs| && x in own.value[j]
    ensures FromDb(env, db, id, fuel) == Some(x)
    decreases |fs|
  {
    hide FromDb, LoadAll, Members;
    if j == 0 {
      var ids := Members(db, rels, fs[0]);
      LoadAllSplits(env, db, ids, fuel);
      var own := LoadAll(env, db, ids, fuel).value;
      var k :| 0 <= k < |own| && own[k] == x;
      id := ids[k];
    } else {
      id := OwnIsLoaded(env, db, rels, fs[1..], fuel, j - 1, x);
    }
  }

  /** Every block below one that was loaded was loaded from a row of its own. */
  lemma {:induction false} LoadedIsThere(env: Env, db: Db, id: Uuid, fuel: nat, n: Block)
    requires var r := FromDb(env, db, id, fuel); r.Some? && n in Nodes(r.value)
    ensures n.id in db
    decreases fuel
  {
    hide LoadFields, LoadSlots, Shared, LinksFit, BlocksUsed, LinkNodes;
    var c := FromDb(env, db, id, fuel).value;
    if n != c {
      var i, k := NodeOfLinks(c.links, n);
      var x := c.links[i].blocks[k];
      var fs, rels := env.classes[db[id].block].blocks, env.queue(db[id].relations);
      var own := LoadFields(env, db, rels, fs, fuel - 1).value;
      var j := i;
      if fs[i].arity == Many {
        j := SharedIsOwn(fs, BlocksUsed(db, rels), own, i, |own|, x);
      }
      var from := OwnIsLoaded(env, db, rels, fs, fuel - 1, j, x);
      LoadedIsThere(env, db, from, fuel - 1, n);
    }
  }

  /** A block that comes back comes back with all blocks below it. */
  lemma {:induction false} RestoredHas(env: Env, b: Block, c: Block, n: Block) returns (m: Block)
    requires Fits(env, b) && Restored(env, b, c) && n in Nodes(b)
    ensures m in Nodes(c) && m.id == n.id
    decreases b
  {
    hide LinkNodes, Grouped, SameSlots, LinksAllFit;
    if n == b {
      m := c;
    } else {
      var i, k := NodeOfLinks(b.links, n);
      var x := b.links[i].blocks[k];
      var types := env.classes[b.name].blocks[i].types;
      assert LinkFits(env.classes[b.name].blocks[i], b.links[i]);
      GroupedHas(b.links[i].blocks, types, x);
      var bs := Grouped(b.links[i].blocks, types);
      var g :| 0 <= g < |bs| && bs[g] == x;
      InLinks(env, b.links, i, x);
      m := RestoredHas(env, x, c.links[i].blocks[g], n);
      InLinks(env, c.links, i, c.links[i].blocks[g]);
    }
  }

  /** Every block of a tree that is loaded as itself has a row. */
  lemma ReturnedIsThere(env: Env, db: Db, b: Block, fuel: nat, n: Block)
    requires Fits(env, b) && Returns(env, db, b, fuel) && n in Nodes(b)
    ensures n.id in db
  {
    hide FromDb, Restored, Fits, Nodes;
    var m := RestoredHas(env, b, FromDb(env, db, b.id, fuel).value, n);
    LoadedIsThere(env, db, b.id, fuel, m);
  }
}
