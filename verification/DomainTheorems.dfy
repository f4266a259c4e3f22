/** Saving and loading as wholes: a block that is saved and loaded again, and a subscription that is saved. */
module DomainTheorems {
  import opened Wrappers
  import opened Sequences
  import opened DomainTypes
  import opened DomainValues
  import opened DomainSave
  import opened DomainLoad
  import opened DomainRoundTrip
  import opened DomainSaved

  lemma {:induction false} NodesClosed(b: Block, n: Block)
    requires n in Nodes(b)
    ensures Nodes(n) <= Nodes(b)
    decreases b, 1
  {
    if n != b {
      LinkNodesClosed(b.links, n);
    }
  }

  lemma {:induction false} LinkNodesClosed(ls: seq<Link>, n: Block)
    requires n in LinkNodes(ls)
    ensures Nodes(n) <= LinkNodes(ls)
    decreases ls
  {
    hide Nodes;
    if n in ListNodes(ls[0].blocks) {
      ListNodesClosed(ls[0].blocks, n);
    } else {
      LinkNodesClosed(ls[1..], n);
    }
  }

  lemma {:induction false} ListNodesClosed(bs: seq<Block>, n: Block)
    requires n in ListNodes(bs)
    ensures Nodes(n) <= ListNodes(bs)
    decreases bs, 0
  {
    hide Nodes;
    if n in Nodes(bs[0]) {
      NodesClosed(bs[0], n);
    } else {
      ListNodesClosed(bs[1..], n);
    }
  }

  /** Main theorem: saving a tree of blocks succeeds exactly when no block that is saved would link another
      one twice. Then loading gives the same tree, exactly when no block has two list fields that share
      one list and hold something: values and blocks are all there, each in its own field, lists of values
      in any order, lists of blocks of one type in order and of several types grouped by type. */
  lemma SavedIsLoaded(env: Env, db: Db, sub: Uuid, b: Block, fuel: nat)
    requires GoodEnv(env) && Fits(env, b) && Consistent(Nodes(b))
    requires Sound(db, Nodes(b)) && ForeignStored(env, db, sub, Nodes(b))
    requires Depth(b) <= fuel
    ensures var s := SaveBlock(env, db, sub, b);
      && (s.ok <==> Savable(sub, b))
      && (s.ok ==> (Returns(env, s.db, b, fuel) <==> AllClear(env, b)))
  {
    hide SaveBlock, Returns, AllClear, Nodes, Savable, Sound, ForeignStored, Consistent, Fits, GoodEnv;
    var world := Nodes(b);
    forall n | n in world
      ensures Nodes(n) <= world
    {
      NodesClosed(b, n);
    }
    BlockStores(env, db, sub, b, world);
    var s := SaveBlock(env, db, sub, b);
    if s.ok {
      LoadsBack(env, s.db, b, fuel);
    }
  }

  // ---- which instances a subscription has after saving --------------------------------------------

  /** The blocks that are reached from the block through blocks of the subscription. */
  function OwnedIn(sub: Uuid, b: Block): set<Uuid>
    decreases b, 1
  {
    if b.owner != sub then {} else {b.id} + OwnedInLinks(sub, b.links)
  }

  function OwnedInLinks(sub: Uuid, ls: seq<Link>): set<Uuid>
    decreases ls
  {
    if ls == [] then {} else OwnedInList(sub, ls[0].blocks) + OwnedInLinks(sub, ls[1..])
  }

  function OwnedInList(sub: Uuid, bs: seq<Block>): set<Uuid>
    decreases bs
  {
    if bs == [] then {} else OwnedIn(sub, bs[0]) + OwnedInList(sub, bs[1..])
  }

  /** A block that is not stored yet is of the subscription that is saved. */
  ghost predicate NewAreOwn(db: Db, sub: Uuid, nodes: set<Block>) {
    forall n | n in nodes && n.id !in db :: n.owner == sub
  }

  /** Only the given instances are written, and they are of the subscription then. */
  ghost predicate Writes(before: Db, after: Db, sub: Uuid, ids: set<Uuid>) {
    && after.Keys == before.Keys + ids
    && (forall id | id in ids :: after[id].subscription == sub)
    && (forall id | id in before && id !in ids :: after[id] == before[id])
  }

  lemma {:induction false} BlockWrites(env: Env, db: Db, sub: Uuid, b: Block)
    requires Fits(env, b) && NewAreOwn(db, sub, Nodes(b))
    ensures var s := SaveBlock(env, db, sub, b);
      && (s.ok <==> Savable(sub, b))
      && (s.ok ==> SetOf(s.ids) == OwnedIn(sub, b) && Writes(db, s.db, sub, SetOf(s.ids)))
    decreases b, 1
  {
    hide LinksAllFit, LinksSavable, LinkNodes, Ids, Kids, OwnedInLinks, Headed, Linked, Writes, SaveFields, SetOf,
      Distinct, SlotsFit, LinksFit;
    assert b in Nodes(b);
    if b.owner != sub {
      WritesNothing(db, sub);
    } else {
      var first := db[b.id := Headed(env, db, sub, b)];
      HeadedWrites(env, db, sub, b);
      FieldsWrite(env, first, sub, b.links);
      var s := SaveFields(env, first, sub, b.links);
      if Distinct(Ids(Kids(b.links))) && s.ok {
        var last := Linked(env, s.db, b);
        WritesTrans(db, first, s.db, sub, {b.id}, SetOf(s.ids));
        WritesMeans(db, s.db, sub, {b.id} + SetOf(s.ids), b.id);
        LinkedWrites(env, s.db, sub, b);
        WritesTrans(db, s.db, last, sub, {b.id} + SetOf(s.ids), {b.id});
        SetOfLast(s.ids, b.id);
        assert {b.id} + SetOf(s.ids) + {b.id} == SetOf(s.ids) + {b.id};
      }
    }
  }

  lemma WritesNothing(db: Db, sub: Uuid)
    ensures var none: seq<Uuid> := []; Writes(db, db, sub, {}) && SetOf(none) == {}
  {
  }

  lemma WritesMeans(before: Db, after: Db, sub: Uuid, ids: set<Uuid>, id: Uuid)
    requires Writes(before, after, sub, ids) && id in ids
    ensures id in after && after[id].subscription == sub
  {
  }

  lemma HeadedWrites(env: Env, db: Db, sub: Uuid, b: Block)
    requires BlockFits(env, b)
    ensures Writes(db, db[b.id := Headed(env, db, sub, b)], sub, {b.id})
  {
    hide BlockFits, SavedValues;
  }

  lemma LinkedWrites(env: Env, db: Db, sub: Uuid, b: Block)
    requires BlockFits(env, b) && b.id in db && db[b.id].subscription == sub
    ensures Writes(db, Linked(env, db, b), sub, {b.id})
  {
    hide BlockFits, Relations;
  }

  lemma SetOfLast(ids: seq<Uuid>, id: Uuid)
    ensures SetOf(ids + [id]) == SetOf(ids) + {id}
  {
    SetOfConcat(ids, [id]);
  }

  lemma {:induction false} FieldsWrite(env: Env, db: Db, sub: Uuid, ls: seq<Link>)
    requires LinksAllFit(env, ls) && NewAreOwn(db, sub, LinkNodes(ls))
    ensures var s := SaveFields(env, db, sub, ls);
      && (s.ok <==> LinksSavable(sub, ls))
      && (s.ok ==> SetOf(s.ids) == OwnedInLinks(sub, ls) && Writes(db, s.db, sub, SetOf(s.ids)))
    decreases ls
  {
    hide AllFit, ListNodes, OwnedInList, SaveAll, ListSavable;
    if ls != [] {
      ListWrites(env, db, sub, ls[0].blocks);
      var s := SaveAll(env, db, sub, ls[0].blocks);
      if s.ok {
        FieldsWrite(env, s.db, sub, ls[1..]);
        var rest := SaveFields(env, s.db, sub, ls[1..]);
        if rest.ok {
          SetOfConcat(s.ids, rest.ids);
          WritesTrans(db, s.db, rest.db, sub, SetOf(s.ids), SetOf(rest.ids));
        }
      }
    }
  }

  lemma {:induction false} ListWrites(env: Env, db: Db, sub: Uuid, bs: seq<Block>)
    requires AllFit(env, bs) && NewAreOwn(db, sub, ListNodes(bs))
    ensures var s := SaveAll(env, db, sub, bs);
      && (s.ok <==> ListSavable(sub, bs))
      && (s.ok ==> SetOf(s.ids) == OwnedInList(sub, bs) && Writes(db, s.db, sub, SetOf(s.ids)))
    decreases bs, 0
  {
    hide Fits, Nodes, OwnedIn, SaveBlock, Savable;
    if bs != [] {
      BlockWrites(env, db, sub, bs[0]);
      var s := SaveBlock(env, db, sub, bs[0]);
      if s.ok {
        ListWrites(env, s.db, sub, bs[1..]);
        var rest := SaveAll(env, s.db, sub, bs[1..]);
        if rest.ok {
          SetOfConcat(s.ids, rest.ids);
          WritesTrans(db, s.db, rest.db, sub, SetOf(s.ids), SetOf(rest.ids));
        }
      }
    }
  }

  lemma WritesTrans(a: Db, b: Db, c: Db, sub: Uuid, first: set<Uuid>, second: set<Uuid>)
    requires Writes(a, b, sub, first) && Writes(b, c, sub, second)
    ensures Writes(a, c, sub, first + second)
  {
  }

  /** A subscription can be saved when nothing is linked twice and the blocks directly below it are its own. */
  predicate SubscriptionSavable(sub: Uuid, ls: seq<Link>) {
    Distinct(Ids(Kids(ls))) && LinksSavable(sub, ls) && forall b | b in Kids(ls) :: b.owner == sub
  }

  lemma {:induction false} OwnKidsAreOwned(sub: Uuid, ls: seq<Link>, b: Block)
    requires b in Kids(ls) && b.owner == sub
    ensures b.id in OwnedInLinks(sub, ls)
    decreases |ls|
  {
    if b in ls[0].blocks {
      OwnListedAreOwned(sub, ls[0].blocks, b);
    } else {
      OwnKidsAreOwned(sub, ls[1..], b);
    }
  }

  lemma {:induction false} OwnListedAreOwned(sub: Uuid, bs: seq<Block>, b: Block)
    requires b in bs && b.owner == sub
    ensures b.id in OwnedInList(sub, bs)
    decreases |bs|
  {
    if b != bs[0] {
      OwnListedAreOwned(sub, bs[1..], b);
    }
  }

  /** The instances that saving the subscription removes. */
  function Gone(db: Db, sub: Uuid, ls: seq<Link>): set<Uuid> {
    Owned(db, sub) - OwnedInLinks(sub, ls)
  }

  /** All that is to know before the subscription is saved: its blocks fit their classes, one id is one
      block, rows and blocks agree, and blocks of other subscriptions are as they are stored. */
  ghost predicate CanTry(env: Env, db: Db, sub: Uuid, ls: seq<Link>) {
    && GoodEnv(env) && LinksAllFit(env, ls) && Consistent(LinkNodes(ls))
    && Sound(db, LinkNodes(ls)) && ForeignStored(env, db, sub, LinkNodes(ls))
  }

  lemma ForeignNotNew(env: Env, db: Db, sub: Uuid, nodes: set<Block>)
    requires ForeignStored(env, db, sub, nodes)
    ensures NewAreOwn(db, sub, nodes)
    ensures forall n | n in nodes && n.owner != sub :: n.id in db && db[n.id].subscription == n.owner
  {
    hide TailStored;
    forall n | n in nodes && n.owner != sub
      ensures n.id in db && db[n.id].subscription == n.owner
    {
      assert n in Nodes(n);
      assert Stored(env, db, n);
    }
  }

  /** When the foreign blocks of the tree are as they are stored, saving leaves rows that say what every block of
      the tree is. */
  lemma SubscriptionStores(env: Env, db: Db, sub: Uuid, ls: seq<Link>)
    requires CanTry(env, db, sub, ls)
    ensures var s := SaveLinks(env, db, sub, ls);
      && (s.ok <==> Distinct(Ids(Kids(ls))) && LinksSavable(sub, ls))
      && Stores(env, db, s, LinkNodes(ls), LinkNodes(ls))
      && (s.ok ==> SetOf(s.ids) == OwnedInLinks(sub, ls) && Writes(db, s.db, sub, SetOf(s.ids)))
  {
    hide Sound, ForeignStored, Consistent, LinksAllFit, GoodEnv, Keeps, AllStored, Kids, Ids, Distinct, SaveFields,
        Nodes,
      LinkNodes, OwnedInLinks, LinksSavable;
    var world := LinkNodes(ls);
    forall n | n in world
      ensures Nodes(n) <= world
    {
      LinkNodesClosed(ls, n);
    }
    ForeignNotNew(env, db, sub, world);
    FieldsStore(env, db, sub, ls, world);
    FieldsWrite(env, db, sub, ls);
  }

  /** No root of another subscription looks like a root of this one in the database. */
  lemma RootsAreOwn(env: Env, db: Db, sub: Uuid, ls: seq<Link>)
    requires CanTry(env, db, sub, ls) && SaveLinks(env, db, sub, ls).ok
    ensures OwnRoots(SaveLinks(env, db, sub, ls).db, sub, ls) <==> forall b | b in Kids(ls) :: b.owner == sub
  {
    hide GoodEnv, LinksAllFit, Consistent, SaveLinks, Keeps, TailStored, Kids, OwnedInLinks, Sound, Holds,
        ForeignStored;
    var s := SaveLinks(env, db, sub, ls);
    SubscriptionStores(env, db, sub, ls);
    forall b | b in Kids(ls)
      ensures b.id in s.db && (s.db[b.id].subscription == sub <==> b.owner == sub)
    {
      KidIsNode(ls, b);
      assert Stored(env, s.db, b);
      assert s.db[b.id].subscription == b.owner;
    }
  }

  /** No block directly below the subscription is foreign: it is saved with it, or its row is one of the
      subscription. */
  predicate RootsAllowed(db: Db, sub: Uuid, ls: seq<Link>) {
    forall b | b in Kids(ls) :: b.id in OwnedInLinks(sub, ls) || (b.id in db && db[b.id].subscription == sub)
  }

  /** Main theorem: saving succeeds exactly when nothing is linked twice and no root is foreign. After saving,
      the instances of the subscription are exactly the blocks reached from it through blocks of its own. What
      it had before and does not reach any more is gone. Of the instances of other subscriptions nothing is
      written, however their blocks in the tree differ from their rows, but relations to what is gone are gone
      too. */
  lemma SubscriptionSaved(env: Env, db: Db, sub: Uuid, ls: seq<Link>)
    requires LinksAllFit(env, ls) && NewAreOwn(db, sub, LinkNodes(ls))
    ensures var s, gone := SaveSubscription(env, db, sub, ls), Gone(db, sub, ls);
      && (s.ok <==> Distinct(Ids(Kids(ls))) && LinksSavable(sub, ls) && RootsAllowed(db, sub, ls))
      && (s.ok ==>
            && Owned(s.db, sub) == OwnedInLinks(sub, ls)
            && s.db.Keys == db.Keys - gone + OwnedInLinks(sub, ls)
            && (forall id | id in db && id !in gone && id !in OwnedInLinks(sub, ls) ::
                  s.db[id] == Kept(db[id], gone))
            && (forall id | id in db && id !in gone && id !in OwnedInLinks(sub, ls) ::
                  (s.db[id] == db[id] <==> forall x | x in db[id].relations :: x.target !in gone)))
  {
    hide LinksAllFit, OwnedInLinks, SaveFields, LinksSavable, Kids, Distinct, Ids, LinkNodes, NewAreOwn, Staying;
    FieldsWrite(env, db, sub, ls);
    var s, gone := SaveLinks(env, db, sub, ls), Gone(db, sub, ls);
    if s.ok {
      forall b | b in Kids(ls)
        ensures b.id in s.db && s.db[b.id].subscription == sub <==>
                  b.id in OwnedInLinks(sub, ls) || (b.id in db && db[b.id].subscription == sub)
      {
      }
    }
  }

  /** The blocks of the subscription that are in the tree of `b` are reached through blocks of its own. */
  ghost predicate Reached(sub: Uuid, ls: seq<Link>, b: Block) {
    forall n | n in Nodes(b) && n.owner == sub :: n.id in OwnedInLinks(sub, ls)
  }

  /** A block that is reached, or that is not of the subscription, is not removed. */
  lemma Stays(env: Env, db: Db, sub: Uuid, ls: seq<Link>, b: Block, n: Block)
    requires CanTry(env, db, sub, ls) && Nodes(b) <= LinkNodes(ls) && Reached(sub, ls, b) && n in Nodes(b)
    ensures n.id !in Gone(db, sub, ls)
  {
    hide GoodEnv, LinksAllFit, Consistent, Sound, ForeignStored, LinkNodes, OwnedInLinks, Nodes;
    ForeignNotNew(env, db, sub, LinkNodes(ls));
  }

  /** What removing leaves of the tree of `b` is all of it. */
  lemma TreeStaysStored(env: Env, db: Db, sub: Uuid, ls: seq<Link>, full: Db, b: Block, n: Block)
    requires CanTry(env, db, sub, ls) && Nodes(b) <= LinkNodes(ls) && Reached(sub, ls, b) && n in Nodes(b)
    requires Stored(env, full, n) && Referential(full)
    ensures Stored(env, Without(full, Gone(db, sub, ls)), n)
  {
    hide LinksAllFit, Consistent, Sound, ForeignStored, LinkNodes, OwnedInLinks, Reached, Holds, Members, BlocksUsed,
      Used, Kids, Gone, Staying, GoodEnv;
    var gone := Gone(db, sub, ls);
    var after := Without(full, gone);
    Stays(env, db, sub, ls, b, n);
    forall x | x in full[n.id].relations
      ensures x.target !in gone
    {
      var k :| 0 <= k < |Ids(Kids(n.links))| && Ids(Kids(n.links))[k] == x.target;
      KidIsNode(n.links, Kids(n.links)[k]);
      NodesClosed(b, n);
      Stays(env, db, sub, ls, b, Kids(n.links)[k]);
    }
    assert after[n.id] == full[n.id];
    TailKept(env, full, after, n);
  }

  /** What is reached from a root is reached from the subscription. */
  lemma {:induction false} OwnedFromKid(sub: Uuid, ls: seq<Link>, b: Block)
    requires b in Kids(ls)
    ensures OwnedIn(sub, b) <= OwnedInLinks(sub, ls)
    decreases |ls|
  {
    hide OwnedIn;
    if b in ls[0].blocks {
      OwnedFromListed(sub, ls[0].blocks, b);
    } else {
      OwnedFromKid(sub, ls[1..], b);
    }
  }

  lemma {:induction false} OwnedFromListed(sub: Uuid, bs: seq<Block>, b: Block)
    requires b in bs
    ensures OwnedIn(sub, b) <= OwnedInList(sub, bs)
    decreases |bs|
  {
    hide OwnedIn;
    if b != bs[0] {
      OwnedFromListed(sub, bs[1..], b);
    }
  }

  /** A block of the subscription that is not reached through its own blocks is below a foreign one. */
  lemma {:induction false} BelowForeign(env: Env, sub: Uuid, b: Block, n: Block) returns (m: Block)
    requires n in Nodes(b) && n.owner == sub && n.id !in OwnedIn(sub, b)
    ensures m in Nodes(b) && m.owner != sub && n in Nodes(m)
    decreases b
  {
    hide LinkNodes, OwnedInLinks, Kids;
    if b.owner != sub {
      m := b;
    } else {
      var i, k := NodeOfLinks(b.links, n);
      var x := b.links[i].blocks[k];
      InLinks(env, b.links, i, x);
      OwnedFromKid(sub, b.links, x);
      m := BelowForeign(env, sub, x, n);
      KidIsNode(b.links, x);
      LinkNodesClosed(b.links, x);
    }
  }

  /** Such a block is removed. */
  lemma UnreachedIsGone(env: Env, db: Db, sub: Uuid, ls: seq<Link>, b: Block, n: Block)
    requires CanTry(env, db, sub, ls) && b in Kids(ls)
    requires n in Nodes(b) && n.owner == sub && n.id !in OwnedInLinks(sub, ls)
    ensures n.id in Gone(db, sub, ls)
  {
    hide GoodEnv, LinksAllFit, Consistent, Sound, LinkNodes, OwnedInLinks, Nodes, TailStored, Kids;
    OwnedFromKid(sub, ls, b);
    var m := BelowForeign(env, sub, b, n);
    KidIsNode(ls, b);
    LinkNodesClosed(ls, b);
    assert AllStored(env, db, Nodes(m));
    assert Stored(env, db, n);
  }

  /** Main theorem: a subscription that was saved is loaded again, block by block, as `SavedIsLoaded` says,
      exactly when every block of its own below the loaded one is reached through blocks of its own: one that
      only a block of another subscription depends on is removed. */
  lemma SubscriptionLoads(env: Env, db: Db, sub: Uuid, ls: seq<Link>, b: Block, fuel: nat)
    requires CanTry(env, db, sub, ls) && SubscriptionSavable(sub, ls)
    requires b in Kids(ls) && Fits(env, b) && Depth(b) <= fuel
    ensures var s := SaveSubscription(env, db, sub, ls);
      s.ok && (Returns(env, s.db, b, fuel) <==> AllClear(env, b) && Reached(sub, ls, b))
  {
    hide LinksAllFit, Consistent, ForeignStored, LinkNodes, OwnedInLinks, Stored, Kids, GoodEnv, Gone,
      Returns, AllClear, Without, SaveLinks, LinksSavable, Keeps, Nodes, Fits, Writes, OwnRoots;
    var full := SaveLinks(env, db, sub, ls).db;
    SubscriptionStores(env, db, sub, ls);
    RootsAreOwn(env, db, sub, ls);
    var after := Without(full, Gone(db, sub, ls));
    SubscriptionLeaves(env, db, sub, ls);
    KidIsNode(ls, b);
    LinkNodesClosed(ls, b);
    if Reached(sub, ls, b) {
      forall n | n in Nodes(b)
        ensures Stored(env, after, n)
      {
        TreeStaysStored(env, db, sub, ls, full, b, n);
      }
      LoadsBack(env, after, b, fuel);
    } else if Returns(env, after, b, fuel) {
      var n :| n in Nodes(b) && n.owner == sub && n.id !in OwnedInLinks(sub, ls);
      UnreachedIsGone(env, db, sub, ls, b, n);
      ReturnedIsThere(env, after, b, fuel, n);
      NotWithout(full, Gone(db, sub, ls), n.id);
      assert false;
    }
  }

  lemma NotWithout(db: Db, gone: set<Uuid>, id: Uuid)
    requires id in gone
    ensures id !in Without(db, gone)
  {
  }

  lemma SubscriptionLeaves(env: Env, db: Db, sub: Uuid, ls: seq<Link>)
    requires CanTry(env, db, sub, ls) && SubscriptionSavable(sub, ls)
    ensures SaveLinks(env, db, sub, ls).ok
    ensures SaveSubscription(env, db, sub, ls)
         == SaveLinks(env, db, sub, ls).(db := Without(SaveLinks(env, db, sub, ls).db, Gone(db, sub, ls)))
  {
    assert LinksAllFit(env, ls);
    hide CanTry, LinksAllFit, OwnedInLinks, SaveLinks, LinksSavable, Kids, Distinct, Ids, Stores, OwnRoots, Without;
    SubscriptionStores(env, db, sub, ls);
    RootsAreOwn(env, db, sub, ls);
  }

  // ---- when lists are fused -----------------------------------------------------------------------

  lemma {:induction false} NodeFits(env: Env, b: Block, n: Block)
    requires Fits(env, b) && n in Nodes(b)
    ensures Fits(env, n)
    decreases b
  {
    if n != b {
      var i, k := NodeOfLinks(b.links, n);
      InLinks(env, b.links, i, b.links[i].blocks[k]);
      NodeFits(env, b.links[i].blocks[k], n);
    }
  }

  lemma {:induction false} KidFits(env: Env, ls: seq<Link>, x: Block)
    requires LinksAllFit(env, ls) && x in Kids(ls)
    ensures x.name in env.classes
    decreases |ls|
  {
    if x in ls[0].blocks {
      InList(env, ls[0].blocks, x);
    } else {
      KidFits(env, ls[1..], x);
    }
  }

  lemma LinksAligned(env: Env, b: Block)
    requires BlockFits(env, b)
    ensures |b.links| == |env.classes[b.name].blocks|
  {
  }

  /** Lists are not fused when no list field is named like a product block. */
  lemma PlainNamesAreClear(env: Env, b: Block)
    requires Fits(env, b)
    requires forall c, i | c in env.classes && 0 <= i < |env.classes[c].blocks| &&
        env.classes[c].blocks[i].arity == Many ::
      env.classes[c].blocks[i].name !in env.classes
    ensures AllClear(env, b)
  {
    hide Nodes, LinksAllFit, LinksFit, SlotsFit;
    forall n | n in Nodes(b)
      ensures Clear(env, n)
    {
      NodeFits(env, b, n);
      LinksAligned(env, n);
      forall x | x in Kids(n.links)
        ensures x.name in env.classes
      {
        KidFits(env, n.links, x);
      }
    }
  }

  const PORT := Block(2, 7, "Port", None, [], [])
  const NODE := Block(1, 7, "Node", None, [], [Link([PORT]), Link([])])
  const CLASSES := map[
    "Port" := BlockClass([], []),
    "Node" := BlockClass([], [BlockField("uplinks", Many, ["Port"]), BlockField("Port", Many, ["Port"])])]

  lemma NodeFacts(env: Env)
    requires env.classes == CLASSES
    ensures Fits(env, NODE) && Nodes(NODE) == {NODE, PORT} && Kids(NODE.links) == [PORT]
    ensures Depth(NODE) == 2 && Savable(7, NODE)
  {
    var empty: seq<Link>, none: seq<Block> := [], [];
    var ls, rest, ports := NODE.links, [Link(none)], [PORT];
    assert ls[1..] == rest && rest[1..] == empty && ports[1..] == none;
    assert Kids(rest) == none + Kids(empty) == none;
    assert Fits(env, PORT);
    assert AllFit(env, ports) && LinksAllFit(env, rest);
    assert Nodes(PORT) == {PORT} && ListNodes(ports) == {PORT} + ListNodes(none) &&
        LinkNodes(rest) == ListNodes(none) + LinkNodes(empty);
    assert Depth(PORT) == 1 && ListDepth(ports) == 1 && LinksDepth(rest) == 0;
    assert Savable(7, PORT) && ListSavable(7, ports) && LinksSavable(7, rest);
  }

  /** A block with a list field named like the product block of another list: it is saved, and it is not
      what is loaded again. */
  lemma FusedLists(env: Env)
    requires GoodEnv(env) && env.classes == CLASSES
    ensures Fits(env, NODE)
    ensures var s := SaveBlock(env, map[], 7, NODE);
      s.ok && !Returns(env, s.db, NODE, 2)
  {
    hide Returns, Savable, Depth, Kids, Stored, SaveBlock, Nodes, Fits;
    NodeFacts(env);
    assert PORT in Kids(NODE.links) && "Port" in Used(NODE);
    assert SharesList(CLASSES["Node"].blocks, Used(NODE), 0, 1);
    assert !Clear(env, NODE) && !AllClear(env, NODE);
    SavedIsLoaded(env, map[], 7, NODE, 2);
  }

  // ---- when a block is left behind ----------------------------------------------------------------

  const INNER := Block(1, 7, "Port", None, [], [])
  const AWAY := Block(2, 8, "Node", None, [], [Link([INNER])])
  const ROOT := Block(3, 7, "Node", None, [], [Link([AWAY])])
  const PLAIN := map[
    "Port" := BlockClass([], []), "Node" := BlockClass([], [BlockField("below", Many, ["Port", "Node"])])]

  lemma TreeFits(env: Env, b: Block, x: Block)
    requires env.classes == PLAIN && Fits(env, x) && x.name in PLAIN
    requires b.name == "Node" && b.slots == [] && b.links == [Link([x])]
    ensures LinksAllFit(env, b.links) && Fits(env, b)
  {
    hide Fits;
    assert AllFit(env, [x][1..]) && [x][0] == x;
    assert AllFit(env, [x]);
    assert LinksAllFit(env, b.links[1..]);
    assert BlockFits(env, b);
    FitsMeans(env, b);
  }

  lemma FitsMeans(env: Env, b: Block)
    ensures Fits(env, b) <==> BlockFits(env, b) && LinksAllFit(env, b.links)
  {
  }

  lemma TreeFacts(ls: seq<Link>, x: Block)
    requires ls == [Link([x])]
    ensures LinkNodes(ls) == Nodes(x) && Kids(ls) == [x] && LinksDepth(ls) == Depth(x)
  {
    hide Nodes, Depth;
    var xs, none: seq<Block>, empty: seq<Link> := [x], [], [];
    assert ls[0].blocks == xs && ls[1..] == empty && xs[0] == x && xs[1..] == none;
    assert LinkNodes(ls) == ListNodes(xs) + LinkNodes(empty) && ListNodes(xs) == Nodes(x) + ListNodes(none);
    assert Kids(ls) == xs + Kids(empty);
    assert ListDepth(xs) == Depth(x) && LinksDepth(empty) == 0;
  }

  lemma TreeOwned(sub: Uuid, ls: seq<Link>, x: Block)
    requires ls == [Link([x])]
    ensures LinksSavable(sub, ls) <==> Savable(sub, x)
    ensures OwnedInLinks(sub, ls) == OwnedIn(sub, x)
  {
    hide Savable, OwnedIn;
    var xs, none: seq<Block>, empty: seq<Link> := [x], [], [];
    assert ls[0].blocks == xs && ls[1..] == empty && xs[0] == x && xs[1..] == none;
    assert ListSavable(sub, none) && LinksSavable(sub, empty);
    assert ListSavable(sub, xs) <==> Savable(sub, x);
    assert OwnedInList(sub, xs) == OwnedIn(sub, x) + OwnedInList(sub, none);
    assert OwnedInLinks(sub, ls) == OwnedInList(sub, xs) + OwnedInLinks(sub, empty);
  }

  /** The database before: the inner block is stored, and the block of another subscription on top of it. */
  function Before(env: Env): Db
    requires Fits(env, INNER) && Fits(env, AWAY)
  {
    SaveBlock(env, SaveBlock(env, map[], 7, INNER).db, 8, AWAY).db
  }

  lemma ExampleTree(env: Env)
    requires env.classes == PLAIN
    ensures Fits(env, INNER) && Fits(env, AWAY) && Fits(env, ROOT) && LinksAllFit(env, [Link([ROOT])])
    ensures Nodes(INNER) == {INNER} && Nodes(AWAY) == {AWAY, INNER} && Nodes(ROOT) == {ROOT, AWAY, INNER}
    ensures Kids(AWAY.links) == [INNER] && Kids(ROOT.links) == [AWAY]
    ensures Depth(ROOT) == 3 && Savable(7, INNER) && Savable(8, AWAY) && Savable(7, ROOT)
    ensures OwnedIn(7, INNER) == {1} && OwnedIn(8, AWAY) == {2} && OwnedIn(7, ROOT) == {3}
  {
    assert Fits(env, INNER);
    TreeFits(env, AWAY, INNER);
    TreeFits(env, ROOT, AWAY);
    TreeFits(env, ROOT.(links := [Link([ROOT])]), ROOT);
    TreeFacts(AWAY.links, INNER);
    TreeFacts(ROOT.links, AWAY);
    TreeOwned(8, AWAY.links, INNER);
    TreeOwned(7, ROOT.links, AWAY);
  }

  /** Both saves before leave rows that agree with the tree. */
  lemma InnerIsStored(env: Env) returns (first: Db)
    requires GoodEnv(env) && env.classes == PLAIN
    ensures Fits(env, INNER) && first == SaveBlock(env, map[], 7, INNER).db
    ensures first.Keys == {1} && first[1].subscription == 7
    ensures DomainSaved.Ready(env, first, 8, Nodes(AWAY))
  {
    hide GoodEnv, Fits, Nodes, SaveBlock, Savable, Kids, HeadStored, TailStored, LinksAllFit;
    ExampleTree(env);
    var s := SaveBlock(env, map[], 7, INNER);
    first := s.db;
    BlockStores(env, map[], 7, INNER, {INNER});
    BlockWrites(env, map[], 7, INNER);
  }

  lemma AwayIsStored(env: Env) returns (db: Db)
    requires GoodEnv(env) && env.classes == PLAIN
    ensures Fits(env, INNER) && Fits(env, AWAY) && Fits(env, ROOT) && db == Before(env)
    ensures db.Keys == {1, 2} && Sound(db, Nodes(ROOT)) && ForeignStored(env, db, 7, Nodes(ROOT))
  {
    hide GoodEnv, Fits, Nodes, SaveBlock, Savable, Kids, HeadStored, TailStored, LinksAllFit;
    ExampleTree(env);
    var first := InnerIsStored(env);
    BlockStores(env, first, 8, AWAY, Nodes(AWAY));
    BlockWrites(env, first, 8, AWAY);
    db := SaveBlock(env, first, 8, AWAY).db;
  }

  lemma ExampleCanTry(env: Env) returns (db: Db)
    requires GoodEnv(env) && env.classes == PLAIN
    ensures Fits(env, INNER) && Fits(env, AWAY) && Fits(env, ROOT) && db == Before(env)
    ensures CanTry(env, db, 7, [Link([ROOT])]) && SubscriptionSavable(7, [Link([ROOT])])
    ensures LinksAllFit(env, [Link([ROOT])]) && NewAreOwn(db, 7, LinkNodes([Link([ROOT])]))
    ensures OwnedInLinks(7, [Link([ROOT])]) == {3} && Kids([Link([ROOT])]) == [ROOT]
  {
    hide GoodEnv, Fits, SaveBlock, Savable, AllStored, Sound, LinksAllFit, Depth, Nodes, LinkNodes, OwnedIn;
    ExampleTree(env);
    var ls := [Link([ROOT])];
    db := AwayIsStored(env);
    TreeFacts(ls, ROOT);
    TreeOwned(7, ls, ROOT);
    ForeignNotNew(env, db, 7, LinkNodes(ls));
  }

  /** A block of the subscription that only a block of another subscription depends on: after it was stored
      there, saving the subscription removes it, and the tree, in which nothing is fused, is not what is
      loaded again. */
  lemma LeftBehind(env: Env)
    requires GoodEnv(env) && env.classes == PLAIN
    ensures Fits(env, INNER) && Fits(env, AWAY) && Fits(env, ROOT) && AllClear(env, ROOT)
    ensures var ls := [Link([ROOT])];
      CanTry(env, Before(env), 7, ls) && SubscriptionSavable(7, ls)
    ensures var s := SaveSubscription(env, Before(env), 7, [Link([ROOT])]);
      s.ok && INNER.id in Owned(Before(env), 7) && INNER.id !in s.db && !Returns(env, s.db, ROOT, 3)
  {
    hide GoodEnv, Fits, CanTry, Before, Returns, SaveSubscription, SubscriptionSavable, OwnedInLinks, Nodes, AllClear;
    var ls := [Link([ROOT])];
    ExampleTree(env);
    var db := ExampleCanTry(env);
    PlainNamesAreClear(env, ROOT);
    assert INNER in Nodes(ROOT) && !Reached(7, ls, ROOT);
    SubscriptionLoads(env, db, 7, ls, ROOT, 3);
    SubscriptionSaved(env, db, 7, ls);
    UnreachedIsGone(env, db, 7, ls, ROOT, INNER);
  }
}
