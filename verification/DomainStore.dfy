/** The session that saves and loads trees of product blocks. Every method is proved equal to the function
    on values that it implements. */
module DomainStore {
  import opened Wrappers
  import opened DomainTypes
  import opened DomainValues
  import opened DomainSave
  import opened DomainLoad
  import opened DomainLoops
  import DomainSaved

  /** A list as an object: several fields can hold the same one. */
  class BlockList {
    var items: seq<Block>

    constructor ()
      ensures items == []
    {
      items := [];
    }

    method Extend(more: seq<Block>)
      modifies this
      ensures items == old(items) + more
    {
      items := items + more;
    }
  }

  /** The lists of the fields so far, and the list to extend: a field has that list when it is still open. */
  ghost predicate Lists(
    fs: seq<BlockField>, used: set<Name>, own: seq<seq<Block>>, held: seq<BlockList>, current: BlockList)
    reads held, current
  {
    && |held| == |own| <= |fs|
    && current.items == OpenList(fs, used, own, |own|)
    && forall j | 0 <= j < |own| ::
         held[j].items == ListAt(fs, used, own, j) && (held[j] == current <==> IsOpen(fs, used, j, |own|))
  }

  /** One more field gets its blocks: a list field extends the list of the field before it, unless its name
      is not that of a product block in use. */
  method AddField(
    fs: seq<BlockField>, used: set<Name>, ghost own: seq<seq<Block>>, x: seq<Block>,
    held: seq<BlockList>, last: BlockList)
    returns (lists: seq<BlockList>, current: BlockList)
    requires |own| < |fs| && Lists(fs, used, own, held, last)
    modifies last
    ensures Lists(fs, used, own + [x], lists, current)
    ensures current == last || fresh(current)
    ensures held <= lists && forall j | |held| <= j < |lists| :: lists[j] == last || fresh(lists[j])
  {
    hide ListAt, IsOpen, OpenList;
    OpenOneMore(fs, used, own, x);
    ListsAdvance(fs, used, own, x);
    var i := |held|;
    current := last;
    var target;
    if fs[i].arity == Many {
      if fs[i].name !in used {
        current := new BlockList();
      }
      target := current;
    } else {
      target := new BlockList();
    }
    target.Extend(x);
    lists := held + [target];
    forall j | 0 <= j < i
      ensures lists[j].items == ListAt(fs, used, own + [x], j) && (lists[j] == current <==> IsOpen(fs, used, j, i + 1))
    {
      assert Advances(fs, used, own, x, j);
    }
  }

  /** What the fields hold when all have got their blocks. */
  method Unbox(
    ghost fs: seq<BlockField>, ghost used: set<Name>, ghost own: seq<seq<Block>>, held: seq<BlockList>,
    ghost current: BlockList)
    returns (links: seq<Link>)
    requires Lists(fs, used, own, held, current) && |own| == |fs|
    ensures links == Links(fs, used, own)
  {
    links := [];
    for i := 0 to |held|
      invariant |links| == i
      invariant forall j | 0 <= j < i :: links[j] == Link(Held(fs, used, own, j))
    {
      links := links + [Link(held[i].items)];
    }
  }

  class Session {
    /** The instances, with the rows that belong to them. */
    var instances: Db

    constructor (instances: Db)
      ensures this.instances == instances
    {
      this.instances := instances;
    }

    // ---- saving -----------------------------------------------------------------------------------

    method Save(env: Env, sub: Uuid, b: Block) returns (ids: seq<Uuid>, ok: bool)
      requires Fits(env, b)
      modifies this
      ensures var s := SaveBlock(env, old(instances), sub, b);
        instances == s.db && ok == s.ok && (ok ==> ids == s.ids)
      decreases b, 1
    {
      var row: Instance;
      if b.id in instances {
        row := instances[b.id];
        if b.owner != sub {
          return [], true;
        }
      } else {
        row := Instance(sub, b.name, None, [], []);
      }
      row := row.(subscription := sub);
      row := row.(labelText := b.labelText);
      var c := env.classes[b.name];
      var values := SaveInstanceValues(c.values, b.slots, env.arrange(row.values));
      row := row.(values := values);
      instances := instances[b.id := row];
      var dependsOn;
      ids, dependsOn, ok := SaveInstances(env, sub, c.blocks, b.links);
      if ok {
        SetDomainModelAttrs(b.id, c.blocks, b.links, dependsOn);
        ids := ids + [b.id];
      }
    }

    method SaveInstances(env: Env, sub: Uuid, fs: seq<BlockField>, ls: seq<Link>)
      returns (ids: seq<Uuid>, dependsOn: seq<seq<Uuid>>, ok: bool)
      requires LinksAllFit(env, ls) && LinksFit(fs, ls)
      modifies this
      ensures var s := SaveLinks(env, old(instances), sub, ls);
        instances == s.db && ok == s.ok && (ok ==> ids == s.ids && dependsOn == DependsOn(ls))
      decreases ls, 1
    {
      hide AllFit, LinkFits, SaveAll;
      ids, dependsOn := [], [];
      ok := CheckDuplicates(ls);
      if !ok {
        return;
      }
      ghost var all := SaveFields(env, instances, sub, ls);
      for i := 0 to |ls|
        invariant LinksAllFit(env, ls[i..])
        invariant all == After(ids, SaveFields(env, instances, sub, ls[i..]))
        invariant dependsOn == DependsOn(ls)[..i]
      {
        FieldStep(env, instances, sub, ls, i, ids);
        assert LinkFits(fs[i], ls[i]);
        var saved, field;
        saved, field, ok := SaveField(env, sub, fs[i], ls[i]);
        if !ok {
          return;
        }
        ids := ids + saved;
        dependsOn := dependsOn + [field];
      }
    }

    method SaveField(env: Env, sub: Uuid, f: BlockField, l: Link) returns (ids: seq<Uuid>, field: seq<Uuid>, ok: bool)
      requires AllFit(env, l.blocks) && LinkFits(f, l)
      modifies this
      ensures var s := SaveAll(env, old(instances), sub, l.blocks);
        instances == s.db && ok == s.ok && (ok ==> ids == s.ids && field == Ids(l.blocks))
      decreases l
    {
      hide SaveBlock, Fits, SaveAll, AllFit;
      ids, field, ok := [], [], true;
      var bs := l.blocks;
      AllStart(env, instances, sub, bs);
      if f.arity == Many {
        ghost var all := SaveAll(env, instances, sub, bs);
        for k := 0 to |bs|
          invariant ok && AllFit(env, bs[k..])
          invariant all == After(ids, SaveAll(env, instances, sub, bs[k..]))
          invariant field == Ids(bs)[..k]
        {
          AllStep(env, instances, sub, bs, k, ids);
          var saved;
          saved, ok := Save(env, sub, bs[k]);
          if !ok {
            return;
          }
          field := field + [bs[k].id];
          ids := ids + saved;
        }
        AllEnd(env, instances, sub, bs, ids);
      } else if bs != [] {
        AllStep(env, instances, sub, bs, 0, []);
        ids, ok := Save(env, sub, bs[0]);
        AllEnd(env, instances, sub, bs, ids);
        field := [bs[0].id];
      } else {
        AllEnd(env, instances, sub, bs, []);
      }
    }

    method SetDomainModelAttrs(id: Uuid, fs: seq<BlockField>, ghost ls: seq<Link>, dependsOn: seq<seq<Uuid>>)
      requires id in instances && |fs| == |ls| && dependsOn == DependsOn(ls)
      modifies this
      ensures instances == old(instances)[id := old(instances)[id].(relations := Relations(fs, ls))]
    {
      var relations := [];
      for i := 0 to |fs|
        invariant instances == old(instances) && relations == Relations(fs[..i], ls[..i])
      {
        DomainSaved.FieldRelationsFacts(fs[i].name, ls[i].blocks, 0);
        ghost var before := relations;
        for k := 0 to |dependsOn[i]|
          invariant instances == old(instances)
          invariant relations == before + FieldRelations(fs[i].name, ls[i].blocks, 0)[..k]
        {
          relations := relations + [Relation(dependsOn[i][k], k, fs[i].name)];
        }
        RelationsOneMore(fs, ls, i);
      }
      assert fs[..|fs|] == fs && ls[..|ls|] == ls;
      instances := instances[id := instances[id].(relations := relations)];
    }

    /** Deletes an instance with its values and relations. */
    method Delete(id: Uuid)
      modifies this
      ensures instances == Without(old(instances), {id})
    {
      instances := Without(instances, {id});
    }

    method SaveSubscription(env: Env, sub: Uuid, fs: seq<BlockField>, ls: seq<Link>) returns (ok: bool)
      requires LinksAllFit(env, ls) && LinksFit(fs, ls)
      modifies this
      ensures var s := DomainSave.SaveSubscription(env, old(instances), sub, ls);
        instances == s.db && ok == s.ok
    {
      hide SaveLinks, LinksAllFit, LinksFit;
      var olds := Owned(instances, sub);
      var saved, dependsOn;
      saved, dependsOn, ok := SaveInstances(env, sub, fs, ls);
      if !ok {
        return;
      }
      ok := AreOwn(sub, ls, dependsOn);
      if !ok {
        return;
      }
      RemoveOld(olds, saved);
    }

    /** What was there and was not saved is removed. */
    method RemoveOld(before: set<Uuid>, saved: seq<Uuid>)
      modifies this
      ensures instances == Without(old(instances), before - set id | id in saved)
    {
      var olds := before;
      for i := 0 to |saved|
        invariant instances == old(instances)
        invariant olds == before - set id | id in saved[..i]
      {
        assert saved[..i + 1] == saved[..i] + [saved[i]];
        olds := olds - {saved[i]};
      }
      assert saved[..|saved|] == saved;
      ghost var gone := olds;
      WithoutNone(instances);
      while olds != {}
        invariant olds <= gone && instances == Without(old(instances), gone - olds)
        decreases olds
      {
        var id :| id in olds;
        WithoutTwice(old(instances), gone - olds, {id});
        assert gone - olds + {id} == gone - (olds - {id});
        Delete(id);
        olds := olds - {id};
      }
      assert gone - {} == gone;
    }

    /** No instance directly below the subscription is of another one. */
    method AreOwn(sub: Uuid, ghost ls: seq<Link>, dependsOn: seq<seq<Uuid>>) returns (ok: bool)
      requires dependsOn == DependsOn(ls)
      ensures ok == OwnRoots(instances, sub, ls)
    {
      ok := true;
      for i := 0 to |dependsOn|
        invariant ok == OwnRoots(instances, sub, ls[..i])
      {
        KidsGrow(ls, i);
        ghost var bs := ls[i].blocks;
        for k := 0 to |dependsOn[i]|
          invariant ok <==>
            OwnRoots(instances, sub, ls[..i]) &&
            forall j | 0 <= j < k :: bs[j].id in instances && instances[bs[j].id].subscription == sub
        {
          var id := dependsOn[i][k];
          if id !in instances || instances[id].subscription != sub {
            ok := false;
          }
        }
        assert OwnRoots(instances, sub, ls[..i + 1]) <==>
          OwnRoots(instances, sub, ls[..i]) &&
          forall b | b in bs :: b.id in instances && instances[b.id].subscription == sub;
      }
      assert ls[..|ls|] == ls;
    }

    // ---- loading ----------------------------------------------------------------------------------

    method FromDb(env: Env, id: Uuid, fuel: nat) returns (r: Option<Block>)
      requires GoodEnv(env)
      ensures r == DomainLoad.FromDb(env, instances, id, fuel)
      decreases fuel, 2, 0
    {
      if fuel == 0 || id !in instances || instances[id].block !in env.classes {
        return None;
      }
      var row := instances[id];
      var c := env.classes[row.block];
      assert GoodClass(c);
      var slots := LoadValues(c.values, env.arrange(row.values));
      var links := LoadInstances(env, env.queue(row.relations), c.blocks, fuel - 1);
      if slots.None? || links.None? || !LinksFit(c.blocks, links.value) {
        return None;
      }
      return Some(Block(id, row.subscription, row.block, row.labelText, slots.value, links.value));
    }

    method LoadInstances(env: Env, rels: seq<Relation>, fs: seq<BlockField>, fuel: nat) returns (r: Option<seq<Link>>)
      requires GoodEnv(env)
      ensures var own := LoadFields(env, instances, rels, fs, fuel);
        r == if own.None? then None else Some(Links(fs, BlocksUsed(instances, rels), own.value))
      decreases fuel, 4, 0
    {
      hide GoodEnv, Members, BlocksUsed, OpenList, Shared, IsOpen, LoadFields;
      var grouped := GroupInstances(instances, rels);
      ghost var used := BlocksUsed(instances, rels);
      ghost var own: seq<seq<Block>> := [];
      var held: seq<BlockList> := [];
      var current := new BlockList();
      OpenStart(fs, used);
      LoadStart(env, instances, rels, fs, [], fuel);
      for i := 0 to |fs|
        invariant |own| == |held| == i
        invariant LoadFields(env, instances, rels, fs, fuel)
               == WithOwn(own, LoadFields(env, instances, rels, fs[i..], fuel))
        invariant fresh(current) && (forall j | 0 <= j < i :: fresh(held[j])) && Lists(fs, used, own, held, current)
      {
        LoadFieldStep(env, instances, rels, fs, fuel, i, own);
        var ids := FindMembers(instances, grouped, rels, fs[i]);
        if (fs[i].arity != Many && |ids| > 1) || (fs[i].arity == One && ids == []) {
          return None;
        }
        var blocks := LoadAll(env, ids, fuel);
        if blocks.None? {
          return None;
        }
        held, current := AddField(fs, grouped.Keys, own, blocks.value, held, current);
        own := own + [blocks.value];
      }
      assert own + [] == own;
      var links := Unbox(fs, used, own, held, current);
      return Some(links);
    }

    method LoadAll(env: Env, ids: seq<Uuid>, fuel: nat) returns (r: Option<seq<Block>>)
      requires GoodEnv(env)
      ensures r == DomainLoad.LoadAll(env, instances, ids, fuel)
      decreases fuel, 3, 0
    {
      hide GoodEnv, DomainLoad.LoadAll, DomainLoad.FromDb;
      var blocks := [];
      LoadStart(env, instances, [], [], ids, fuel);
      for i := 0 to |ids|
        invariant DomainLoad.LoadAll(env, instances, ids, fuel)
               == WithBlocks(blocks, DomainLoad.LoadAll(env, instances, ids[i..], fuel))
      {
        LoadStep(env, instances, ids, fuel, i, blocks);
        var b := FromDb(env, ids[i], fuel);
        if b.None? {
          return None;
        }
        blocks := blocks + [b.value];
      }
      assert blocks + [] == blocks;
      return Some(blocks);
    }

    /** The slots of an object made of the loaded values. */
    method LoadValues(fs: seq<ValueField>, rows: seq<ValueRow>) returns (r: Option<seq<Slot>>)
      requires forall i, j | 0 <= i < j < |fs| :: fs[i].name != fs[j].name
      ensures r == LoadSlots(fs, rows)
    {
      var dict := LoadInstanceValues(fs, rows);
      var slots := [];
      for i := 0 to |fs|
        invariant |slots| == i && forall j | 0 <= j < i :: Some(slots[j]) == LoadSlot(fs[j], rows)
      {
        if fs[i].name !in dict {
          assert LoadSlot(fs[i], rows).None?;
          return None;
        }
        slots := slots + [dict[fs[i].name]];
      }
      assert slots == LoadSlots(fs, rows).value;
      return Some(slots);
    }
  }
}
