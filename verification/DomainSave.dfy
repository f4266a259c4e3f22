/** Saving a tree of product blocks: what each step of saving leaves in the database. */
module DomainSave {
  import opened Wrappers
  import opened Sequences
  import opened DomainTypes
  import opened DomainValues

  // ---- the rows of one block ----------------------------------------------------------------------

  /** Relations to the blocks of one field, numbered from `first`. */
  function FieldRelations(attr: Name, bs: seq<Block>, first: nat): seq<Relation> {
    if bs == [] then [] else [Relation(bs[0].id, first, attr)] + FieldRelations(attr, bs[1..], first + 1)
  }

  function Relations(fs: seq<BlockField>, ls: seq<Link>): seq<Relation>
    requires |fs| == |ls|
  {
    if fs == [] then [] else FieldRelations(fs[0].name, ls[0].blocks, 0) + Relations(fs[1..], ls[1..])
  }

  /** The row of the block, or the one that was made with the block and is not stored yet. */
  function RowOf(db: Db, sub: Uuid, b: Block): Instance {
    if b.id in db then db[b.id] else Instance(sub, b.name, None, [], [])
  }

  /** The row before the blocks it depends on are saved. */
  function Headed(env: Env, db: Db, sub: Uuid, b: Block): Instance
    requires BlockFits(env, b)
  {
    var row := RowOf(db, sub, b);
    row.(subscription := sub,
         labelText := b.labelText,
         values := SavedValues(env.classes[b.name].values, b.slots, env.arrange(row.values)))
  }

  // ---- the tree -----------------------------------------------------------------------------------

  /** What saving leaves: the rows, the saved instances, and whether no exception was raised. */
  datatype Saved = Saved(db: Db, ids: seq<Uuid>, ok: bool)

  /** What saving leaves when more is saved after `ids`. */
  function After(ids: seq<Uuid>, s: Saved): Saved {
    s.(ids := ids + s.ids)
  }

  /** A stored block of another subscription. */
  predicate Foreign(db: Db, sub: Uuid, b: Block) {
    b.id in db && b.owner != sub
  }

  predicate AllFit(env: Env, bs: seq<Block>)
    decreases bs
  {
    bs == [] || (Fits(env, bs[0]) && AllFit(env, bs[1..]))
  }

  predicate LinksAllFit(env: Env, ls: seq<Link>)
    decreases ls
  {
    ls == [] || (AllFit(env, ls[0].blocks) && LinksAllFit(env, ls[1..]))
  }

  /** All blocks of the tree are objects of their classes. */
  predicate Fits(env: Env, b: Block)
    decreases b, 1
  {
    BlockFits(env, b) && LinksAllFit(env, b.links)
  }

  /** Every instance that was there still is, for the same product block. */
  predicate Grows(before: Db, after: Db) {
    forall id | id in before :: id in after && after[id].block == before[id].block
  }

  function SaveBlock(env: Env, db: Db, sub: Uuid, b: Block): (r: Saved)
    requires Fits(env, b)
    ensures Grows(db, r.db)
    ensures r.ok ==> b.id in r.db
    decreases b, 1
  {
    if Foreign(db, sub, b) then Saved(db, [], true)
    else
      var s := SaveLinks(env, db[b.id := Headed(env, db, sub, b)], sub, b.links);
      if !s.ok then s
      else Saved(Linked(env, s.db, b), s.ids + [b.id], true)
  }

  /** The relations of the block are set last. */
  function Linked(env: Env, db: Db, b: Block): Db
    requires BlockFits(env, b) && b.id in db
  {
    db[b.id := db[b.id].(relations := Relations(env.classes[b.name].blocks, b.links))]
  }

  /** Nothing is saved when one block would be linked twice. */
  function SaveLinks(env: Env, db: Db, sub: Uuid, ls: seq<Link>): (r: Saved)
    requires LinksAllFit(env, ls)
    ensures Grows(db, r.db)
    decreases ls, 1
  {
    if Distinct(Ids(Kids(ls))) then SaveFields(env, db, sub, ls) else Saved(db, [], false)
  }

  function SaveFields(env: Env, db: Db, sub: Uuid, ls: seq<Link>): (r: Saved)
    requires LinksAllFit(env, ls)
    ensures Grows(db, r.db)
    decreases ls, 0
  {
    if ls == [] then Saved(db, [], true)
    else
      var s := SaveAll(env, db, sub, ls[0].blocks);
      if s.ok then After(s.ids, SaveFields(env, s.db, sub, ls[1..])) else s
  }

  function SaveAll(env: Env, db: Db, sub: Uuid, bs: seq<Block>): (r: Saved)
    requires AllFit(env, bs)
    ensures Grows(db, r.db)
    decreases bs, 0
  {
    if bs == [] then Saved(db, [], true)
    else
      var s := SaveBlock(env, db, sub, bs[0]);
      if s.ok then After(s.ids, SaveAll(env, s.db, sub, bs[1..])) else s
  }

  // ---- a subscription -----------------------------------------------------------------------------

  /** The instances of a subscription. */
  function Owned(db: Db, sub: Uuid): set<Uuid> {
    set id | id in db && db[id].subscription == sub
  }

  /** Deleting instances deletes their values and the relations from and to them. */
  function Without(db: Db, gone: set<Uuid>): Db {
    map id | id in db && id !in gone :: Kept(db[id], gone)
  }

  function Kept(row: Instance, gone: set<Uuid>): Instance {
    row.(relations := Staying(row.relations, gone))
  }

  function Staying(rels: seq<Relation>, gone: set<Uuid>): (r: seq<Relation>)
    ensures forall x | x in r :: x in rels && x.target !in gone
    ensures forall x | x in rels && x.target !in gone :: x in r
    ensures (forall x | x in rels :: x.target !in gone) ==> r == rels
  {
    if rels == [] then []
    else if rels[0].target in gone then Staying(rels[1..], gone)
    else [rels[0]] + Staying(rels[1..], gone)
  }

  /** No block directly below the subscription belongs to another one. */
  predicate OwnRoots(db: Db, sub: Uuid, ls: seq<Link>) {
    forall b | b in Kids(ls) :: b.id in db && db[b.id].subscription == sub
  }

  function SaveSubscription(env: Env, db: Db, sub: Uuid, ls: seq<Link>): Saved
    requires LinksAllFit(env, ls)
  {
    var s := SaveLinks(env, db, sub, ls);
    if !s.ok || !OwnRoots(s.db, sub, ls) then s.(ok := false)
    else s.(db := Without(s.db, Owned(db, sub) - set id | id in s.ids))
  }
}
