/** Trees of product blocks, and the rows of the database that store them. */
module DomainTypes {
  import opened Wrappers
  import opened Sequences

  type Uuid = nat
  type Name = string

  // ---- classes of product blocks ------------------------------------------------------------------

  datatype Kind = Required | Optional | Listed

  /** A field that holds a value, or a list of values. */
  datatype ValueField = ValueField(name: Name, kind: Kind)

  datatype Arity = One | Maybe | Many

  /** A field that holds product blocks of the given types. */
  datatype BlockField = BlockField(name: Name, arity: Arity, types: seq<Name>)

  datatype BlockClass = BlockClass(values: seq<ValueField>, blocks: seq<BlockField>)

  // ---- trees of product blocks --------------------------------------------------------------------

  /** What a value field holds. */
  datatype Slot = Nothing | Scalar(value: string) | Items(items: seq<string>)

  /** What a block field holds. */
  datatype Link = Link(blocks: seq<Block>)

  /** A product block. Its slots and links are those of the fields of its class, in order. */
  datatype Block = Block(
    id: Uuid, owner: Uuid, name: Name, labelText: Option<string>, slots: seq<Slot>, links: seq<Link>)

  // ---- rows ---------------------------------------------------------------------------------------

  /** A stored value. A row that has not been stored yet has no key. */
  datatype ValueRow = ValueRow(key: Option<nat>, field: Name, value: string)

  /** A row that says that an instance depends on `target`. */
  datatype Relation = Relation(target: Uuid, order: nat, attr: Name)

  /** The row of a product block, with the values and outgoing relations that belong to it. */
  datatype Instance = Instance(
    subscription: Uuid, block: Name, labelText: Option<string>, values: seq<ValueRow>, relations: seq<Relation>)

  type Db = map<Uuid, Instance>

  /** The classes by product block name, and the order in which the database returns rows. */
  datatype Env = Env(
    classes: map<Name, BlockClass>,
    arrange: seq<ValueRow> -> seq<ValueRow>,
    queue: seq<Relation> -> seq<Relation>)

  predicate Sorted(rels: seq<Relation>) {
    forall i, j | 0 <= i < j < |rels| :: rels[i].order <= rels[j].order
  }

  /** All that is known of the order: relations come by their `order`. */
  ghost predicate GoodEnv(env: Env) {
    && (forall rows: seq<ValueRow> {:trigger env.arrange(rows)} :: multiset(env.arrange(rows)) == multiset(rows))
    && (forall rels: seq<Relation> {:trigger env.queue(rels)} ::
          multiset(env.queue(rels)) == multiset(rels) && Sorted(env.queue(rels)))
    && (forall n {:trigger env.classes[n]} | n in env.classes :: GoodClass(env.classes[n]))
  }

  /** The database returns the rows that there are, and relations by their order. */
  lemma GoodOrder(env: Env, rows: seq<ValueRow>, rels: seq<Relation>)
    requires GoodEnv(env)
    ensures multiset(env.arrange(rows)) == multiset(rows)
    ensures multiset(env.queue(rels)) == multiset(rels) && Sorted(env.queue(rels))
  {
  }

  lemma ClassIsGood(env: Env, n: Name)
    requires GoodEnv(env) && n in env.classes
    ensures GoodClass(env.classes[n])
  {
  }

  /** Fields are told apart by their names. */
  predicate GoodClass(c: BlockClass) {
    && (forall i, j | 0 <= i < j < |c.values| :: c.values[i].name != c.values[j].name)
    && GoodFields(c.blocks)
  }

  predicate GoodFields(fs: seq<BlockField>) {
    && (forall i, j | 0 <= i < j < |fs| :: fs[i].name != fs[j].name)
    && (forall i | 0 <= i < |fs| :: fs[i].name != "" && Distinct(fs[i].types))
  }

  // ---- trees that fit their classes ---------------------------------------------------------------

  predicate SlotFits(f: ValueField, s: Slot) {
    match f.kind
    case Required => s.Scalar?
    case Optional => s.Nothing? || s.Scalar?
    case Listed => s.Items?
  }

  predicate SlotsFit(fs: seq<ValueField>, ss: seq<Slot>) {
    |fs| == |ss| && forall i | 0 <= i < |fs| :: SlotFits(fs[i], ss[i])
  }

  predicate LinkFits(f: BlockField, l: Link) {
    && (f.arity == One ==> |l.blocks| == 1)
    && (f.arity == Maybe ==> |l.blocks| <= 1)
    && forall i | 0 <= i < |l.blocks| :: l.blocks[i].name in f.types
  }

  predicate LinksFit(fs: seq<BlockField>, ls: seq<Link>) {
    |fs| == |ls| && forall i | 0 <= i < |fs| :: LinkFits(fs[i], ls[i])
  }

  /** The block is an object of its class. */
  predicate BlockFits(env: Env, b: Block) {
    && b.name in env.classes
    && SlotsFit(env.classes[b.name].values, b.slots)
    && LinksFit(env.classes[b.name].blocks, b.links)
  }

  // ---- the blocks of a tree -----------------------------------------------------------------------

  function Ids(bs: seq<Block>): (r: seq<Uuid>)
    ensures |r| == |bs|
  {
    seq(|bs|, i requires 0 <= i < |bs| => bs[i].id)
  }

  /** The blocks that links hold, in order. */
  function Kids(ls: seq<Link>): seq<Block> {
    if ls == [] then [] else ls[0].blocks + Kids(ls[1..])
  }

  function Nodes(b: Block): set<Block>
    decreases b, 1
  {
    {b} + LinkNodes(b.links)
  }

  function LinkNodes(ls: seq<Link>): set<Block>
    decreases ls
  {
    if ls == [] then {} else ListNodes(ls[0].blocks) + LinkNodes(ls[1..])
  }

  function ListNodes(bs: seq<Block>): set<Block>
    decreases bs
  {
    if bs == [] then {} else Nodes(bs[0]) + ListNodes(bs[1..])
  }
}
