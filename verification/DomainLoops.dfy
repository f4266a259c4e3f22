/** What the loops of saving and loading have done so far. */
module DomainLoops {
  import opened Wrappers
  import opened Sequences
  import opened DomainTypes
  import opened DomainSave
  import opened DomainLoad

  /** The ids of the blocks of each field. */
  function DependsOn(ls: seq<Link>): (r: seq<seq<Uuid>>)
    ensures |r| == |ls|
  {
    seq(|ls|, i requires 0 <= i < |ls| => Ids(ls[i].blocks))
  }

  lemma {:induction false} RelationsOneMore(fs: seq<BlockField>, ls: seq<Link>, i: nat)
    requires i < |fs| == |ls|
    ensures Relations(fs[..i + 1], ls[..i + 1])
         == Relations(fs[..i], ls[..i]) + FieldRelations(fs[i].name, ls[i].blocks, 0)
    decreases i
  {
    var fs', ls' := fs[..i + 1], ls[..i + 1];
    if i == 0 {
      assert fs'[1..] == [] && ls'[1..] == [];
    } else {
      assert fs'[1..] == fs[1..][..i] && ls'[1..] == ls[1..][..i];
      assert fs[..i][1..] == fs[1..][..i - 1] && ls[..i][1..] == ls[1..][..i - 1];
      RelationsOneMore(fs[1..], ls[1..], i - 1);
    }
  }

  /** The positions at which an id stands. */
  function Positions(ids: seq<Uuid>, id: Uuid): seq<nat> {
    if ids == [] then []
    else
      var n := |ids| - 1;
      Positions(ids[..n], id) + if ids[n] == id then [n] else []
  }

  function At(buckets: map<Uuid, seq<nat>>, id: Uuid): seq<nat> {
    if id in buckets then buckets[id] else []
  }

  /** The ids with the positions of the blocks that have them. */
  ghost predicate Buckets(buckets: map<Uuid, seq<nat>>, ids: seq<Uuid>) {
    buckets.Keys == SetOf(ids) && forall id :: At(buckets, id) == Positions(ids, id)
  }

  lemma NoPositions()
    ensures forall id :: Positions([], id) == []
  {
  }

  lemma PositionsOneMore(ids: seq<Uuid>, i: nat, id: Uuid)
    requires i < |ids|
    ensures Positions(ids[..i + 1], id) == Positions(ids[..i], id) + if ids[i] == id then [i] else []
  {
    assert ids[..i + 1][..i] == ids[..i];
  }

  lemma BucketsOneMore(buckets: map<Uuid, seq<nat>>, ids: seq<Uuid>, i: nat)
    requires i < |ids| && Buckets(buckets, ids[..i])
    ensures Buckets(buckets[ids[i] := At(buckets, ids[i]) + [i]], ids[..i + 1])
  {
    hide Positions;
    var after := buckets[ids[i] := At(buckets, ids[i]) + [i]];
    assert ids[..i + 1] == ids[..i] + [ids[i]];
    forall id
      ensures At(after, id) == Positions(ids[..i + 1], id)
    {
      PositionsOneMore(ids, i, id);
    }
  }

  /** An id stands nowhere exactly when it is no element, and once each when no id stands twice. */
  lemma {:induction false} PositionsCount(ids: seq<Uuid>, id: Uuid)
    ensures Positions(ids, id) == [] <==> id !in ids
    ensures Distinct(ids) ==> |Positions(ids, id)| <= 1
    decreases |ids|
  {
    if ids != [] {
      var n := |ids| - 1;
      assert ids == ids[..n] + [ids[n]];
      PositionsCount(ids[..n], id);
    }
  }

  lemma {:induction false} TwiceIsCounted(ids: seq<Uuid>, i: nat, j: nat)
    requires i < j < |ids| && ids[i] == ids[j]
    ensures |Positions(ids, ids[i])| > 1
    decreases |ids|
  {
    var n := |ids| - 1;
    if j == n {
      assert ids[..n][i] == ids[i];
      PositionsCount(ids[..n], ids[i]);
    } else {
      TwiceIsCounted(ids[..n], i, j);
    }
  }

  method FillBuckets(ids: seq<Uuid>) returns (buckets: map<Uuid, seq<nat>>)
    ensures Buckets(buckets, ids)
  {
    hide Positions;
    buckets := map[];
    NoPositions();
    for i := 0 to |ids|
      invariant Buckets(buckets, ids[..i])
    {
      BucketsOneMore(buckets, ids, i);
      var before := if ids[i] in buckets then buckets[ids[i]] else [];
      buckets := buckets[ids[i] := before + [i]];
    }
    assert ids[..|ids|] == ids;
  }

  lemma BucketIsFull(buckets: map<Uuid, seq<nat>>, ids: seq<Uuid>, id: Uuid)
    requires Buckets(buckets, ids) && id in buckets
    ensures buckets[id] != []
  {
    hide Positions;
    PositionsCount(ids, id);
    assert At(buckets, id) == Positions(ids, id);
  }

  method CheckDuplicates(ls: seq<Link>) returns (ok: bool)
    ensures ok == Distinct(Ids(Kids(ls)))
  {
    hide Buckets;
    var ids := [];
    for i := 0 to |ls|
      invariant ids == Ids(Kids(ls[..i]))
    {
      KidsOneMore(ls, i);
      ids := ids + Ids(ls[i].blocks);
    }
    assert ls[..|ls|] == ls;
    var buckets := FillBuckets(ids);
    ok := true;
    var left := buckets.Keys;
    while left != {}
      invariant left <= buckets.Keys
      invariant ok <==> forall id | id in buckets.Keys - left :: |buckets[id]| == 1
      decreases left
    {
      var id :| id in left;
      assert buckets.Keys - (left - {id}) == (buckets.Keys - left) + {id};
      BucketIsFull(buckets, ids, id);
      if |buckets[id]| > 1 {
        ok := false;
      }
      left := left - {id};
    }
    BucketsTell(buckets, ids);
  }

  lemma KidsOneMore(ls: seq<Link>, i: nat)
    requires i < |ls|
    ensures Ids(Kids(ls[..i + 1])) == Ids(Kids(ls[..i])) + Ids(ls[i].blocks)
    decreases i
  {
    KidsGrow(ls, i);
  }

  lemma {:induction false} KidsGrow(ls: seq<Link>, i: nat)
    requires i < |ls|
    ensures Kids(ls[..i + 1]) == Kids(ls[..i]) + ls[i].blocks
    decreases i
  {
    var more := ls[..i + 1];
    if i == 0 {
      assert more[1..] == [];
    } else {
      assert more[1..] == ls[1..][..i] && ls[..i][1..] == ls[1..][..i - 1];
      KidsGrow(ls[1..], i - 1);
    }
  }

  /** No id stands twice when every bucket holds one position. */
  lemma BucketsTell(buckets: map<Uuid, seq<nat>>, ids: seq<Uuid>)
    requires Buckets(buckets, ids)
    ensures Distinct(ids) <==> forall id | id in buckets :: |buckets[id]| == 1
  {
    hide Positions;
    forall id | id in buckets
      ensures buckets[id] == Positions(ids, id) && buckets[id] != []
      ensures Distinct(ids) ==> |buckets[id]| == 1
    {
      assert At(buckets, id) == Positions(ids, id);
      PositionsCount(ids, id);
    }
    if !Distinct(ids) {
      var i, j :| 0 <= i < j < |ids| && ids[i] == ids[j];
      assert ids[i] in SetOf(ids) && At(buckets, ids[i]) == Positions(ids, ids[i]);
      TwiceIsCounted(ids, i, j);
    }
  }

  /** Before the first and after the last block of a list. */
  lemma AllStart(env: Env, db: Db, sub: Uuid, bs: seq<Block>)
    requires AllFit(env, bs)
    ensures AllFit(env, bs[0..]) && After([], SaveAll(env, db, sub, bs[0..])) == SaveAll(env, db, sub, bs)
  {
    hide SaveAll, AllFit;
    assert bs[0..] == bs;
    var s := SaveAll(env, db, sub, bs);
    assert [] + s.ids == s.ids;
  }

  lemma AllEnd(env: Env, db: Db, sub: Uuid, bs: seq<Block>, ids: seq<Uuid>)
    ensures AllFit(env, bs[|bs|..]) && After(ids, SaveAll(env, db, sub, bs[|bs|..])) == Saved(db, ids, true)
  {
  }

  /** One more block of a list is saved. */
  lemma AllStep(env: Env, db: Db, sub: Uuid, bs: seq<Block>, k: nat, ids: seq<Uuid>)
    requires k < |bs| && AllFit(env, bs[k..])
    ensures Fits(env, bs[k]) && AllFit(env, bs[k + 1..])
    ensures var s := SaveBlock(env, db, sub, bs[k]);
      After(ids, SaveAll(env, db, sub, bs[k..]))
        == if s.ok then After(ids + s.ids, SaveAll(env, s.db, sub, bs[k + 1..])) else After(ids, s)
  {
    hide Fits, SaveBlock;
    assert bs[k..][0] == bs[k] && bs[k..][1..] == bs[k + 1..];
    var s := SaveBlock(env, db, sub, bs[k]);
    if s.ok {
      var rest := SaveAll(env, s.db, sub, bs[k + 1..]);
      assert ids + (s.ids + rest.ids) == (ids + s.ids) + rest.ids;
    }
  }

  /** The blocks of one more field are saved. */
  lemma FieldStep(env: Env, db: Db, sub: Uuid, ls: seq<Link>, i: nat, ids: seq<Uuid>)
    requires i < |ls| && LinksAllFit(env, ls[i..])
    ensures AllFit(env, ls[i].blocks) && LinksAllFit(env, ls[i + 1..])
    ensures var s := SaveAll(env, db, sub, ls[i].blocks);
      After(ids, SaveFields(env, db, sub, ls[i..]))
        == if s.ok then After(ids + s.ids, SaveFields(env, s.db, sub, ls[i + 1..])) else After(ids, s)
  {
    hide AllFit, SaveAll;
    assert ls[i..][0] == ls[i] && ls[i..][1..] == ls[i + 1..];
    var s := SaveAll(env, db, sub, ls[i].blocks);
    if s.ok {
      var rest := SaveFields(env, s.db, sub, ls[i + 1..]);
      assert ids + (s.ids + rest.ids) == (ids + s.ids) + rest.ids;
    }
  }

  // ---- deleting one instance after the other ------------------------------------------------------

  lemma {:induction false} StayingTwice(rels: seq<Relation>, a: set<Uuid>, b: set<Uuid>)
    ensures Staying(Staying(rels, a), b) == Staying(rels, a + b)
    decreases |rels|
  {
    if rels != [] {
      StayingTwice(rels[1..], a, b);
    }
  }

  lemma WithoutTwice(db: Db, a: set<Uuid>, b: set<Uuid>)
    ensures Without(Without(db, a), b) == Without(db, a + b)
  {
    hide Staying;
    forall id | id in db
      ensures Staying(Staying(db[id].relations, a), b) == Staying(db[id].relations, a + b)
    {
      StayingTwice(db[id].relations, a, b);
    }
  }

  lemma WithoutNone(db: Db)
    ensures Without(db, {}) == db
  {
  }

  // ---- the instances by product block -------------------------------------------------------------

  ghost predicate GroupedBy(grouped: map<Name, seq<Uuid>>, db: Db, rels: seq<Relation>) {
    && grouped.Keys == BlocksUsed(db, rels)
    && forall t :: OfType(db, rels, t) == if t in grouped then grouped[t] else []
  }

  lemma {:induction false} OfTypeOneMore(db: Db, rels: seq<Relation>, i: nat, t: Name)
    requires i < |rels|
    ensures OfType(db, rels[..i + 1], t) == OfType(db, rels[..i], t) +
      if rels[i].target in db && db[rels[i].target].block == t then [rels[i].target] else []
    decreases i
  {
    var more := rels[..i + 1];
    if i == 0 {
      assert more[1..] == [];
    } else {
      assert more[1..] == rels[1..][..i] && rels[..i][1..] == rels[1..][..i - 1];
      OfTypeOneMore(db, rels[1..], i - 1, t);
    }
  }

  lemma BlocksUsedOneMore(db: Db, rels: seq<Relation>, i: nat)
    requires i < |rels|
    ensures BlocksUsed(db, rels[..i + 1]) == BlocksUsed(db, rels[..i]) +
      if rels[i].target in db then {db[rels[i].target].block} else {}
  {
    assert rels[..i + 1] == rels[..i] + [rels[i]];
  }

  lemma GroupsOneMore(grouped: map<Name, seq<Uuid>>, db: Db, rels: seq<Relation>, i: nat)
    requires i < |rels| && GroupedBy(grouped, db, rels[..i])
    ensures var target := rels[i].target;
      if target !in db then GroupedBy(grouped, db, rels[..i + 1])
      else
        var t := db[target].block;
        GroupedBy(grouped[t := (if t in grouped then grouped[t] else []) + [target]], db, rels[..i + 1])
  {
    hide OfType, BlocksUsed;
    BlocksUsedOneMore(db, rels, i);
    forall t
      ensures OfType(db, rels[..i + 1], t) == OfType(db, rels[..i], t) +
        if rels[i].target in db && db[rels[i].target].block == t then [rels[i].target] else []
    {
      OfTypeOneMore(db, rels, i, t);
    }
  }

  method GroupInstances(db: Db, rels: seq<Relation>) returns (grouped: map<Name, seq<Uuid>>)
    ensures GroupedBy(grouped, db, rels)
  {
    grouped := map[];
    assert GroupedBy(grouped, db, rels[..0]);
    for i := 0 to |rels|
      invariant GroupedBy(grouped, db, rels[..i])
    {
      GroupsOneMore(grouped, db, rels, i);
      var target := rels[i].target;
      if target in db {
        var t := db[target].block;
        grouped := grouped[t := (if t in grouped then grouped[t] else []) + [target]];
      }
    }
    assert rels[..|rels|] == rels;
  }

  lemma {:induction false} OfTypesOneMore(db: Db, rels: seq<Relation>, types: seq<Name>, i: nat)
    requires i < |types|
    ensures OfTypes(db, rels, types[..i + 1]) == OfTypes(db, rels, types[..i]) + OfType(db, rels, types[i])
    decreases i
  {
    hide OfType;
    var more := types[..i + 1];
    if i == 0 {
      assert more[1..] == [];
    } else {
      assert more[1..] == types[1..][..i] && types[..i][1..] == types[1..][..i - 1];
      OfTypesOneMore(db, rels, types[1..], i - 1);
    }
  }

  lemma {:induction false} MatchingOneMore(ids: seq<Uuid>, rels: seq<Relation>, field: Name, i: nat)
    requires i < |ids|
    ensures Matching(ids[..i + 1], rels, field) == Matching(ids[..i], rels, field) +
      if InField(rels, ids[i], field) then [ids[i]] else []
    decreases i
  {
    hide InField;
    var more := ids[..i + 1];
    if i == 0 {
      assert more[1..] == [];
    } else {
      assert more[1..] == ids[1..][..i] && ids[..i][1..] == ids[1..][..i - 1];
      MatchingOneMore(ids[1..], rels, field, i - 1);
    }
  }

  /** The instances of a field. */
  method FindMembers(db: Db, grouped: map<Name, seq<Uuid>>, rels: seq<Relation>, f: BlockField) returns (r: seq<Uuid>)
    requires GroupedBy(grouped, db, rels)
    ensures r == Members(db, rels, f)
  {
    hide OfType, InField;
    var ids := [];
    for i := 0 to |f.types|
      invariant ids == OfTypes(db, rels, f.types[..i])
    {
      OfTypesOneMore(db, rels, f.types, i);
      ids := ids + if f.types[i] in grouped then grouped[f.types[i]] else [];
    }
    assert f.types[..|f.types|] == f.types;
    r := [];
    for i := 0 to |ids|
      invariant r == Matching(ids[..i], rels, f.name)
    {
      MatchingOneMore(ids, rels, f.name, i);
      if InField(rels, ids[i], f.name) {
        r := r + [ids[i]];
      }
    }
    assert ids[..|ids|] == ids;
  }

  // ---- the list that the fields share -------------------------------------------------------------

  /** No list field from `n` on, before field `i` is done, starts a new list. */
  predicate Reaches(fs: seq<BlockField>, used: set<Name>, n: nat, i: nat) {
    i < |fs| && forall k | n <= k <= i && fs[k].arity == Many :: fs[k].name in used
  }

  /** The list of field `j` is still the one to extend after `n` fields. */
  predicate IsOpen(fs: seq<BlockField>, used: set<Name>, j: nat, n: nat) {
    j < n <= |fs| && fs[j].arity == Many && forall k | j < k < n && fs[k].arity == Many :: fs[k].name in used
  }

  /** What is in the list to extend after `n` fields. */
  function OpenList(fs: seq<BlockField>, used: set<Name>, own: seq<seq<Block>>, n: nat): seq<Block>
    requires n <= |own| <= |fs|
  {
    if n == 0 then []
    else if fs[n - 1].arity != Many then OpenList(fs, used, own, n - 1)
    else if fs[n - 1].name in used then OpenList(fs, used, own, n - 1) + own[n - 1]
    else own[n - 1]
  }

  lemma {:induction false} SharedBefore(fs: seq<BlockField>, used: set<Name>, own: seq<seq<Block>>, i: nat, n: nat)
    requires n <= i < |fs| && n <= |own| <= |fs| && fs[i].arity == Many
    ensures Shared(fs, used, own, i, n) == if Reaches(fs, used, n, i) then OpenList(fs, used, own, n) else []
    decreases n
  {
    if n > 0 {
      SharedBefore(fs, used, own, i, n - 1);
      assert SharesList(fs, used, n - 1, i) <==> fs[n - 1].arity == Many && Reaches(fs, used, n, i);
      assert Reaches(fs, used, n - 1, i) <==>
        Reaches(fs, used, n, i) && (fs[n - 1].arity == Many ==> fs[n - 1].name in used);
    }
  }

  lemma {:induction false} SharedOpen(fs: seq<BlockField>, used: set<Name>, own: seq<seq<Block>>, j: nat, n: nat)
    requires n <= |own| <= |fs| && IsOpen(fs, used, j, n)
    ensures Shared(fs, used, own, j, n) == OpenList(fs, used, own, n)
    decreases n
  {
    assert SharesList(fs, used, j, n - 1) <==> fs[n - 1].arity == Many;
    if j == n - 1 {
      SharedBefore(fs, used, own, j, j);
      assert Reaches(fs, used, j, j) <==> fs[j].name in used;
    } else {
      SharedOpen(fs, used, own, j, n - 1);
    }
  }

  lemma {:induction false} SharedPrefix(
    fs: seq<BlockField>, used: set<Name>, own: seq<seq<Block>>, more: seq<seq<Block>>, j: nat, n: nat)
    requires j < |fs| && n <= |own| <= |more| <= |fs| && own <= more
    ensures Shared(fs, used, own, j, n) == Shared(fs, used, more, j, n)
    decreases n
  {
    hide SharesList;
    if n > 0 {
      SharedPrefix(fs, used, own, more, j, n - 1);
    }
  }

  lemma {:induction false} OpenPrefix(fs: seq<BlockField>, used: set<Name>, own: seq<seq<Block>>,
      more: seq<seq<Block>>, n: nat)
    requires n <= |own| <= |more| <= |fs| && own <= more
    ensures OpenList(fs, used, own, n) == OpenList(fs, used, more, n)
    decreases n
  {
    if n > 0 {
      OpenPrefix(fs, used, own, more, n - 1);
    }
  }

  /** The lists after one more field. */
  lemma SharedOneMore(fs: seq<BlockField>, used: set<Name>, own: seq<seq<Block>>, x: seq<Block>,
      j: nat)
    requires |own| < |fs| && j < |own| && fs[j].arity == Many
    ensures var i := |own|;
      var grows := IsOpen(fs, used, j, i) && fs[i].arity == Many && fs[i].name in used;
      && Shared(fs, used, own + [x], j, i + 1) == Shared(fs, used, own, j, i) + (if grows then x else [])
      && (IsOpen(fs, used, j, i + 1) <==> IsOpen(fs, used, j, i) && (fs[i].arity == Many ==> fs[i].name in used))
  {
    var i := |own|;
    SharedPrefix(fs, used, own, own + [x], j, i);
    assert SharesList(fs, used, j, i) <==> IsOpen(fs, used, j, i) && fs[i].arity == Many && fs[i].name in used;
    assert Shared(fs, used, own, j, i) + [] == Shared(fs, used, own, j, i);
  }

  /** The result with the blocks of more fields in front. */
  function WithOwn(own: seq<seq<Block>>, r: Option<seq<seq<Block>>>): Option<seq<seq<Block>>> {
    if r.Some? then Some(own + r.value) else None
  }

  function WithBlocks(bs: seq<Block>, r: Option<seq<Block>>): Option<seq<Block>> {
    if r.Some? then Some(bs + r.value) else None
  }

  lemma LoadStart(env: Env, db: Db, rels: seq<Relation>, fs: seq<BlockField>, ids: seq<Uuid>,
      fuel: nat)
    ensures WithBlocks([], LoadAll(env, db, ids[0..], fuel)) == LoadAll(env, db, ids, fuel)
    ensures WithOwn([], LoadFields(env, db, rels, fs[0..], fuel)) == LoadFields(env, db, rels, fs, fuel)
    ensures LoadAll(env, db, ids[|ids|..], fuel) == Some([])
    ensures LoadFields(env, db, rels, fs[|fs|..], fuel) == Some([])
  {
    assert ids[0..] == ids && fs[0..] == fs;
    var bs, own := LoadAll(env, db, ids, fuel), LoadFields(env, db, rels, fs, fuel);
    assert bs.Some? ==> [] + bs.value == bs.value;
    assert own.Some? ==> [] + own.value == own.value;
  }

  lemma LoadStep(env: Env, db: Db, ids: seq<Uuid>, fuel: nat, i: nat, bs: seq<Block>)
    requires i < |ids|
    ensures var b, rest := FromDb(env, db, ids[i], fuel), LoadAll(env, db, ids[i + 1..], fuel);
      WithBlocks(bs, LoadAll(env, db, ids[i..], fuel)) == if b.None? then None else WithBlocks(bs + [b.value], rest)
  {
    hide FromDb;
    assert ids[i..][0] == ids[i] && ids[i..][1..] == ids[i + 1..];
    var b, rest := FromDb(env, db, ids[i], fuel), LoadAll(env, db, ids[i + 1..], fuel);
    if b.Some? && rest.Some? {
      assert bs + ([b.value] + rest.value) == (bs + [b.value]) + rest.value;
    }
  }

  lemma LoadFieldStep(
    env: Env, db: Db, rels: seq<Relation>, fs: seq<BlockField>, fuel: nat, i: nat, own: seq<seq<Block>>)
    requires i < |fs|
    ensures var ids := Members(db, rels, fs[i]);
      var bs, rest := LoadAll(env, db, ids, fuel), LoadFields(env, db, rels, fs[i + 1..], fuel);
      WithOwn(own, LoadFields(env, db, rels, fs[i..], fuel)) ==
        if (fs[i].arity != Many && |ids| > 1) || (fs[i].arity == One && ids == []) || bs.None? then None
        else WithOwn(own + [bs.value], rest)
  {
    hide LoadAll, Members;
    assert fs[i..][0] == fs[i] && fs[i..][1..] == fs[i + 1..];
    var bs, rest := LoadAll(env, db, Members(db, rels, fs[i]), fuel), LoadFields(env, db, rels, fs[i + 1..], fuel);
    if bs.Some? && rest.Some? {
      assert own + ([bs.value] + rest.value) == (own + [bs.value]) + rest.value;
    }
  }

  lemma OpenStart(fs: seq<BlockField>, used: set<Name>)
    ensures OpenList(fs, used, [], 0) == []
  {
  }

  /** The list to extend, and the list of the field itself, after one more field. */
  lemma OpenOneMore(fs: seq<BlockField>, used: set<Name>, own: seq<seq<Block>>, x: seq<Block>)
    requires |own| < |fs|
    ensures var i, more := |own|, own + [x];
      && OpenList(fs, used, more, i + 1) ==
           (if fs[i].arity != Many then OpenList(fs, used, own, i)
            else if fs[i].name in used then OpenList(fs, used, own, i) + x else x)
      && (IsOpen(fs, used, i, i + 1) <==> fs[i].arity == Many)
      && ListAt(fs, used, more, i) == (if fs[i].arity == Many then OpenList(fs, used, more, i + 1) else x)
  {
    hide Shared;
    var i, more := |own|, own + [x];
    OpenPrefix(fs, used, own, more, i);
    if fs[i].arity == Many {
      SharedOpen(fs, used, more, i, i + 1);
    }
  }

  /** The list of field `j` so far. */
  function ListAt(fs: seq<BlockField>, used: set<Name>, own: seq<seq<Block>>, j: nat): seq<Block>
    requires j < |own| <= |fs|
  {
    if fs[j].arity == Many then Shared(fs, used, own, j, |own|) else own[j]
  }

  /** The list of a field after one more field. */
  ghost predicate Advances(fs: seq<BlockField>, used: set<Name>, own: seq<seq<Block>>, x: seq<Block>, j: nat) {
    |own| < |fs| && j < |own| &&
    var i := |own|;
    var stays := fs[i].arity == Many ==> fs[i].name in used;
    && (IsOpen(fs, used, j, i + 1) <==> IsOpen(fs, used, j, i) && stays)
    && ListAt(fs, used, own + [x], j) ==
         if IsOpen(fs, used, j, i) && fs[i].arity == Many && stays
         then ListAt(fs, used, own, j) + x else ListAt(fs, used, own, j)
  }

  lemma ListsAdvance(fs: seq<BlockField>, used: set<Name>, own: seq<seq<Block>>, x: seq<Block>)
    requires |own| < |fs|
    ensures forall j | 0 <= j < |own| :: Advances(fs, used, own, x, j)
  {
    forall j | 0 <= j < |own|
      ensures Advances(fs, used, own, x, j)
    {
      if fs[j].arity == Many {
        SharedOneMore(fs, used, own, x, j);
      }
    }
  }
}
