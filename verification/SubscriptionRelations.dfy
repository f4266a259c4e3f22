/** Fetching the relations of subscriptions level by level, and which subscriptions that finds. */
module SubscriptionRelations {
  import opened Sequences

  type Uuid = nat

  /** The relations that the fetcher returns for a subscription, and which subscriptions are of a product
      type to recurse into. */
  datatype Graph = Graph(edges: Uuid -> seq<Uuid>, recursable: Uuid -> bool)

  function Flatten(g: Graph, ids: seq<Uuid>): seq<Uuid> {
    if ids == [] then [] else g.edges(ids[0]) + Flatten(g, ids[1..])
  }

  /** The elements in the order in which they are first seen. */
  function Unique(s: seq<Uuid>): (r: seq<Uuid>)
    ensures forall x :: x in r <==> x in s
    ensures Distinct(r)
  {
    if s == [] then []
    else
      var n := |s| - 1;
      assert s == s[..n] + [s[n]];
      if s[n] in s[..n] then Unique(s[..n]) else Unique(s[..n]) + [s[n]]
  }

  /** What of a level is expanded next. */
  function Related(g: Graph, rels: seq<Uuid>, used: set<Uuid>): seq<Uuid> {
    if rels == [] then []
    else
      var rest := Related(g, rels[1..], used);
      if g.recursable(rels[0]) && rels[0] !in used then [rels[0]] + rest else rest
  }

  /** The relations that are found, and the subscriptions that were expanded to find them. */
  datatype Found = Found(relations: seq<Uuid>, expanded: seq<Uuid>)

  /** What is found from `ids`, with `depth` more levels. */
  function Collect(g: Graph, ids: seq<Uuid>, used: set<Uuid>, depth: nat): Found
    decreases depth
  {
    var rels := Unique(Flatten(g, ids));
    var next := Related(g, rels, used);
    if depth == 0 || next == [] then Found(Unique(rels), ids)
    else
      var nested := Collect(g, next, used + SetOf(next), depth - 1);
      Found(Unique(rels + nested.relations), ids + nested.expanded)
  }

  // ---- the subscriptions in place -----------------------------------------------------------------

  /** The shared set of subscriptions that are used already. */
  class UsedIds {
    var ids: set<Uuid>

    constructor (ids: set<Uuid>)
      ensures this.ids == ids
    {
      this.ids := ids;
    }
  }

  /** The function that fetches relations, with the subscriptions it was asked for. */
  class Fetcher {
    const graph: Graph
    var asked: seq<Uuid>

    constructor (graph: Graph)
      ensures this.graph == graph && asked == []
    {
      this.graph, asked := graph, [];
    }

    method Fetch(ids: seq<Uuid>) returns (r: seq<seq<Uuid>>)
      modifies this
      ensures asked == old(asked) + ids
      ensures |r| == |ids| && forall i | 0 <= i < |ids| :: r[i] == graph.edges(ids[i])
    {
      r := [];
      for i := 0 to |ids|
        invariant asked == old(asked) && |r| == i && forall j | 0 <= j < i :: r[j] == graph.edges(ids[j])
      {
        r := r + [graph.edges(ids[i])];
      }
      asked := asked + ids;
    }
  }

  lemma {:induction false} FlattenOneMore(g: Graph, ids: seq<Uuid>, i: nat)
    requires i < |ids|
    ensures Flatten(g, ids[..i + 1]) == Flatten(g, ids[..i]) + g.edges(ids[i])
    decreases i
  {
    var more := ids[..i + 1];
    if i == 0 {
      assert more[1..] == [];
    } else {
      assert more[1..] == ids[1..][..i] && ids[..i][1..] == ids[1..][..i - 1];
      FlattenOneMore(g, ids[1..], i - 1);
    }
  }

  method UniqueEverseen(s: seq<Uuid>) returns (r: seq<Uuid>)
    ensures r == Unique(s)
  {
    r := [];
    var seen := {};
    for i := 0 to |s|
      invariant r == Unique(s[..i]) && seen == SetOf(s[..i])
    {
      assert s[..i + 1][..i] == s[..i] && s[..i + 1] == s[..i] + [s[i]];
      if s[i] !in seen {
        seen := seen + {s[i]};
        r := r + [s[i]];
      }
    }
    assert s[..|s|] == s;
  }

  lemma {:induction false} RelatedOneMore(g: Graph, rels: seq<Uuid>, used: set<Uuid>, i: nat)
    requires i < |rels|
    ensures Related(g, rels[..i + 1], used)
         == Related(g, rels[..i], used) + if g.recursable(rels[i]) && rels[i] !in used then [rels[i]] else []
    decreases i
  {
    var more := rels[..i + 1];
    if i == 0 {
      assert more[1..] == [];
    } else {
      assert more[1..] == rels[1..][..i];
      assert rels[..i][1..] == rels[1..][..i - 1];
      RelatedOneMore(g, rels[1..], used, i - 1);
    }
  }

  /** The subscriptions to start with are used already, unless a set with others is given. */
  function Start(ids: seq<Uuid>, used: set<Uuid>): set<Uuid> {
    if used == {} then SetOf(ids) else used
  }

  /** The relations of one level. */
  method FetchLevel(fetcher: Fetcher, ids: seq<Uuid>) returns (r: seq<Uuid>)
    modifies fetcher
    ensures r == Unique(Flatten(fetcher.graph, ids)) && fetcher.asked == old(fetcher.asked) + ids
  {
    var fetched := fetcher.Fetch(ids);
    var flat := [];
    for i := 0 to |fetched|
      invariant flat == Flatten(fetcher.graph, ids[..i]) && fetcher.asked == old(fetcher.asked) + ids
    {
      FlattenOneMore(fetcher.graph, ids, i);
      flat := flat + fetched[i];
    }
    assert ids[..|ids|] == ids;
    r := UniqueEverseen(flat);
  }

  method RelatedIds(g: Graph, relations: seq<Uuid>, used: UsedIds) returns (r: seq<Uuid>)
    ensures r == Related(g, relations, used.ids)
  {
    r := [];
    for i := 0 to |relations|
      invariant r == Related(g, relations[..i], used.ids)
    {
      RelatedOneMore(g, relations, used.ids, i);
      if g.recursable(relations[i]) && relations[i] !in used.ids {
        r := r + [relations[i]];
      }
    }
    assert relations[..|relations|] == relations;
  }

  method GetRecursiveRelations(fetcher: Fetcher, ids: seq<Uuid>, limit: int, depth: int, given: UsedIds)
    returns (r: seq<Uuid>)
    modifies fetcher, given
    ensures var found := Collect(fetcher.graph, ids, Start(ids, old(given.ids)),
        if limit > depth then limit - depth else 0);
      r == found.relations && fetcher.asked == old(fetcher.asked) + found.expanded
    decreases if limit > depth then limit - depth else 0
  {
    hide Unique, Related, Flatten;
    var used := given;
    if given.ids == {} {
      used := new UsedIds(SetOf(ids));
    }
    var relations := FetchLevel(fetcher, ids);
    var nested := [];
    if limit > depth {
      var related := RelatedIds(fetcher.graph, relations, used);
      if related != [] {
        used.ids := used.ids + SetOf(related);
        assert related[0] in used.ids;
        nested := GetRecursiveRelations(fetcher, related, limit, depth + 1, used);
      }
    }
    assert relations + [] == relations;
    r := UniqueEverseen(relations + nested);
  }

  // ---- what is found ------------------------------------------------------------------------------

  lemma {:induction false} RelatedHas(g: Graph, rels: seq<Uuid>, used: set<Uuid>, x: Uuid)
    ensures x in Related(g, rels, used) <==> x in rels && g.recursable(x) && x !in used
    decreases |rels|
  {
    if rels != [] {
      RelatedHas(g, rels[1..], used, x);
    }
  }

  lemma {:induction false} FlattenHas(g: Graph, ids: seq<Uuid>, x: Uuid)
    ensures x in Flatten(g, ids) <==> exists u :: u in ids && x in g.edges(u)
    decreases |ids|
  {
    if ids != [] {
      FlattenHas(g, ids[1..], x);
      if x in Flatten(g, ids[1..]) {
        var u :| u in ids[1..] && x in g.edges(u);
        assert u in ids;
      }
      if u :| u in ids && x in g.edges(u) {
        assert u == ids[0] || u in ids[1..];
      }
    }
  }

  /** With what is one relation further, of a product type to recurse into. */
  function Grow(g: Graph, near: set<Uuid>): set<Uuid> {
    near + set u, v | u in near && v in g.edges(u) && g.recursable(v) :: v
  }

  /** The subscriptions within `k` relations, all but the first of a product type to recurse into. */
  function Reach(g: Graph, starts: set<Uuid>, k: nat): set<Uuid> {
    if k == 0 then starts else Grow(g, Reach(g, starts, k - 1))
  }

  /** The subscriptions one relation beyond. */
  function Beyond(g: Graph, us: set<Uuid>): set<Uuid> {
    set u, v | u in us && v in g.edges(u) :: v
  }

  lemma LevelHas(g: Graph, ids: seq<Uuid>)
    ensures SetOf(Unique(Flatten(g, ids))) == Beyond(g, SetOf(ids))
  {
    hide Unique, Flatten;
    forall x
      ensures x in Flatten(g, ids) <==> x in Beyond(g, SetOf(ids))
    {
      FlattenHas(g, ids, x);
      if u :| u in ids && x in g.edges(u) {
        assert u in SetOf(ids);
      }
    }
  }

  /** Nothing new on a level means nothing new on any later level. */
  lemma {:induction false} ReachStops(g: Graph, starts: set<Uuid>, k: nat, n: nat)
    requires Reach(g, starts, k + 1) == Reach(g, starts, k) && k <= n
    ensures Reach(g, starts, n) == Reach(g, starts, k)
    decreases n
  {
    hide Grow;
    if n > k + 1 {
      ReachStops(g, starts, k, n - 1);
    }
  }

  lemma {:induction false} ReachGrows(g: Graph, starts: set<Uuid>, k: nat, n: nat)
    requires k <= n
    ensures Reach(g, starts, k) <= Reach(g, starts, n)
    decreases n
  {
    if k < n {
      ReachGrows(g, starts, k, n - 1);
    }
  }

  /** What is reached on a level that was not reached before. */
  function Fresh(g: Graph, starts: set<Uuid>, k: nat): set<Uuid> {
    if k == 0 then starts else Reach(g, starts, k) - Reach(g, starts, k - 1)
  }

  /** The next level is what is new on it. */
  lemma NextIsFresh(g: Graph, starts: set<Uuid>, k: nat, rels: seq<Uuid>)
    requires SetOf(rels) == Beyond(g, Fresh(g, starts, k))
    ensures var next := Related(g, rels, Reach(g, starts, k));
      && SetOf(next) == Fresh(g, starts, k + 1)
      && Reach(g, starts, k) + SetOf(next) == Reach(g, starts, k + 1)
  {
    var used := Reach(g, starts, k);
    var next := Related(g, rels, used);
    forall x
      ensures x in SetOf(next) <==> x in Fresh(g, starts, k + 1)
    {
      RelatedHas(g, rels, used, x);
      assert x in rels <==> x in SetOf(rels);
      if x in Fresh(g, starts, k + 1) {
        var u :| u in used && x in g.edges(u) && g.recursable(x);
        assert u in Fresh(g, starts, k);
      }
    }
  }

  /** What is reached on levels `k` to `n` and not before. */
  function New(g: Graph, starts: set<Uuid>, k: nat, n: nat): set<Uuid> {
    if k == 0 then Reach(g, starts, n) else Reach(g, starts, n) - Reach(g, starts, k - 1)
  }

  lemma NewSplits(g: Graph, starts: set<Uuid>, k: nat, n: nat)
    requires k < n
    ensures New(g, starts, k, n) == Fresh(g, starts, k) + New(g, starts, k + 1, n)
    ensures Beyond(g, New(g, starts, k, n)) == Beyond(g, Fresh(g, starts, k)) + Beyond(g, New(g, starts, k + 1, n))
  {
    assert Reach(g, starts, 0) == starts;
    hide Reach;
    ReachGrows(g, starts, k, n);
  }

  lemma NothingAdded(us: set<Uuid>, next: seq<Uuid>)
    requires next == []
    ensures us + SetOf(next) == us
  {
  }

  /** Nothing more is reached when there is nothing to expand or no level left. */
  lemma LastLevel(g: Graph, starts: set<Uuid>, k: nat, next: seq<Uuid>, depth: nat)
    requires depth == 0 || next == []
    requires Reach(g, starts, k) + SetOf(next) == Reach(g, starts, k + 1)
    ensures Reach(g, starts, k + depth) == Reach(g, starts, k)
  {
    hide Reach, SetOf;
    if depth > 0 {
      NothingAdded(Reach(g, starts, k), next);
      ReachStops(g, starts, k, k + depth);
    }
  }

  lemma NothingNew(g: Graph, starts: set<Uuid>, k: nat, n: nat)
    requires Reach(g, starts, n) == Reach(g, starts, k)
    ensures New(g, starts, k, n) == Fresh(g, starts, k)
  {
    if k == 0 {
      assert Reach(g, starts, 0) == starts;
    } else {
      hide Reach;
    }
  }

  /** What is found from a level on: one relation beyond what that and later levels reach anew. */
  lemma {:induction false} CollectHas(g: Graph, starts: set<Uuid>, k: nat, ids: seq<Uuid>, depth: nat)
    requires SetOf(ids) == Fresh(g, starts, k)
    ensures var found := Collect(g, ids, Reach(g, starts, k), depth);
      && SetOf(found.expanded) == New(g, starts, k, k + depth)
      && SetOf(found.relations) == Beyond(g, New(g, starts, k, k + depth))
    decreases depth
  {
    hide Unique, Related, Flatten, Reach, Beyond, SetOf;
    var used, rels := Reach(g, starts, k), Unique(Flatten(g, ids));
    var next := Related(g, rels, used);
    LevelHas(g, ids);
    NextIsFresh(g, starts, k, rels);
    UniqueSet(rels);
    if depth == 0 || next == [] {
      LastLevel(g, starts, k, next, depth);
      NothingNew(g, starts, k, k + depth);
    } else {
      CollectHas(g, starts, k + 1, next, depth - 1);
      NewSplits(g, starts, k, k + depth);
      var nested := Collect(g, next, used + SetOf(next), depth - 1);
      SetOfConcat(ids, nested.expanded);
      SetOfConcat(rels, nested.relations);
      UniqueSet(rels + nested.relations);
    }
  }

  lemma UniqueSet(s: seq<Uuid>)
    ensures SetOf(Unique(s)) == SetOf(s)
  {
  }

  // ---- by paths -----------------------------------------------------------------------------------

  /** A path from a start, of subscriptions of product types to recurse into after the first. */
  predicate IsPath(g: Graph, starts: set<Uuid>, p: seq<Uuid>) {
    && p != [] && p[0] in starts
    && forall i | 0 < i < |p| :: p[i] in g.edges(p[i - 1]) && g.recursable(p[i])
  }

  /** Reached by a path of at most `k` relations. */
  ghost predicate OnPath(g: Graph, starts: set<Uuid>, k: nat, x: Uuid) {
    exists p :: IsPath(g, starts, p) && |p| <= k + 1 && p[|p| - 1] == x
  }

  lemma {:induction false} ReachIsPaths(g: Graph, starts: set<Uuid>, k: nat, x: Uuid)
    ensures x in Reach(g, starts, k) <==> OnPath(g, starts, k, x)
    decreases k
  {
    if k == 0 {
      if x in starts {
        assert IsPath(g, starts, [x]);
      }
    } else {
      if x in Reach(g, starts, k) {
        PathTo(g, starts, k, x);
      }
      if p :| IsPath(g, starts, p) && |p| <= k + 1 && p[|p| - 1] == x {
        if |p| == 1 {
          ReachGrows(g, starts, 0, k);
        } else {
          var before := p[..|p| - 1];
          assert IsPath(g, starts, before) && |before| <= k;
          ReachIsPaths(g, starts, k - 1, before[|before| - 1]);
        }
      }
    }
  }

  lemma {:induction false} PathTo(g: Graph, starts: set<Uuid>, k: nat, x: Uuid)
    requires k > 0 && x in Reach(g, starts, k)
    ensures OnPath(g, starts, k, x)
    decreases k, 0
  {
    if x in Reach(g, starts, k - 1) {
      ReachIsPaths(g, starts, k - 1, x);
    } else {
      var u :| u in Reach(g, starts, k - 1) && x in g.edges(u) && g.recursable(x);
      ReachIsPaths(g, starts, k - 1, u);
      PathGoesOn(g, starts, k - 1, u, x);
    }
  }

  lemma PathGoesOn(g: Graph, starts: set<Uuid>, k: nat, u: Uuid, x: Uuid)
    requires OnPath(g, starts, k, u) && x in g.edges(u) && g.recursable(x)
    ensures OnPath(g, starts, k + 1, x)
  {
    var p :| IsPath(g, starts, p) && |p| <= k + 1 && p[|p| - 1] == u;
    PathExtends(g, starts, p, x);
    assert |p + [x]| <= k + 2 && (p + [x])[|p + [x]| - 1] == x;
  }

  lemma PathExtends(g: Graph, starts: set<Uuid>, p: seq<Uuid>, x: Uuid)
    requires IsPath(g, starts, p) && x in g.edges(p[|p| - 1]) && g.recursable(x)
    ensures IsPath(g, starts, p + [x])
  {
  }

  /** Main theorem: whatever cycles the relations have, the search ends; it returns, each once, exactly the
      subscriptions one relation beyond a path of at most `depth` relations from a start. */
  lemma FindsExactly(g: Graph, ids: seq<Uuid>, depth: nat)
    ensures var r := Collect(g, ids, Start(ids, {}), depth).relations;
      && Distinct(r)
      && forall x :: x in r <==> exists u :: OnPath(g, SetOf(ids), depth, u) && x in g.edges(u)
  {
    var starts := SetOf(ids);
    assert Reach(g, starts, 0) == starts;
    hide Unique, Flatten, Related, Reach, OnPath;
    CollectHas(g, starts, 0, ids, depth);
    var r := Collect(g, ids, starts, depth).relations;
    forall x
      ensures x in r <==> exists u :: OnPath(g, starts, depth, u) && x in g.edges(u)
    {
      assert x in r <==> x in SetOf(r);
      if x in r {
        var u :| u in Reach(g, starts, depth) && x in g.edges(u);
        ReachIsPaths(g, starts, depth, u);
      }
      if u :| OnPath(g, starts, depth, u) && x in g.edges(u) {
        ReachIsPaths(g, starts, depth, u);
      }
    }
  }

  /** Main theorem: no subscription is expanded twice when the ones to start with are distinct, and those
      that are expanded are the ones at the end of such paths. */
  lemma {:induction false} ExpandsOnce(g: Graph, ids: seq<Uuid>, used: set<Uuid>, depth: nat)
    requires Distinct(ids) && SetOf(ids) <= used
    ensures var e := Collect(g, ids, used, depth).expanded;
      && Distinct(e)
      && forall x | x in e :: x in ids || x !in used
    decreases depth
  {
    hide Unique, Flatten, Related;
    var rels := Unique(Flatten(g, ids));
    var next := Related(g, rels, used);
    forall x
      ensures x in next ==> x !in used
    {
      RelatedHas(g, rels, used, x);
    }
    if depth > 0 && next != [] {
      RelatedDistinct(g, rels, used);
      ExpandsOnce(g, next, used + SetOf(next), depth - 1);
      var nested := Collect(g, next, used + SetOf(next), depth - 1).expanded;
      assert forall x | x in ids :: x in SetOf(ids);
      DistinctConcat(ids, nested);
    }
  }

  lemma DistinctConcat(a: seq<Uuid>, b: seq<Uuid>)
    requires Distinct(a) && Distinct(b) && forall x | x in a :: x !in b
    ensures Distinct(a + b)
  {
    var s := a + b;
    forall i, j | 0 <= i < j < |s|
      ensures s[i] != s[j]
    {
      assert s[i] == if i < |a| then a[i] else b[i - |a|];
      assert s[j] == if j < |a| then a[j] else b[j - |a|];
      if i < |a| <= j {
        assert a[i] in a && b[j - |a|] in b;
      }
    }
  }

  lemma {:induction false} RelatedDistinct(g: Graph, rels: seq<Uuid>, used: set<Uuid>)
    requires Distinct(rels)
    ensures Distinct(Related(g, rels, used))
    decreases |rels|
  {
    if rels != [] {
      RelatedDistinct(g, rels[1..], used);
      RelatedHas(g, rels[1..], used, rels[0]);
    }
  }

  // ---- the order ----------------------------------------------------------------------------------

  /** What comes later does not change the order of what was seen before. */
  lemma {:induction false} UniqueKeepsFirst(a: seq<Uuid>, b: seq<Uuid>)
    ensures Unique(a) <= Unique(a + b)
    decreases |b|
  {
    if b == [] {
      assert a + b == a;
    } else {
      var n := |b| - 1;
      UniqueKeepsFirst(a, b[..n]);
      assert (a + b)[..|a| + n] == a + b[..n] && (a + b)[|a| + n] == b[n];
    }
  }

  lemma {:induction false} FlattenConcat(g: Graph, a: seq<Uuid>, b: seq<Uuid>)
    ensures Flatten(g, a + b) == Flatten(g, a) + Flatten(g, b)
    decreases |a|
  {
    if a == [] {
      assert a + b == b;
    } else {
      assert (a + b)[1..] == a[1..] + b;
      FlattenConcat(g, a[1..], b);
    }
  }

  /** Whatever is found further away, and for later subscriptions, comes behind: the relations begin with those of
      the first subscriptions, in the order in which the fetcher returns them. */
  lemma NearestComeFirst(g: Graph, ids: seq<Uuid>, used: set<Uuid>, depth: nat, i: nat)
    requires i <= |ids|
    ensures Unique(Flatten(g, ids[..i])) <= Unique(Flatten(g, ids)) <= Collect(g, ids, used, depth).relations
    ensures i == 1 ==> Flatten(g, ids[..i]) == g.edges(ids[0])
  {
    hide Unique, Related;
    assert ids == ids[..i] + ids[i..];
    FlattenConcat(g, ids[..i], ids[i..]);
    UniqueKeepsFirst(Flatten(g, ids[..i]), Flatten(g, ids[i..]));
    var rels := Unique(Flatten(g, ids));
    UniqueOnce(rels);
    var next := Related(g, rels, used);
    if depth > 0 && next != [] {
      UniqueKeepsFirst(rels, Collect(g, next, used + SetOf(next), depth - 1).relations);
    }
    if i == 1 {
      assert ids[..1][1..] == [] && Flatten(g, []) == [];
    }
  }

  lemma {:induction false} UniqueOnce(s: seq<Uuid>)
    requires Distinct(s)
    ensures Unique(s) == s
    decreases |s|
  {
    if s != [] {
      var n := |s| - 1;
      UniqueOnce(s[..n]);
      assert s == s[..n] + [s[n]];
    }
  }
}
