/** Collecting the product blocks that products are made of, through blocks that depend on each other. */
module ProductBlockMap {
  import opened Wrappers

  /** A product or product block class. */
  type Class = nat
  type Name = string

  /** Which classes a class depends on, their names, and the names of all product blocks. Abstract blocks
      have no name. */
  datatype Models = Models(uses: Class -> seq<Class>, name: Class -> Option<Name>, names: set<Name>)

  /** Every block has one of the names that there are. */
  ghost predicate Named(t: Models) {
    forall m, c {:trigger c in t.uses(m)} | c in t.uses(m) && t.name(c).Some? :: t.name(c).value in t.names
  }

  /** A name is that of one class. */
  ghost predicate OneClassEach(t: Models) {
    forall a, b {:trigger t.name(a), t.name(b)} | t.name(a) == t.name(b) && t.name(a).Some? :: a == b
  }

  ghost predicate GoodModels(t: Models) {
    Named(t) && OneClassEach(t)
  }

  /** A class whose name is new. */
  predicate IsNew(t: Models, known: set<Name>, c: Class) {
    t.name(c).Some? && t.name(c).value !in known
  }

  /** A dict by name, as its values: a class takes the place of the one that has its name. */
  function Put(t: Models, bs: seq<Class>, c: Class): (r: seq<Class>)
    ensures r != [] && c in r && forall x | x in r :: x == c || x in bs
    ensures forall x | x in bs && t.name(x) != t.name(c) :: x in r
  {
    if bs == [] then [c]
    else if t.name(bs[0]) == t.name(c) then [c] + bs[1..]
    else [bs[0]] + Put(t, bs[1..], c)
  }

  /** The classes with new names: where several have one name, the last of them in the place of the first. */
  function NewBlocks(t: Models, cs: seq<Class>, known: set<Name>): (r: seq<Class>)
    ensures forall c | c in r :: c in cs && IsNew(t, known, c)
  {
    if cs == [] then []
    else
      var n := |cs| - 1;
      var before := NewBlocks(t, cs[..n], known);
      assert cs == cs[..n] + [cs[n]];
      if IsNew(t, known, cs[n]) then Put(t, before, cs[n]) else before
  }

  lemma {:induction false} NewBlocksHas(t: Models, cs: seq<Class>, known: set<Name>, c: Class)
    requires OneClassEach(t) && c in cs && IsNew(t, known, c)
    ensures c in NewBlocks(t, cs, known)
    decreases |cs|
  {
    var n := |cs| - 1;
    if c != cs[n] {
      assert cs == cs[..n] + [cs[n]];
      NewBlocksHas(t, cs[..n], known, c);
    }
  }

  /** The map of classes by name. */
  function ByName(t: Models, cs: seq<Class>): map<Name, Class>
    requires forall c | c in cs :: t.name(c).Some?
  {
    if cs == [] then map[]
    else
      var n := |cs| - 1;
      assert forall c | c in cs[..n] :: c in cs;
      ByName(t, cs[..n])[t.name(cs[n]).value := cs[n]]
  }

  lemma {:induction false} ByNameKeys(t: Models, cs: seq<Class>)
    requires forall c | c in cs :: t.name(c).Some?
    ensures ByName(t, cs).Keys == set c | c in cs :: t.name(c).value
    ensures forall n | n in ByName(t, cs) :: ByName(t, cs)[n] in cs && t.name(ByName(t, cs)[n]) == Some(n)
    decreases |cs|
  {
    if cs != [] {
      var n := |cs| - 1;
      assert forall c | c in cs[..n] :: c in cs;
      ByNameKeys(t, cs[..n]);
      assert cs == cs[..n] + [cs[n]];
    }
  }

  /** What of a map has a new name. */
  function OnlyNew(found: map<Name, Class>, known: set<Name>): map<Name, Class> {
    map n | n in found && n !in known :: found[n]
  }

  /** The blocks that are known, and those that a class depends on without passing a known one. */
  function InClass(t: Models, m: Class, known: map<Name, Class>): map<Name, Class>
    requires Named(t)
    decreases |t.names - known.Keys|, 0, 0
  {
    var blocks := NewBlocks(t, t.uses(m), known.Keys);
    var more := known + ByName(t, blocks);
    if blocks == [] then more
    else
      MoreKnown(t, m, known);
      more + Below(t, blocks, more)
  }

  /** What the blocks depend on besides what is known. */
  function Below(t: Models, blocks: seq<Class>, known: map<Name, Class>): map<Name, Class>
    requires Named(t)
    decreases |t.names - known.Keys|, 1, |blocks|
  {
    if blocks == [] then map[]
    else
      var n := |blocks| - 1;
      Below(t, blocks[..n], known) + OnlyNew(InClass(t, blocks[n], known), known.Keys)
  }

  lemma {:induction false} Smaller(a: set<Name>, b: set<Name>)
    requires a < b
    ensures |a| < |b|
    decreases |a|
  {
    if a != {} {
      var x :| x in a;
      var y :| y in b && y !in a;
      assert y in b - {x} && y !in a - {x};
      Smaller(a - {x}, b - {x});
    }
  }

  function Names(t: Models, cs: seq<Class>): set<Name> {
    set c | c in cs && t.name(c).Some? :: t.name(c).value
  }

  /** More names are known than before: so the search ends. */
  lemma MoreNames(t: Models, m: Class, known: set<Name>)
    requires Named(t) && NewBlocks(t, t.uses(m), known) != []
    ensures |t.names - (known + Names(t, NewBlocks(t, t.uses(m), known)))| < |t.names - known|
  {
    var blocks := NewBlocks(t, t.uses(m), known);
    var more := known + Names(t, blocks);
    assert blocks[0] in blocks;
    var n := t.name(blocks[0]).value;
    assert n in t.names - known && n in more;
    Smaller(t.names - more, t.names - known);
  }

  lemma MoreKnown(t: Models, m: Class, known: map<Name, Class>)
    requires Named(t)
    requires NewBlocks(t, t.uses(m), known.Keys) != []
    ensures var more := known + ByName(t, NewBlocks(t, t.uses(m), known.Keys));
      |t.names - more.Keys| < |t.names - known.Keys|
  {
    var blocks := NewBlocks(t, t.uses(m), known.Keys);
    ByNameKeys(t, blocks);
    assert (known + ByName(t, blocks)).Keys == known.Keys + Names(t, blocks);
    MoreNames(t, m, known.Keys);
  }

  /** All products, one after the other. */
  function OfProducts(t: Models, products: seq<Class>): map<Name, Class>
    requires Named(t)
  {
    if products == [] then map[]
    else
      var n := |products| - 1;
      var before := OfProducts(t, products[..n]);
      before + InClass(t, products[n], before)
  }

  method MapProductBlocks(t: Models, products: seq<Class>) returns (blocks: map<Name, Class>)
    requires Named(t)
    ensures blocks == OfProducts(t, products)
  {
    blocks := map[];
    for i := 0 to |products|
      invariant blocks == OfProducts(t, products[..i])
    {
      assert products[..i + 1][..i] == products[..i];
      blocks := blocks + InClass(t, products[i], blocks);
    }
    assert products[..|products|] == products;
  }

  // ---- by paths -----------------------------------------------------------------------------------

  /** A path of blocks from a class, of named blocks that are not known. */
  predicate IsPath(t: Models, m: Class, known: set<Name>, p: seq<Class>) {
    && p != [] && p[0] in t.uses(m)
    && (forall i | 0 < i < |p| :: p[i] in t.uses(p[i - 1]))
    && (forall i | 0 <= i < |p| :: IsNew(t, known, p[i]))
  }

  ghost predicate Reached(t: Models, m: Class, known: set<Name>, c: Class) {
    exists p :: IsPath(t, m, known, p) && p[|p| - 1] == c
  }

  /** The last block of a path that a class depends on directly. */
  lemma LastDirect(t: Models, m: Class, known: set<Name>, p: seq<Class>) returns (i: nat)
    requires IsPath(t, m, known, p)
    ensures i < |p| && p[i] in t.uses(m) && forall k | i < k < |p| :: p[k] !in t.uses(m)
  {
    i := |p| - 1;
    while p[i] !in t.uses(m)
      decreases i
      invariant 0 <= i < |p| && forall k | i < k < |p| :: p[k] !in t.uses(m)
    {
      i := i - 1;
    }
  }

  /** What is new on a path is still new when the blocks that it is not directly are known. */
  lemma NewIsNotDirect(t: Models, m: Class, known: set<Name>, c: Class)
    requires GoodModels(t) && IsNew(t, known, c) && c !in t.uses(m)
    ensures IsNew(t, known + Names(t, NewBlocks(t, t.uses(m), known)), c)
  {
    forall b | b in NewBlocks(t, t.uses(m), known)
      ensures t.name(b) != t.name(c)
    {
    }
  }

  lemma ReachedOnce(t: Models, m: Class, known: set<Name>, c: Class) returns (b: Class)
    requires GoodModels(t) && Reached(t, m, known, c)
    ensures var blocks := NewBlocks(t, t.uses(m), known);
      b in blocks && (b == c || Reached(t, b, known + Names(t, blocks), c))
  {
    hide NewBlocks, Names;
    var blocks := NewBlocks(t, t.uses(m), known);
    var more := known + Names(t, blocks);
    var p :| IsPath(t, m, known, p) && p[|p| - 1] == c;
    var i := LastDirect(t, m, known, p);
    b := p[i];
    NewBlocksHas(t, t.uses(m), known, b);
    if i < |p| - 1 {
      var q := p[i + 1..];
      forall k | 0 <= k < |q|
        ensures IsNew(t, more, q[k])
      {
        NewIsNotDirect(t, m, known, q[k]);
      }
      assert IsPath(t, b, more, q) && q[|q| - 1] == c;
    }
  }

  lemma ReachedBefore(t: Models, m: Class, known: set<Name>, more: set<Name>, b: Class, c: Class)
    requires b in t.uses(m) && IsNew(t, known, b) && known <= more && Reached(t, b, more, c)
    ensures Reached(t, m, known, c)
  {
    var q :| IsPath(t, b, more, q) && q[|q| - 1] == c;
    var p := [b] + q;
    forall i | 0 <= i < |p|
      ensures IsNew(t, known, p[i])
    {
      assert i > 0 ==> IsNew(t, more, q[i - 1]);
    }
    assert IsPath(t, m, known, p) && p[|p| - 1] == c;
  }

  lemma DirectIsReached(t: Models, m: Class, known: set<Name>, c: Class)
    requires c in t.uses(m) && IsNew(t, known, c)
    ensures Reached(t, m, known, c)
  {
    assert IsPath(t, m, known, [c]);
  }

  /** What a class reaches is what it depends on directly, or what one of those reaches without another. */
  lemma ReachedSplits(t: Models, m: Class, known: set<Name>, c: Class)
    requires GoodModels(t)
    ensures var blocks := NewBlocks(t, t.uses(m), known);
      Reached(t, m, known, c) <==>
        c in blocks || exists b :: b in blocks && Reached(t, b, known + Names(t, blocks), c)
  {
    hide IsPath, NewBlocks, Reached;
    var blocks := NewBlocks(t, t.uses(m), known);
    var more := known + Names(t, blocks);
    if Reached(t, m, known, c) {
      var b := ReachedOnce(t, m, known, c);
    }
    if c in blocks {
      DirectIsReached(t, m, known, c);
    }
    if b :| b in blocks && Reached(t, b, more, c) {
      ReachedBefore(t, m, known, more, b, c);
    }
  }

  // ---- what is followed ---------------------------------------------------------------------------

  /** A path that the search follows: of the classes with one new name that a class depends on it takes the
      last, and from there on all names that it took beside that one are known. */
  predicate Followed(t: Models, m: Class, known: set<Name>, p: seq<Class>)
    decreases |p|
  {
    && p != []
    && var blocks := NewBlocks(t, t.uses(m), known);
       p[0] in blocks && (|p| == 1 || Followed(t, p[0], known + Names(t, blocks), p[1..]))
  }

  ghost predicate FollowedTo(t: Models, m: Class, known: set<Name>, c: Class) {
    exists p :: Followed(t, m, known, p) && p[|p| - 1] == c
  }

  lemma FollowedDirectly(t: Models, m: Class, known: set<Name>, c: Class)
    requires c in NewBlocks(t, t.uses(m), known)
    ensures FollowedTo(t, m, known, c)
  {
    assert Followed(t, m, known, [c]);
  }

  lemma FollowedBefore(t: Models, m: Class, known: set<Name>, b: Class, c: Class)
    requires var blocks := NewBlocks(t, t.uses(m), known);
      b in blocks && FollowedTo(t, b, known + Names(t, blocks), c)
    ensures FollowedTo(t, m, known, c)
  {
    hide NewBlocks;
    var q :| Followed(t, b, known + Names(t, NewBlocks(t, t.uses(m), known)), q) && q[|q| - 1] == c;
    assert ([b] + q)[1..] == q;
    assert Followed(t, m, known, [b] + q) && ([b] + q)[|q|] == c;
  }

  /** What is followed from a class is what it depends on directly, or what is followed from one of those when
      all of them are known. */
  lemma FollowedSplits(t: Models, m: Class, known: set<Name>, c: Class)
    ensures var blocks := NewBlocks(t, t.uses(m), known);
      FollowedTo(t, m, known, c) <==>
        c in blocks || exists b :: b in blocks && FollowedTo(t, b, known + Names(t, blocks), c)
  {
    hide NewBlocks, Names;
    var blocks := NewBlocks(t, t.uses(m), known);
    if FollowedTo(t, m, known, c) {
      var p :| Followed(t, m, known, p) && p[|p| - 1] == c;
      if |p| > 1 {
        assert p[1..][|p| - 2] == c && FollowedTo(t, p[0], known + Names(t, blocks), c);
      }
    }
    if c in blocks {
      FollowedDirectly(t, m, known, c);
    }
    if b :| b in blocks && FollowedTo(t, b, known + Names(t, blocks), c) {
      FollowedBefore(t, m, known, b, c);
    }
  }

  /** What is followed is reached. */
  lemma {:induction false} FollowedIsReached(t: Models, m: Class, known: set<Name>, p: seq<Class>)
    requires Followed(t, m, known, p)
    ensures Reached(t, m, known, p[|p| - 1])
    decreases |p|
  {
    hide NewBlocks, Reached, Names;
    var blocks := NewBlocks(t, t.uses(m), known);
    if |p| == 1 {
      DirectIsReached(t, m, known, p[0]);
    } else {
      FollowedIsReached(t, p[0], known + Names(t, blocks), p[1..]);
      ReachedBefore(t, m, known, known + Names(t, blocks), p[0], p[|p| - 1]);
    }
  }

  /** When a name is that of one class, what is reached is followed. */
  lemma {:induction false} ReachedIsFollowed(t: Models, m: Class, known: set<Name>, c: Class)
    requires GoodModels(t) && Reached(t, m, known, c)
    ensures FollowedTo(t, m, known, c)
    decreases |t.names - known|
  {
    hide NewBlocks, Reached, FollowedTo, Names;
    var blocks := NewBlocks(t, t.uses(m), known);
    var b := ReachedOnce(t, m, known, c);
    if b == c {
      FollowedDirectly(t, m, known, c);
    } else {
      MoreNames(t, m, known);
      ReachedIsFollowed(t, b, known + Names(t, blocks), c);
      FollowedBefore(t, m, known, b, c);
    }
  }

  // ---- what is collected --------------------------------------------------------------------------

  /** The names that a class reaches. */
  ghost predicate NameReached(t: Models, m: Class, known: set<Name>, n: Name) {
    exists c :: Reached(t, m, known, c) && t.name(c) == Some(n)
  }

  /** The names that are followed from a class. */
  ghost predicate NameFollowed(t: Models, m: Class, known: set<Name>, n: Name) {
    exists c :: FollowedTo(t, m, known, c) && t.name(c) == Some(n)
  }

  lemma NameFollowedSplits(t: Models, m: Class, known: set<Name>, n: Name)
    ensures var blocks := NewBlocks(t, t.uses(m), known);
      NameFollowed(t, m, known, n) <==>
        n in Names(t, blocks) || exists b :: b in blocks && NameFollowed(t, b, known + Names(t, blocks), n)
  {
    hide NewBlocks, FollowedTo, IsNew;
    var blocks := NewBlocks(t, t.uses(m), known);
    var more := known + Names(t, blocks);
    forall c {
      FollowedSplits(t, m, known, c);
    }
    if n in Names(t, blocks) {
      var c :| c in blocks && t.name(c) == Some(n);
      assert FollowedTo(t, m, known, c);
    }
    if b :| b in blocks && NameFollowed(t, b, more, n) {
      var c :| FollowedTo(t, b, more, c) && t.name(c) == Some(n);
      assert FollowedTo(t, m, known, c);
    }
  }

  /** What is followed is new. */
  lemma FollowedIsNew(t: Models, m: Class, known: set<Name>, n: Name)
    requires NameFollowed(t, m, known, n)
    ensures n !in known
  {
    hide NewBlocks;
    var c :| FollowedTo(t, m, known, c) && t.name(c) == Some(n);
    var p :| Followed(t, m, known, p) && p[|p| - 1] == c;
    FollowedIsReached(t, m, known, p);
  }

  /** Main theorem, for all models: whatever cycles there are, the search ends; it collects what is known, and
      exactly the names that are followed. What is known keeps its class, and every other name is given a class
      of that name that is followed. */
  lemma {:induction false} CollectsFollowed(t: Models, m: Class, known: map<Name, Class>, n: Name)
    requires Named(t)
    ensures var r := InClass(t, m, known);
      && (n in r <==> n in known || NameFollowed(t, m, known.Keys, n))
      && (n in known ==> r[n] == known[n])
      && (n in r && n !in known ==> t.name(r[n]) == Some(n) && FollowedTo(t, m, known.Keys, r[n]))
    decreases |t.names - known.Keys|, 0, 0
  {
    hide NewBlocks, NameFollowed, FollowedTo, Below, ByName;
    var blocks := NewBlocks(t, t.uses(m), known.Keys);
    var more := known + ByName(t, blocks);
    ByNameKeys(t, blocks);
    assert more.Keys == known.Keys + Names(t, blocks);
    NameFollowedSplits(t, m, known.Keys, n);
    if n in ByName(t, blocks) {
      FollowedDirectly(t, m, known.Keys, ByName(t, blocks)[n]);
    }
    if blocks != [] {
      MoreKnown(t, m, known);
      BelowFollowed(t, blocks, more, n);
      if b :| b in blocks && NameFollowed(t, b, more.Keys, n) {
        FollowedIsNew(t, b, more.Keys, n);
      }
      var below := Below(t, blocks, more);
      if n in below {
        var b :| b in blocks && FollowedTo(t, b, more.Keys, below[n]);
        FollowedBefore(t, m, known.Keys, b, below[n]);
      }
    }
  }

  lemma {:induction false} BelowFollowed(t: Models, blocks: seq<Class>, known: map<Name, Class>, n: Name)
    requires Named(t)
    ensures var r := Below(t, blocks, known);
      && (n in r <==> n !in known && exists b :: b in blocks && NameFollowed(t, b, known.Keys, n))
      && (n in r ==> t.name(r[n]) == Some(n) && exists b :: b in blocks && FollowedTo(t, b, known.Keys, r[n]))
    decreases |t.names - known.Keys|, 1, |blocks|
  {
    hide InClass, NameFollowed, FollowedTo;
    if blocks != [] {
      var k := |blocks| - 1;
      assert blocks == blocks[..k] + [blocks[k]];
      CollectsFollowed(t, blocks[k], known, n);
      BelowFollowed(t, blocks[..k], known, n);
    }
  }

  /** What is collected is reached, whether or not a name is that of one class. */
  lemma CollectsReached(t: Models, m: Class, known: map<Name, Class>, n: Name)
    requires Named(t)
    ensures var r := InClass(t, m, known);
      && (n in known ==> n in r && r[n] == known[n])
      && (n in r && n !in known ==> t.name(r[n]) == Some(n) && Reached(t, m, known.Keys, r[n]))
  {
    hide InClass, Reached, NameFollowed;
    CollectsFollowed(t, m, known, n);
    var r := InClass(t, m, known);
    if n in r && n !in known {
      var p :| Followed(t, m, known.Keys, p) && p[|p| - 1] == r[n];
      FollowedIsReached(t, m, known.Keys, p);
    }
  }

  /** A name that is reached is lost exactly when it is not followed. */
  lemma LostIffNotFollowed(t: Models, m: Class, known: map<Name, Class>, n: Name)
    requires Named(t) && NameReached(t, m, known.Keys, n)
    ensures n !in InClass(t, m, known) <==> !NameFollowed(t, m, known.Keys, n)
  {
    hide InClass, NameFollowed;
    CollectsFollowed(t, m, known, n);
    var c :| Reached(t, m, known.Keys, c) && t.name(c) == Some(n);
    var p :| IsPath(t, m, known.Keys, p) && p[|p| - 1] == c;
    assert IsNew(t, known.Keys, p[|p| - 1]);
  }

  /** When a name is that of one class nothing is lost: the search collects what is known, and exactly the named
      blocks that the class reaches without passing a known one. */
  lemma CollectsExactly(t: Models, m: Class, known: map<Name, Class>, n: Name)
    requires GoodModels(t)
    ensures n in InClass(t, m, known) <==> n in known || NameReached(t, m, known.Keys, n)
  {
    hide InClass, Reached, FollowedTo;
    CollectsFollowed(t, m, known, n);
    CollectsReached(t, m, known, n);
    if NameReached(t, m, known.Keys, n) {
      var c :| Reached(t, m, known.Keys, c) && t.name(c) == Some(n);
      ReachedIsFollowed(t, m, known.Keys, c);
    }
  }

  // ---- which class of a name is kept --------------------------------------------------------------

  predicate OneEach(t: Models, cs: seq<Class>) {
    forall i, j | 0 <= i < j < |cs| :: t.name(cs[i]) != t.name(cs[j])
  }

  lemma {:induction false} PutOneEach(t: Models, bs: seq<Class>, c: Class)
    requires OneEach(t, bs)
    ensures OneEach(t, Put(t, bs, c)) && forall x | x in Put(t, bs, c) && t.name(x) == t.name(c) :: x == c
    decreases |bs|
  {
    if bs != [] && t.name(bs[0]) != t.name(c) {
      PutOneEach(t, bs[1..], c);
    }
  }

  /** Of the classes with one name that a class depends on, the last is kept. */
  lemma {:induction false} LastIsNew(t: Models, cs: seq<Class>, known: set<Name>, i: nat)
    requires i < |cs| && IsNew(t, known, cs[i]) && forall j | i < j < |cs| :: t.name(cs[j]) != t.name(cs[i])
    ensures OneEach(t, NewBlocks(t, cs, known)) && cs[i] in NewBlocks(t, cs, known)
    decreases |cs|
  {
    var n := |cs| - 1;
    NewOneEach(t, cs, known);
    if i < n {
      LastIsNew(t, cs[..n], known, i);
    }
  }

  lemma {:induction false} NewOneEach(t: Models, cs: seq<Class>, known: set<Name>)
    ensures OneEach(t, NewBlocks(t, cs, known))
    decreases |cs|
  {
    if cs != [] {
      var n := |cs| - 1;
      NewOneEach(t, cs[..n], known);
      PutOneEach(t, NewBlocks(t, cs[..n], known), cs[n]);
    }
  }

  /** What a class depends on directly is given to its name, the last of one name, whatever is found below. */
  lemma LastIsKept(t: Models, m: Class, known: map<Name, Class>, i: nat)
    requires Named(t) && i < |t.uses(m)| && IsNew(t, known.Keys, t.uses(m)[i])
    requires forall j | i < j < |t.uses(m)| :: t.name(t.uses(m)[j]) != t.name(t.uses(m)[i])
    ensures
      var n, r := t.name(t.uses(m)[i]).value, InClass(t, m, known);
      n in r && r[n] == t.uses(m)[i]
  {
    hide NewBlocks, Below, ByName;
    var blocks, c := NewBlocks(t, t.uses(m), known.Keys), t.uses(m)[i];
    var n := t.name(c).value;
    LastIsNew(t, t.uses(m), known.Keys, i);
    ByNameKeys(t, blocks);
    MoreKnown(t, m, known);
    BelowFollowed(t, blocks, known + ByName(t, blocks), n);
    assert t.name(ByName(t, blocks)[n]) == t.name(c);
  }

  /** A class takes the place of the one with its name, or comes last. */
  lemma {:induction false} PutInPlace(t: Models, bs: seq<Class>, c: Class, i: nat)
    requires i < |Put(t, bs, c)|
    ensures |bs| <= |Put(t, bs, c)|
    ensures if i < |bs| then t.name(Put(t, bs, c)[i]) == t.name(bs[i]) else Put(t, bs, c) == bs + [c] && i == |bs|
  {
    if bs == [] {
    } else if t.name(bs[0]) == t.name(c) {
    } else if i == 0 {
      PutLonger(t, bs[1..], c);
    } else {
      PutInPlace(t, bs[1..], c, i - 1);
    }
  }

  lemma {:induction false} PutLonger(t: Models, bs: seq<Class>, c: Class)
    ensures |bs| <= |Put(t, bs, c)|
  {
    if bs != [] && t.name(bs[0]) != t.name(c) {
      PutLonger(t, bs[1..], c);
    }
  }

  /** Among the direct ones a class with this name comes before all with the other. */
  ghost predicate Earlier(t: Models, cs: seq<Class>, a: Option<Name>, b: Option<Name>) {
    exists k :: 0 <= k < |cs| && t.name(cs[k]) == a && forall l | 0 <= l <= k :: t.name(cs[l]) != b
  }

  lemma EarlierInMore(t: Models, cs: seq<Class>, n: nat, a: Option<Name>, b: Option<Name>)
    requires n <= |cs| && Earlier(t, cs[..n], a, b)
    ensures Earlier(t, cs, a, b)
  {
    var k :| 0 <= k < n && t.name(cs[..n][k]) == a && forall l | 0 <= l <= k :: t.name(cs[..n][l]) != b;
    assert t.name(cs[k]) == a;
    forall l | 0 <= l <= k
      ensures t.name(cs[l]) != b
    {
      assert cs[..n][l] == cs[l];
    }
  }

  lemma {:induction false} NameIsThere(t: Models, cs: seq<Class>, known: set<Name>, l: nat) returns (i: nat)
    requires l < |cs| && IsNew(t, known, cs[l])
    ensures i < |NewBlocks(t, cs, known)| && t.name(NewBlocks(t, cs, known)[i]) == t.name(cs[l])
    decreases |cs|
  {
    var n := |cs| - 1;
    var r := NewBlocks(t, cs, known);
    if l == n {
      assert cs[n] in r;
      i :| 0 <= i < |r| && r[i] == cs[n];
    } else {
      i := NameIsThere(t, cs[..n], known, l);
      if IsNew(t, known, cs[n]) {
        PutLonger(t, NewBlocks(t, cs[..n], known), cs[n]);
        PutInPlace(t, NewBlocks(t, cs[..n], known), cs[n], i);
      }
    }
  }

  /** A class that comes last has a name that none before has. */
  lemma NewIsLast(t: Models, cs: seq<Class>, known: set<Name>, i: nat, c: Class)
    requires var before := NewBlocks(t, cs, known);
      IsNew(t, known, c) && i < |before| && Put(t, before, c) == before + [c]
    ensures Earlier(t, cs, t.name(NewBlocks(t, cs, known)[i]), t.name(c))
  {
    var before := NewBlocks(t, cs, known);
    forall l | 0 <= l < |cs|
      ensures t.name(cs[l]) != t.name(c)
    {
      if t.name(cs[l]) == t.name(c) {
        var k := NameIsThere(t, cs, known, l);
        PutSame(t, before, c, k);
        assert false;
      }
    }
    assert before[i] in cs;
  }

  lemma {:induction false} PutSame(t: Models, bs: seq<Class>, c: Class, k: nat)
    requires k < |bs| && t.name(bs[k]) == t.name(c)
    ensures |Put(t, bs, c)| == |bs|
  {
    if t.name(bs[0]) != t.name(c) {
      PutSame(t, bs[1..], c, k - 1);
    }
  }

  /** The new names come in the order in which they are first found. */
  lemma {:induction false} NewInOrder(t: Models, cs: seq<Class>, known: set<Name>, i: nat, j: nat)
    requires i < j < |NewBlocks(t, cs, known)|
    ensures Earlier(t, cs, t.name(NewBlocks(t, cs, known)[i]), t.name(NewBlocks(t, cs, known)[j]))
    decreases |cs|
  {
    hide Earlier, Put;
    var n := |cs| - 1;
    var before := NewBlocks(t, cs[..n], known);
    if IsNew(t, known, cs[n]) {
      PutInPlace(t, before, cs[n], i);
      PutInPlace(t, before, cs[n], j);
      if j == |before| {
        NewIsLast(t, cs[..n], known, i, cs[n]);
      } else {
        NewInOrder(t, cs[..n], known, i, j);
      }
    } else {
      NewInOrder(t, cs[..n], known, i, j);
    }
    EarlierInMore(t, cs, n, t.name(NewBlocks(t, cs, known)[i]), t.name(NewBlocks(t, cs, known)[j]));
  }

  /** Of the classes with one name below, the one that the last of the blocks finds is kept. */
  lemma {:induction false} LastFinderIsKept(t: Models, blocks: seq<Class>, known: map<Name, Class>, n: Name, i: nat)
    requires Named(t) && i < |blocks| && n !in known && n in InClass(t, blocks[i], known)
    requires forall j | i < j < |blocks| :: n !in InClass(t, blocks[j], known)
    ensures n in Below(t, blocks, known) && Below(t, blocks, known)[n] == InClass(t, blocks[i], known)[n]
    decreases |blocks|
  {
    hide InClass;
    var last := |blocks| - 1;
    if i < last {
      LastFinderIsKept(t, blocks[..last], known, n, i);
    }
  }

  // ---- all products -------------------------------------------------------------------------------

  lemma PathsJoin(t: Models, m: Class, b: Class, q: seq<Class>)
    requires Reached(t, m, {}, b) && IsPath(t, b, {}, q)
    ensures Reached(t, m, {}, q[|q| - 1])
  {
    var p :| IsPath(t, m, {}, p) && p[|p| - 1] == b;
    var r := p + q;
    forall i | 0 < i < |r|
      ensures r[i] in t.uses(r[i - 1])
    {
      assert r[i] == if i < |p| then p[i] else q[i - |p|];
      assert r[i - 1] == if i - 1 < |p| then p[i - 1] else q[i - 1 - |p|];
    }
    forall i | 0 <= i < |r|
      ensures IsNew(t, {}, r[i])
    {
      assert r[i] == if i < |p| then p[i] else q[i - |p|];
    }
    assert IsPath(t, m, {}, r) && r[|r| - 1] == q[|q| - 1];
  }

  /** The names that some product reaches. */
  ghost predicate SomeReaches(t: Models, products: seq<Class>, n: Name) {
    exists m :: m in products && NameReached(t, m, {}, n)
  }

  /** What one more product reaches is known from an earlier one, or reached without what is. */
  lemma OneMoreProduct(t: Models, products: seq<Class>, m: Class, known: set<Name>, n: Name)
    requires GoodModels(t) && forall x :: x in known <==> SomeReaches(t, products, x)
    ensures NameReached(t, m, known, n) ==> NameReached(t, m, {}, n)
    ensures NameReached(t, m, {}, n) ==> n in known || NameReached(t, m, known, n)
  {
    if NameReached(t, m, known, n) {
      var c :| Reached(t, m, known, c) && t.name(c) == Some(n);
      var p :| IsPath(t, m, known, p) && p[|p| - 1] == c;
      assert IsPath(t, m, {}, p);
    }
    if NameReached(t, m, {}, n) {
      var c :| Reached(t, m, {}, c) && t.name(c) == Some(n);
      var p :| IsPath(t, m, {}, p) && p[|p| - 1] == c;
      if i :| 0 <= i < |p| && t.name(p[i]).value in known {
        KnownGoesOn(t, products, p, i, m);
      } else {
        assert IsPath(t, m, known, p);
      }
    }
  }

  /** Beyond a block that some product reaches, that product reaches all. */
  lemma KnownGoesOn(t: Models, products: seq<Class>, p: seq<Class>, i: nat, m: Class)
    requires GoodModels(t) && IsPath(t, m, {}, p) && i < |p| && SomeReaches(t, products, t.name(p[i]).value)
    ensures SomeReaches(t, products, t.name(p[|p| - 1]).value)
  {
    var x :| x in products && NameReached(t, x, {}, t.name(p[i]).value);
    var b :| Reached(t, x, {}, b) && t.name(b) == t.name(p[i]);
    assert b == p[i];
    if i < |p| - 1 {
      var q := p[i + 1..];
      assert IsPath(t, b, {}, q) && q[|q| - 1] == p[|p| - 1];
      PathsJoin(t, x, b, q);
      assert NameReached(t, x, {}, t.name(p[|p| - 1]).value);
    }
  }

  /** Main theorem: the blocks of all products are exactly the named blocks that a product reaches, each under
      its name. */
  lemma {:induction false} ProductsReach(t: Models, products: seq<Class>)
    requires GoodModels(t)
    ensures var r := OfProducts(t, products);
      forall n :: (n in r <==> SomeReaches(t, products, n)) && (n in r ==> t.name(r[n]) == Some(n))
    decreases |products|
  {
    hide InClass, NameReached;
    if products != [] {
      var k := |products| - 1;
      assert products == products[..k] + [products[k]];
      ProductsReach(t, products[..k]);
      var known := OfProducts(t, products[..k]);
      forall n
        ensures n in OfProducts(t, products) <==> SomeReaches(t, products, n)
        ensures n in OfProducts(t, products) ==> t.name(OfProducts(t, products)[n]) == Some(n)
      {
        CollectsExactly(t, products[k], known, n);
        CollectsReached(t, products[k], known, n);
        OneMoreProduct(t, products[..k], products[k], known.Keys, n);
      }
    }
  }

  /** Main theorem, for all models: the blocks of all products are exactly the names that are followed from one
      of them when what the products before it gave is known, and the class that a name is given first stays. */
  lemma {:induction false} ProductsFollowed(t: Models, products: seq<Class>, n: Name)
    requires Named(t)
    ensures var r := OfProducts(t, products);
      && (n in r <==> exists k :: 0 <= k < |products| && FollowedFrom(t, products, k, n))
      && (n in r ==> t.name(r[n]) == Some(n))
      && forall k | 0 <= k <= |products| ::
        n in OfProducts(t, products[..k]) ==> n in r && r[n] == OfProducts(t, products[..k])[n]
    decreases |products|
  {
    hide InClass, NameFollowed;
    if products != [] {
      var l := |products| - 1;
      var fewer := products[..l];
      ProductsFollowed(t, fewer, n);
      CollectsFollowed(t, products[l], OfProducts(t, fewer), n);
      assert forall k | 0 <= k <= l :: fewer[..k] == products[..k];
      assert products[..|products|] == products;
      assert forall k | 0 <= k < l :: FollowedFrom(t, products, k, n) <==> FollowedFrom(t, fewer, k, n);
      assert FollowedFrom(t, products, l, n) <==> NameFollowed(t, products[l], OfProducts(t, fewer).Keys, n);
    }
  }

  /** The name is followed from the k-th product when what the products before it gave is known. */
  ghost predicate FollowedFrom(t: Models, products: seq<Class>, k: nat, n: Name)
    requires Named(t) && k < |products|
  {
    NameFollowed(t, products[k], OfProducts(t, products[..k]).Keys, n)
  }

  // ---- two classes of one name --------------------------------------------------------------------

  lemma NoneFollowed(t: Models, m: Class, known: set<Name>, n: Name)
    requires NewBlocks(t, t.uses(m), known) == []
    ensures !NameFollowed(t, m, known, n)
  {
    NameFollowedSplits(t, m, known, n);
  }

  /** A product with the blocks 1 and 2, both named "a"; only block 1 depends on block 3, named "b". */
  function Twins(): Models {
    Models((m: Class) => if m == 0 then [1, 2] else if m == 1 then [3] else [],
           (c: Class) => if c == 1 || c == 2 then Some("a") else if c == 3 then Some("b") else None,
           {"a", "b"})
  }

  lemma TwinsAreReached()
    ensures Named(Twins()) && !OneClassEach(Twins()) && NameReached(Twins(), 0, {}, "b")
  {
    hide Reached;
    var t := Twins();
    assert t.name(1) == t.name(2);
    assert t.uses(0)[0] == 1 && t.uses(1)[0] == 3;
    DirectIsReached(t, 1, {}, 3);
    ReachedBefore(t, 0, {}, {}, 1, 3);
  }

  lemma TwinIsReplaced()
    ensures NewBlocks(Twins(), Twins().uses(0), {}) == [2] && NewBlocks(Twins(), Twins().uses(2), {"a"}) == []
  {
    var t := Twins();
    assert [1, 2][..1] == [1] && [1][..0] == [];
    assert NewBlocks(t, [1], {}) == Put(t, NewBlocks(t, [], {}), 1) == [1];
    assert NewBlocks(t, [1, 2], {}) == Put(t, [1], 2) == [2];
  }

  /** Among what one class depends on the last class of a name is kept, so what only the other one depends on is
      reached and not collected. */
  lemma TwinIsNotFollowed()
    ensures Named(Twins()) && !OneClassEach(Twins())
    ensures NameReached(Twins(), 0, {}, "b") && "b" !in InClass(Twins(), 0, map[])
    ensures "a" in InClass(Twins(), 0, map[]) && InClass(Twins(), 0, map[])["a"] == 2
  {
    hide NewBlocks, InClass, NameReached, NameFollowed;
    var t, none: map<Name, Class> := Twins(), map[];
    TwinsAreReached();
    TwinIsReplaced();
    assert none.Keys == {} && {} + Names(t, [2]) == {"a"};
    NameFollowedSplits(t, 0, {}, "b");
    NoneFollowed(t, 2, {"a"}, "b");
    CollectsFollowed(t, 0, none, "b");
    LastIsKept(t, 0, none, 1);
  }

  /** A product with the blocks 1, named "a", and 4, named "c"; block 4 depends on block 2, also named "a", and
      that one on block 3, named "b". */
  function DeepTwins(): Models {
    Models((m: Class) => if m == 0 then [1, 4] else if m == 4 then [2] else if m == 2 then [3] else [],
           (c: Class) => if c == 1 || c == 2 then Some("a") else if c == 3 then Some("b")
                         else if c == 4 then Some("c") else None,
           {"a", "b", "c"})
  }

  lemma DeepTwinsAreNamed()
    ensures Named(DeepTwins())
  {
  }

  lemma DeepTwinsAreReached()
    ensures NameReached(DeepTwins(), 0, {}, "b")
  {
    var t := DeepTwins();
    assert t.uses(0)[1] == 4 && t.uses(4)[0] == 2 && t.uses(2)[0] == 3;
    DirectIsReached(t, 2, {}, 3);
    ReachedBefore(t, 4, {}, {}, 2, 3);
    ReachedBefore(t, 0, {}, {}, 4, 3);
    assert t.name(3) == Some("b");
  }

  lemma DeepTwinIsKnown()
    ensures NewBlocks(DeepTwins(), DeepTwins().uses(0), {}) == [1, 4]
    ensures NewBlocks(DeepTwins(), DeepTwins().uses(1), {"a", "c"}) == []
    ensures NewBlocks(DeepTwins(), DeepTwins().uses(4), {"a", "c"}) == []
  {
    var t := DeepTwins();
    assert [1, 4][..1] == [1] && [1][..0] == [] && [2][..0] == [];
    assert NewBlocks(t, [1], {}) == Put(t, NewBlocks(t, [], {}), 1) == [1];
    var one, none: seq<Class> := [1], [];
    assert one[1..] == none && t.name(1) != t.name(4);
    assert Put(t, one, 4) == [1] + Put(t, none, 4);
    assert NewBlocks(t, [1, 4], {}) == Put(t, [1], 4);
    assert NewBlocks(t, [2], {"a", "c"}) == NewBlocks(t, [], {"a", "c"}) == [];
  }

  /** Across levels the first class of a name is kept, and again what only the other one depends on is lost. */
  lemma DeepTwinIsNotFollowed()
    ensures Named(DeepTwins())
    ensures NameReached(DeepTwins(), 0, {}, "b") && "b" !in InClass(DeepTwins(), 0, map[])
    ensures "a" in InClass(DeepTwins(), 0, map[]) && InClass(DeepTwins(), 0, map[])["a"] == 1
  {
    hide NewBlocks, InClass, NameReached, NameFollowed;
    var t, none: map<Name, Class> := DeepTwins(), map[];
    DeepTwinsAreNamed();
    DeepTwinsAreReached();
    DeepTwinIsKnown();
    assert 1 in [1, 4] && t.name(1) == Some("a") && 4 in [1, 4] && t.name(4) == Some("c");
    assert none.Keys == {} && {} + Names(t, [1, 4]) == {"a", "c"};
    NameFollowedSplits(t, 0, {}, "b");
    NoneFollowed(t, 1, {"a", "c"}, "b");
    NoneFollowed(t, 4, {"a", "c"}, "b");
    CollectsFollowed(t, 0, none, "b");
    LastIsKept(t, 0, none, 0);
  }
}
