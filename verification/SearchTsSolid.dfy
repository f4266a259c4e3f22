/** The string of a tree with something to search for everywhere is read as the tree means. */
module SearchTsSolid {
  import opened Wrappers
  import opened SearchGrammar
  import opened SearchTree
  import opened SearchTsQuery
  import opened SearchTsReader
  import opened Sequences

  // ---- sequences of items -------------------------------------------------------------------------

  lemma {:induction false} TrailingCons(op: Piece, x: seq<Piece>, items: seq<seq<Piece>>)
    ensures Trailing(op, [x] + items) == x + ([op] + Trailing(op, items))
  {
    var all := [x] + items;
    if items == [] {
      assert all[..0] == [];
      assert Trailing(op, all) == [] + (x + [op]);
    } else {
      var n := |items| - 1;
      assert all[..n + 1] == [x] + items[..n] && all[n + 1] == items[n];
      TrailingCons(op, x, items[..n]);
      var front, last := Trailing(op, items[..n]), items[n] + [op];
      assert Trailing(op, all) == (x + ([op] + front)) + last;
      assert (x + ([op] + front)) + last == x + ([op] + (front + last));
    }
  }

  lemma JoinedCons(op: Piece, items: seq<seq<Piece>>)
    requires items != []
    ensures |items| == 1 ==> Joined(op, items) == items[0]
    ensures |items| > 1 ==> Joined(op, items) == items[0] + ([op] + Joined(op, items[1..]))
  {
    if |items| == 1 {
      assert items[..0] == [];
      assert [] + items[0] == items[0];
    } else {
      var n := |items| - 1;
      var first, last := items[0], items[n];
      assert items[..n] == [first] + items[1..n];
      TrailingCons(op, first, items[1..n]);
      assert items[1..][..n - 1] == items[1..n];
      assert Joined(op, items[1..]) == Trailing(op, items[1..n]) + last;
      assert first + ([op] + Trailing(op, items[1..n])) + last == first + ([op] + (Trailing(op, items[1..n]) + last));
    }
  }

  lemma {:induction false} JoinedConcat(op: Piece, a: seq<seq<Piece>>, b: seq<seq<Piece>>)
    requires a != [] && b != []
    ensures Joined(op, a + b) == Joined(op, a) + ([op] + Joined(op, b))
  {
    hide Joined;
    JoinedCons(op, a);
    JoinedCons(op, a + b);
    assert (a + b)[1..] == a[1..] + b;
    if |a| == 1 {
      assert a[1..] + b == b;
    } else {
      JoinedConcat(op, a[1..], b);
    }
  }

  // ---- a solid tree is read back ------------------------------------------------------------------

  /** No operator of the given kinds stands at position `j`. */
  predicate Stops(ps: seq<Piece>, j: nat, ops: set<Piece>) {
    j <= |ps| && (j < |ps| ==> ps[j] !in ops)
  }

  const FOLLOW: set<Piece> := {PrefixMark, FollowOp}
  const AND: set<Piece> := {PrefixMark, FollowOp, AndOp}
  const OR: set<Piece> := {PrefixMark, FollowOp, AndOp, OrOp}

  /** From `i` to `j` stands an operand that is read as `e`. */
  ghost predicate OperandReads(ps: seq<Piece>, i: nat, j: nat, e: Ts) {
    i <= j <= |ps| && (Stops(ps, j, {PrefixMark}) ==> ReadUnary(ps, i) == Ok(e, j))
  }

  /** From `i` to `j` stand items that follow each other and read as `es`. */
  ghost predicate FollowReads(ps: seq<Piece>, i: nat, j: nat, es: seq<Ts>) {
    && i <= j <= |ps|
    && (Stops(ps, j, FOLLOW) ==> ReadFollow(ps, i) == Ok(es, j))
    && (j < |ps| && ps[j] == FollowOp ==> ReadFollow(ps, i) == Prepend(es, ReadFollow(ps, j + 1)))
  }

  lemma FollowOne(ps: seq<Piece>, i: nat, j: nat, e: Ts)
    requires OperandReads(ps, i, j, e)
    ensures FollowReads(ps, i, j, [e])
  {
    hide ReadUnary;
  }

  lemma FollowConcat(ps: seq<Piece>, i: nat, j: nat, k: nat, a: seq<Ts>, b: seq<Ts>)
    requires FollowReads(ps, i, j, a) && j < |ps| && ps[j] == FollowOp && FollowReads(ps, j + 1, k, b)
    ensures FollowReads(ps, i, k, a + b)
  {
    hide ReadFollow;
    if k < |ps| && ps[k] == FollowOp {
      PrependTwice(a, b, ReadFollow(ps, k + 1));
    }
  }

  /** A single list of followers is read as a conjunction, or as an alternative, of one. */
  lemma FollowersAlone(ps: seq<Piece>, i: nat, j: nat, es: seq<Ts>)
    requires FollowReads(ps, i, j, es)
    ensures Stops(ps, j, AND) ==> ReadAnd(ps, i) == Ok([MkFollow(es)], j)
    ensures Stops(ps, j, OR) ==> ReadOr(ps, i) == Ok([MkFollow(es)], j)
    ensures j < |ps| && ps[j] == OrOp ==> ReadOr(ps, i) == Prepend([MkFollow(es)], ReadOr(ps, j + 1))
    ensures j < |ps| && ps[j] == AndOp ==> ReadAnd(ps, i) == Prepend([MkFollow(es)], ReadAnd(ps, j + 1))
  {
    hide ReadFollow;
  }

  /** Items in parentheses. */
  lemma EnclosedReads(ps: seq<Piece>, i: nat, inner: seq<Piece>, es: seq<Ts>)
    requires Stands(ps, i, [LP] + (inner + [RP]))
    requires ReadOr(ps, i + 1) == Ok(es, i + 1 + |inner|)
    ensures ReadUnary(ps, i) == Ok(MkOr(es), i + |inner| + 2)
  {
    hide ReadOr;
    StandsSplit(ps, i, [LP], inner + [RP]);
    StandsSplit(ps, i + 1, inner, [RP]);
  }

  /** Where the inside of parentheses stands. */
  lemma EnclosedStands(ps: seq<Piece>, i: nat, inner: seq<Piece>)
    requires Stands(ps, i, [LP] + (inner + [RP]))
    ensures Stands(ps, i + 1, inner) && Stops(ps, i + 1 + |inner|, OR)
  {
    StandsSplit(ps, i, [LP], inner + [RP]);
    StandsSplit(ps, i + 1, inner, [RP]);
  }

  lemma PartPiecesCons(parts: seq<string>, prefix: bool)
    requires parts != []
    ensures |parts| == 1 ==> PartPieces(parts, prefix) == [Lexeme(parts[0])] + if prefix then [PrefixMark] else []
    ensures |parts| > 1 ==>
      PartPieces(parts, prefix) == [Lexeme(parts[0])] + ([FollowOp] + PartPieces(parts[1..], prefix))
  {
    hide Joined;
    JoinedCons(FollowOp, PartItems(parts));
  }

  lemma LexemeReads(ps: seq<Piece>, i: nat, text: string, prefix: bool)
    requires Stands(ps, i, [Lexeme(text)] + if prefix then [PrefixMark] else [])
    ensures OperandReads(ps, i, i + 1 + if prefix then 1 else 0, Lex(text, prefix))
  {
    StandsSplit(ps, i, [Lexeme(text)], if prefix then [PrefixMark] else []);
  }

  /** The parts of a word, outside of parentheses. */
  lemma {:induction false} PartsRead(ps: seq<Piece>, i: nat, parts: seq<string>, prefix: bool)
    requires parts != [] && Stands(ps, i, PartPieces(parts, prefix))
    ensures FollowReads(ps, i, i + |PartPieces(parts, prefix)|, PartMeanings(parts, prefix))
    decreases |parts|
  {
    hide ReadUnary, FollowReads, PartPieces, Stands;
    PartPiecesCons(parts, prefix);
    var e := Lex(parts[0], prefix && |parts| == 1);
    if |parts| == 1 {
      LexemeReads(ps, i, parts[0], prefix);
      FollowOne(ps, i, i + |PartPieces(parts, prefix)|, e);
      assert PartMeanings(parts, prefix) == [e];
    } else {
      var rest := PartPieces(parts[1..], prefix);
      StandsSplit(ps, i, [Lexeme(parts[0])], [FollowOp] + rest);
      StandsSplit(ps, i + 1, [FollowOp], rest);
      assert [Lexeme(parts[0])] + [] == [Lexeme(parts[0])];
      LexemeReads(ps, i, parts[0], false);
      FollowOne(ps, i, i + 1, e);
      PartsRead(ps, i + 2, parts[1..], prefix);
      FollowConcat(ps, i, i + 1, i + |PartPieces(parts, prefix)|, [e], PartMeanings(parts[1..], prefix));
    }
  }

  lemma WordReads(ps: seq<Piece>, i: nat, w: SearchWord)
    requires Parts(w.text) != [] && Stands(ps, i, WordPieces(w))
    ensures OperandReads(ps, i, i + |WordPieces(w)|, WordMeaning(w))
  {
    hide Parts, ReadUnary, ReadOr, FollowReads, PartPieces, Stands;
    var parts := Parts(w.text);
    if |parts| == 1 {
      PartPiecesCons(parts, w.prefix);
      LexemeReads(ps, i, parts[0], w.prefix);
    } else {
      var inner := PartPieces(parts, w.prefix);
      EnclosedStands(ps, i, inner);
      PartsRead(ps, i + 1, parts, w.prefix);
      FollowersAlone(ps, i + 1, i + 1 + |inner|, PartMeanings(parts, w.prefix));
      EnclosedReads(ps, i, inner, [WordMeaning(w)]);
    }
  }

  lemma {:induction false} WordsRead(ps: seq<Piece>, i: nat, ws: seq<SearchWord>)
    requires ws != [] && SolidWords(ws) && Stands(ps, i, Joined(FollowOp, WordItems(ws)))
    ensures FollowReads(ps, i, i + |Joined(FollowOp, WordItems(ws))|, WordMeanings(ws))
    decreases |ws|
  {
    hide Parts, OperandReads, FollowReads, Joined, Stands, WordMeaning, WordPieces;
    var items := WordItems(ws);
    var op := FollowOp;
    JoinedCons(op, items);
    var e := WordMeaning(ws[0]);
    var j := i + |items[0]|;
    if |ws| == 1 {
      WordReads(ps, i, ws[0]);
      FollowOne(ps, i, j, e);
      assert WordMeanings(ws) == [e];
    } else {
      StandsSplit(ps, i, items[0], [op] + Joined(op, items[1..]));
      StandsSplit(ps, j, [op], Joined(op, items[1..]));
      WordReads(ps, i, ws[0]);
      FollowOne(ps, i, j, e);
      WordsRead(ps, j + 1, ws[1..]);
      FollowConcat(ps, i, j, i + |Joined(op, items)|, [e], WordMeanings(ws[1..]));
    }
  }

  lemma ValueReads(ps: seq<Piece>, i: nat, v: Value)
    requires SolidValue(v) && Stands(ps, i, ValuePieces(v))
    ensures FollowReads(ps, i, i + |ValuePieces(v)|, ValueMeanings(v))
  {
    hide Parts, OperandReads, FollowReads, Joined, Stands, WordPieces, WordMeaning;
    match v
    case Single(w) =>
      WordReads(ps, i, w);
      FollowOne(ps, i, i + |WordPieces(w)|, WordMeaning(w));
    case Phrase(ws) => WordsRead(ps, i, ws);
  }

  lemma {:induction false} AlternativesRead(ps: seq<Piece>, i: nat, vs: seq<Value>)
    requires vs != [] && SolidValues(vs) && Stands(ps, i, Joined(OrOp, ValueItems(vs)))
    requires Stops(ps, i + |Joined(OrOp, ValueItems(vs))|, OR)
    ensures ReadOr(ps, i) == Ok(AlternativeMeanings(vs), i + |Joined(OrOp, ValueItems(vs))|)
    decreases |vs|
  {
    hide ReadOr, FollowReads, Joined, Stands, ValuePieces, SolidValue, ValueMeanings, MkFollow;
    var items := ValueItems(vs);
    var op := OrOp;
    JoinedCons(op, items);
    var j := i + |items[0]|;
    if |vs| == 1 {
      ValueReads(ps, i, vs[0]);
      FollowersAlone(ps, i, j, ValueMeanings(vs[0]));
      assert AlternativeMeanings(vs) == [MkFollow(ValueMeanings(vs[0]))];
    } else {
      StandsSplit(ps, i, items[0], [op] + Joined(op, items[1..]));
      StandsSplit(ps, j, [op], Joined(op, items[1..]));
      ValueReads(ps, i, vs[0]);
      FollowersAlone(ps, i, j, ValueMeanings(vs[0]));
      AlternativesRead(ps, j + 1, vs[1..]);
    }
  }

  lemma KVReads(ps: seq<Piece>, i: nat, kv: KVValue)
    requires SolidKV(kv) && Stands(ps, i, KVPieces(kv))
    ensures FollowReads(ps, i, i + |KVPieces(kv)|, KVMeanings(kv))
  {
    hide FollowReads, ReadOr, ReadUnary, Stands, Joined, ValuePieces, SolidValue, ValueMeanings, ValueItems, Stops,
      MkOr, MkFollow, AlternativeMeanings;
    match kv
    case One(v) => ValueReads(ps, i, v);
    case ValueGroup(vs) =>
      var inner := Joined(OrOp, ValueItems(vs));
      EnclosedStands(ps, i, inner);
      AlternativesRead(ps, i + 1, vs);
      EnclosedReads(ps, i, inner, AlternativeMeanings(vs));
      FollowOne(ps, i, i + |inner| + 2, MkOr(AlternativeMeanings(vs)));
  }

  /** A key is written as the value that it means. */
  lemma KeyIsValue(snake: string -> string, key: Value)
    ensures ValueMeanings(KeyValue(snake, key)) == KeyMeanings(snake, key)
    ensures SolidValue(KeyValue(snake, key)) <==> SolidKey(snake, key)
  {
    hide Parts;
  }

  lemma KVTermReads(snake: string -> string, ps: seq<Piece>, i: nat, k: Value, kv: KVValue)
    requires SolidTerm(snake, KVTerm(k, kv)) && Stands(ps, i, TermPieces(snake, KVTerm(k, kv)))
    ensures FollowReads(ps, i, i + |TermPieces(snake, KVTerm(k, kv))|, TermMeanings(snake, KVTerm(k, kv)))
  {
    hide FollowReads, Stands, ValuePieces, KVPieces, SolidValue, SolidKV, ValueMeanings, KVMeanings, KeyValue, SolidKey,
      KeyMeanings;
    KeyIsValue(snake, k);
    var key := KeyValue(snake, k);
    var a := ValuePieces(key);
    StandsSplit(ps, i, a, [FollowOp] + KVPieces(kv));
    StandsSplit(ps, i + |a|, [FollowOp], KVPieces(kv));
    ValueReads(ps, i, key);
    KVReads(ps, i + |a| + 1, kv);
    FollowConcat(ps, i, i + |a|, i + |a| + 1 + |KVPieces(kv)|, ValueMeanings(key), KVMeanings(kv));
  }

  lemma {:induction false} TermReads(snake: string -> string, ps: seq<Piece>, i: nat, t: Term)
    requires GoodTerm(t) && SolidTerm(snake, t) && Stands(ps, i, TermPieces(snake, t))
    ensures FollowReads(ps, i, i + |TermPieces(snake, t)|, TermMeanings(snake, t))
    decreases t, 1
  {
    hide FollowReads, ReadUnary, Stands, ValuePieces, KVPieces, Enclosed, NegatedPieces, QueryMeanings, ValueMeanings,
        GoodQuery, GoodValue, SolidValue, SolidAlternatives;
    match t
    case Plain(v) => ValueReads(ps, i, v);
    case KVTerm(k, kv) => KVTermReads(snake, ps, i, k, kv);
    case Group(es) =>
      GroupReads(snake, ps, i, es);
      FollowOne(ps, i, i + |TermPieces(snake, t)|, MkOr(QueryMeanings(snake, es)));
    case Negation(p) =>
      StandsSplit(ps, i, [NotOp], NegatedPieces(snake, p));
      NegatedReads(snake, ps, i + 1, p);
      NotReads(ps, i, MkFollow(TermMeanings(snake, p)), i + |TermPieces(snake, t)|);
      FollowOne(ps, i, i + |TermPieces(snake, t)|, Not(MkFollow(TermMeanings(snake, p))));
  }

  lemma NotReads(ps: seq<Piece>, i: nat, e: Ts, j: nat)
    requires i < |ps| && ps[i] == NotOp && OperandReads(ps, i + 1, j, e)
    ensures OperandReads(ps, i, j, Not(e))
  {
  }

  lemma {:induction false} GroupReads(snake: string -> string, ps: seq<Piece>, i: nat, es: seq<AndExpression>)
    requires GoodQuery(es) && es != [] && SolidAlternatives(snake, es) && Stands(ps, i, Enclosed(AndItems(snake, es)))
    ensures ReadUnary(ps, i) == Ok(MkOr(QueryMeanings(snake, es)), i + |Enclosed(AndItems(snake, es))|)
    decreases es, 4
  {
    hide ReadUnary, ReadOr, Stands, Joined;
    var inner := Joined(OrOp, AndItems(snake, es));
    EnclosedStands(ps, i, inner);
    QueryReads(snake, ps, i + 1, es);
    EnclosedReads(ps, i, inner, QueryMeanings(snake, es));
  }

  /** A negated term is read as one operand. */
  lemma {:induction false} NegatedReads(snake: string -> string, ps: seq<Piece>, i: nat, p: Term)
    requires GoodTerm(p) && !p.Negation? && SolidTerm(snake, p) && Stands(ps, i, NegatedPieces(snake, p))
    ensures OperandReads(ps, i, i + |NegatedPieces(snake, p)|, MkFollow(TermMeanings(snake, p)))
    decreases p, 3
  {
    hide ReadUnary, ReadOr, Stands, Joined, FollowReads, Parts, WordPieces, WordMeaning;
    if NeedsParens(p) {
      var inner := TermPieces(snake, p);
      EnclosedStands(ps, i, inner);
      TermReads(snake, ps, i + 1, p);
      FollowersAlone(ps, i + 1, i + 1 + |inner|, TermMeanings(snake, p));
      EnclosedReads(ps, i, inner, [MkFollow(TermMeanings(snake, p))]);
    } else if p.Group? {
      GroupReads(snake, ps, i, p.exprs);
    } else {
      WordReads(ps, i, p.value.word);
    }
  }

  lemma {:induction false} TermsRead(snake: string -> string, ps: seq<Piece>, i: nat, ts: seq<Term>)
    requires ts != [] && GoodTerms(ts) && SolidTerms(snake, ts) && Stands(ps, i, Joined(AndOp, TermItems(snake, ts)))
    requires Stops(ps, i + |Joined(AndOp, TermItems(snake, ts))|, AND)
    ensures ReadAnd(ps, i) == Ok(AndMeanings(snake, ts), i + |Joined(AndOp, TermItems(snake, ts))|)
    decreases ts, 2
  {
    hide ReadAnd, FollowReads, Joined, Stands, TermPieces, SolidTerm, GoodTerm, TermMeanings, MkFollow;
    var items := TermItems(snake, ts);
    var op := AndOp;
    JoinedCons(op, items);
    var j := i + |items[0]|;
    if |ts| == 1 {
      TermReads(snake, ps, i, ts[0]);
      FollowersAlone(ps, i, j, TermMeanings(snake, ts[0]));
      assert AndMeanings(snake, ts) == [MkFollow(TermMeanings(snake, ts[0]))];
    } else {
      StandsSplit(ps, i, items[0], [op] + Joined(op, items[1..]));
      StandsSplit(ps, j, [op], Joined(op, items[1..]));
      TermReads(snake, ps, i, ts[0]);
      FollowersAlone(ps, i, j, TermMeanings(snake, ts[0]));
      TermsRead(snake, ps, j + 1, ts[1..]);
    }
  }

  lemma OrStep(ps: seq<Piece>, i: nat, j: nat, es: seq<Ts>)
    requires i <= |ps| && ReadAnd(ps, i) == Ok(es, j)
    ensures Stops(ps, j, OR) ==> ReadOr(ps, i) == Ok([MkAnd(es)], j)
    ensures j < |ps| && ps[j] == OrOp ==> ReadOr(ps, i) == Prepend([MkAnd(es)], ReadOr(ps, j + 1))
  {
    hide ReadAnd;
  }

  lemma {:induction false} QueryReads(snake: string -> string, ps: seq<Piece>, i: nat, es: seq<AndExpression>)
    requires es != [] && GoodQuery(es) && SolidAlternatives(snake, es)
    requires Stands(ps, i, Joined(OrOp, AndItems(snake, es)))
    requires Stops(ps, i + |Joined(OrOp, AndItems(snake, es))|, OR)
    ensures ReadOr(ps, i) == Ok(QueryMeanings(snake, es), i + |Joined(OrOp, AndItems(snake, es))|)
    decreases es, 3
  {
    hide ReadAnd, ReadOr, Joined, Stands, SolidTerms, GoodTerms, TermItems, AndMeanings, MkAnd;
    var items := AndItems(snake, es);
    var op := OrOp;
    JoinedCons(op, items);
    var j := i + |items[0]|;
    if |es| == 1 {
      TermsRead(snake, ps, i, es[0].terms);
      OrStep(ps, i, j, AndMeanings(snake, es[0].terms));
      assert QueryMeanings(snake, es) == [MkAnd(AndMeanings(snake, es[0].terms))];
    } else {
      StandsSplit(ps, i, items[0], [op] + Joined(op, items[1..]));
      StandsSplit(ps, j, [op], Joined(op, items[1..]));
      TermsRead(snake, ps, i, es[0].terms);
      OrStep(ps, i, j, AndMeanings(snake, es[0].terms));
      QueryReads(snake, ps, j + 1, es[1..]);
    }
  }

  /** The string of a solid tree is read as the tree means. */
  lemma SolidReads(snake: string -> string, q: Query)
    requires GoodQuery(q) && Solid(snake, q)
    ensures Read(QueryPieces(snake, q)) == Some(Meaning(snake, q))
  {
    hide ReadOr, Joined, AndItems, QueryMeanings, GoodQuery, SolidAlternatives;
    var ps := QueryPieces(snake, q);
    assert ps[0..0 + |ps|] == ps;
    QueryReads(snake, ps, 0, q);
  }
}
