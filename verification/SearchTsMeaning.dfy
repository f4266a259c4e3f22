/** The string of any other tree is no tsquery: so a string means its tree exactly when every word, phrase
    and group of the tree has something to search for. */
module SearchTsMeaning {
  import opened Wrappers
  import opened SearchGrammar
  import opened SearchTree
  import opened SearchTsQuery
  import opened SearchTsReader
  import opened SearchTsSolid

  // ---- a hollow tree is not -----------------------------------------------------------------------

  const OPERATORS: set<Piece> := {FollowOp, AndOp, OrOp}

  /** What may come next in a tsquery, as far as the last piece tells. */
  datatype Mode = WantOperand | WantOperator | Broken

  function Step(m: Mode, p: Piece): Mode {
    match m
    case Broken => Broken
    case WantOperand => if p == LP || p == NotOp then WantOperand else if p.Lexeme? then WantOperator else Broken
    case WantOperator =>
      if p == RP || p == PrefixMark then WantOperator else if p in OPERATORS then WantOperand else Broken
  }

  function Scan(m: Mode, ps: seq<Piece>): Mode
    decreases |ps|
  {
    if ps == [] then m else Scan(Step(m, ps[0]), ps[1..])
  }

  lemma {:induction false} ScanConcat(m: Mode, a: seq<Piece>, b: seq<Piece>)
    ensures Scan(m, a + b) == Scan(Scan(m, a), b)
    decreases |a|
  {
    if a == [] {
      assert a + b == b;
    } else {
      assert (a + b)[1..] == a[1..] + b;
      ScanConcat(Step(m, a[0]), a[1..], b);
    }
  }

  lemma ScanCons(m: Mode, p: Piece, b: seq<Piece>)
    ensures Scan(m, [p] + b) == Scan(Step(m, p), b)
  {
    assert ([p] + b)[1..] == b;
  }

  lemma {:induction false} ScanBroken(ps: seq<Piece>)
    ensures Scan(Broken, ps) == Broken
  {
    if ps != [] {
      ScanBroken(ps[1..]);
    }
  }

  /** One more piece is read. */
  lemma ScanOneMore(m: Mode, ps: seq<Piece>, i: nat, j: nat)
    requires i <= j < |ps|
    ensures Scan(m, ps[i..j + 1]) == Step(Scan(m, ps[i..j]), ps[j])
  {
    assert ps[i..j + 1] == ps[i..j] + [ps[j]];
    ScanConcat(m, ps[i..j], [ps[j]]);
    assert [ps[j]][1..] == [];
  }

  lemma ScanThen(m: Mode, ps: seq<Piece>, i: nat, j: nat, k: nat)
    requires i <= j <= k <= |ps|
    ensures Scan(m, ps[i..k]) == Scan(Scan(m, ps[i..j]), ps[j..k])
  {
    assert ps[i..k] == ps[i..j] + ps[j..k];
    ScanConcat(m, ps[i..j], ps[j..k]);
  }

  lemma ScanNone(m: Mode, ps: seq<Piece>, i: nat)
    requires i <= |ps|
    ensures Scan(m, ps[i..i]) == m
  {
  }

  lemma {:induction false} UnaryScans(ps: seq<Piece>, i: nat)
    requires i <= |ps| && ReadUnary(ps, i).Ok?
    ensures Scan(WantOperand, ps[i..ReadUnary(ps, i).next]) == WantOperator
    decreases |ps| - i, 0
  {
    hide Scan;
    var j := ReadUnary(ps, i).next;
    ScanNone(WantOperand, ps, i);
    ScanOneMore(WantOperand, ps, i, i);
    if ps[i].Lexeme? {
      if j == i + 2 {
        ScanOneMore(WantOperand, ps, i, i + 1);
      }
    } else if ps[i] == NotOp {
      UnaryScans(ps, i + 1);
      ScanThen(WantOperand, ps, i, i + 1, j);
    } else if ps[i] == LP {
      OrScans(ps, i + 1);
      ScanThen(WantOperand, ps, i, i + 1, j - 1);
      ScanOneMore(WantOperand, ps, i, j - 1);
    }
  }

  lemma {:induction false} FollowScans(ps: seq<Piece>, i: nat)
    requires i <= |ps| && ReadFollow(ps, i).Ok?
    ensures Scan(WantOperand, ps[i..ReadFollow(ps, i).next]) == WantOperator
    decreases |ps| - i, 1
  {
    hide Scan;
    UnaryScans(ps, i);
    var j := ReadUnary(ps, i).next;
    if j < |ps| && ps[j] == FollowOp {
      FollowScans(ps, j + 1);
      ScanOneMore(WantOperand, ps, i, j);
      ScanThen(WantOperand, ps, i, j + 1, ReadFollow(ps, i).next);
    }
  }

  lemma {:induction false} AndScans(ps: seq<Piece>, i: nat)
    requires i <= |ps| && ReadAnd(ps, i).Ok?
    ensures Scan(WantOperand, ps[i..ReadAnd(ps, i).next]) == WantOperator
    decreases |ps| - i, 2
  {
    hide Scan;
    FollowScans(ps, i);
    var j := ReadFollow(ps, i).next;
    if j < |ps| && ps[j] == AndOp {
      AndScans(ps, j + 1);
      ScanOneMore(WantOperand, ps, i, j);
      ScanThen(WantOperand, ps, i, j + 1, ReadAnd(ps, i).next);
    }
  }

  lemma {:induction false} OrScans(ps: seq<Piece>, i: nat)
    requires i <= |ps| && ReadOr(ps, i).Ok?
    ensures Scan(WantOperand, ps[i..ReadOr(ps, i).next]) == WantOperator
    decreases |ps| - i, 3
  {
    hide Scan;
    AndScans(ps, i);
    var j := ReadAnd(ps, i).next;
    if j < |ps| && ps[j] == OrOp {
      OrScans(ps, j + 1);
      ScanOneMore(WantOperand, ps, i, j);
      ScanThen(WantOperand, ps, i, j + 1, ReadOr(ps, i).next);
    }
  }

  /** The pieces that should be an operand are none. */
  predicate Hollow(ps: seq<Piece>) {
    Scan(WantOperand, ps) != WantOperator
  }

  /** What follows a hollow operand does not mend it. */
  lemma HollowThenOperator(a: seq<Piece>, p: Piece, b: seq<Piece>)
    requires Hollow(a) && (p in OPERATORS || p == RP)
    ensures Hollow(a + ([p] + b))
  {
    ScanConcat(WantOperand, a, [p] + b);
    ScanCons(Scan(WantOperand, a), p, b);
    ScanBroken(b);
  }

  lemma HollowAfterOperator(a: seq<Piece>, p: Piece, b: seq<Piece>)
    requires Hollow(b) && p in OPERATORS
    ensures Hollow(a + ([p] + b))
  {
    ScanConcat(WantOperand, a, [p] + b);
    ScanCons(Scan(WantOperand, a), p, b);
    ScanBroken(b);
  }

  lemma {:induction false} HollowJoined(op: Piece, items: seq<seq<Piece>>, k: nat)
    requires op in OPERATORS && k < |items| && Hollow(items[k])
    ensures Hollow(Joined(op, items))
    decreases |items|
  {
    hide Hollow, Joined;
    JoinedCons(op, items);
    if |items| > 1 {
      if k == 0 {
        HollowThenOperator(items[0], op, Joined(op, items[1..]));
      } else {
        HollowJoined(op, items[1..], k - 1);
        HollowAfterOperator(items[0], op, Joined(op, items[1..]));
      }
    }
  }

  lemma HollowEnclosed(items: seq<seq<Piece>>)
    requires items == [] || Hollow(Joined(OrOp, items))
    ensures Hollow(Enclosed(items))
  {
    if items == [] {
      ScanCons(WantOperand, RP, []);
      assert [RP] + [] == [RP];
    } else {
      var inner := Joined(OrOp, items);
      ScanCons(WantOperand, LP, inner + [RP]);
      HollowThenOperator(inner, RP, []);
      assert [RP] + [] == [RP];
    }
  }

  lemma {:induction false} HollowWord(ws: seq<SearchWord>) returns (k: nat)
    requires !SolidWords(ws)
    ensures k < |ws| && Parts(ws[k].text) == []
  {
    if Parts(ws[0].text) == [] {
      k := 0;
    } else {
      var j := HollowWord(ws[1..]);
      k := j + 1;
    }
  }

  lemma HollowValue(v: Value)
    requires !SolidValue(v)
    ensures Hollow(ValuePieces(v))
  {
    if v.Phrase? && v.words != [] {
      var k := HollowWord(v.words);
      assert Hollow(WordPieces(v.words[k]));
      HollowJoined(FollowOp, WordItems(v.words), k);
    }
  }

  lemma {:induction false} HollowAlternative(vs: seq<Value>) returns (k: nat)
    requires !SolidValues(vs)
    ensures k < |vs| && Hollow(ValuePieces(vs[k]))
  {
    hide Hollow, ValuePieces, SolidValue;
    if !SolidValue(vs[0]) {
      HollowValue(vs[0]);
      k := 0;
    } else {
      var j := HollowAlternative(vs[1..]);
      k := j + 1;
    }
  }

  lemma HollowKV(kv: KVValue)
    requires !SolidKV(kv)
    ensures Hollow(KVPieces(kv))
  {
    hide Hollow, Joined, Enclosed;
    match kv
    case One(v) => HollowValue(v);
    case ValueGroup(vs) =>
      if vs != [] {
        var k := HollowAlternative(vs);
        HollowJoined(OrOp, ValueItems(vs), k);
      }
      HollowEnclosed(ValueItems(vs));
  }

  lemma {:induction false} HollowTerm(snake: string -> string, t: Term)
    requires GoodTerm(t) && !SolidTerm(snake, t)
    ensures Hollow(TermPieces(snake, t))
    decreases t, 1
  {
    hide Joined, Enclosed, Scan, ValuePieces, KVPieces;
    match t
    case Plain(v) => HollowValue(v);
    case KVTerm(k, kv) =>
      var key := KeyValue(snake, k);
      KeyIsValue(snake, k);
      if !SolidValue(key) {
        HollowValue(key);
        HollowThenOperator(ValuePieces(key), FollowOp, KVPieces(kv));
      } else {
        HollowKV(kv);
        HollowAfterOperator(ValuePieces(key), FollowOp, KVPieces(kv));
      }
    case Group(es) =>
      if es != [] {
        var k := HollowAnd(snake, es);
        HollowJoined(OrOp, AndItems(snake, es), k);
      }
      HollowEnclosed(AndItems(snake, es));
    case Negation(p) =>
      HollowTerm(snake, p);
      var inner := TermPieces(snake, p);
      ScanCons(WantOperand, NotOp, NegatedPieces(snake, p));
      ScanCons(WantOperand, LP, inner + [RP]);
      HollowThenOperator(inner, RP, []);
      assert [RP] + [] == [RP];
  }

  lemma {:induction false} HollowAmong(snake: string -> string, ts: seq<Term>) returns (k: nat)
    requires GoodTerms(ts) && !SolidTerms(snake, ts)
    ensures k < |ts| && Hollow(TermPieces(snake, ts[k]))
    decreases ts, 2
  {
    hide Hollow;
    if !SolidTerm(snake, ts[0]) {
      HollowTerm(snake, ts[0]);
      k := 0;
    } else {
      var j := HollowAmong(snake, ts[1..]);
      k := j + 1;
    }
  }

  lemma {:induction false} HollowAnd(snake: string -> string, es: seq<AndExpression>) returns (k: nat)
    requires GoodQuery(es) && !SolidAlternatives(snake, es)
    ensures k < |es| && Hollow(AndItems(snake, es)[k])
    decreases es, 3
  {
    hide Hollow, Joined;
    if !SolidTerms(snake, es[0].terms) {
      var j := HollowAmong(snake, es[0].terms);
      HollowJoined(AndOp, TermItems(snake, es[0].terms), j);
      k := 0;
    } else {
      var j := HollowAnd(snake, es[1..]);
      k := j + 1;
    }
  }

  lemma HollowIsUnreadable(snake: string -> string, q: Query)
    requires GoodQuery(q) && !Solid(snake, q)
    ensures Read(QueryPieces(snake, q)) == None
  {
    hide ReadOr, Joined;
    var ps := QueryPieces(snake, q);
    if q == [] {
      assert ps == [] by { JoinedNothing([], OrOp, AndItems(snake, q)); }
    } else {
      var k := HollowAnd(snake, q);
      HollowJoined(OrOp, AndItems(snake, q), k);
    }
    assert Hollow(ps);
    assert ps[0..|ps|] == ps;
    if ReadOr(ps, 0).Ok? {
      OrScans(ps, 0);
    }
  }

  /** Main theorem: the visitor's string can be read as a tsquery exactly when every word, phrase and
      group of the tree has something to search for, and then it is read as the tree means. */
  lemma StringMeansTree(snake: string -> string, q: Query)
    requires GoodQuery(q)
    ensures Read(QueryPieces(snake, q)) == if Solid(snake, q) then Some(Meaning(snake, q)) else None
  {
    if Solid(snake, q) {
      SolidReads(snake, q);
    } else {
      HollowIsUnreadable(snake, q);
    }
  }
}
