/** The language that the parser accepts, as the ways to spell a tree, and that it accepts no more and no less. */
module SearchLanguage {
  import opened Wrappers
  import opened SearchTree
  import opened SearchLexer
  import opened SearchGrammar
  import opened SearchRoundTrip
  import opened Sequences

  /** A value group: after its first value, alternatives may be empty. */
  datatype KVText = OneText(value: Value) | ValuesText(first: Value, more: seq<Option<Value>>)

  datatype TermText =
    | PlainText(value: Value)
    | KeyText(key: Value, kv: KVText)
    | GroupText(alternatives: seq<AndText>)
    | NegatedText(term: TermText)

  /** Terms, maybe none, and maybe a minus sign that negates nothing. */
  datatype AndText = AndText(terms: seq<TermText>, dangling: bool)

  // ---- what is spelled ----------------------------------------------------------------------------

  function Spelled(more: seq<Option<Value>>): seq<Token> {
    if more == [] then []
    else [OpOr] + ((if more[0].Some? then ShowValue(more[0].value) else []) + Spelled(more[1..]))
  }

  function SpelledKV(kv: KVText): seq<Token> {
    match kv
    case OneText(v) => ShowValue(v)
    case ValuesText(first, more) => [LParen] + (ShowValue(first) + (Spelled(more) + [RParen]))
  }

  function SpelledTerm(t: TermText): (r: seq<Token>)
    ensures r != [] && (r[0].Word? || r[0] in {Quote, LParen, OpNeg})
    ensures !t.NegatedText? ==> r[0] != OpNeg
    decreases t, 0
  {
    match t
    case PlainText(v) => ShowValue(v)
    case KeyText(k, kv) => ShowValue(k) + ([Colon] + SpelledKV(kv))
    case GroupText(es) => [LParen] + (SpelledQuery(es) + [RParen])
    case NegatedText(p) => [OpNeg] + SpelledTerm(p)
  }

  function SpelledTerms(ts: seq<TermText>): seq<Token>
    decreases ts, 0
  {
    if ts == [] then [] else SpelledTerm(ts[0]) + SpelledTerms(ts[1..])
  }

  function SpelledAnd(terms: seq<TermText>, dangling: bool): seq<Token>
    decreases terms, 1
  {
    SpelledTerms(terms) + if dangling then [OpNeg] else []
  }

  function SpelledQuery(es: seq<AndText>): seq<Token>
    decreases es, 0
  {
    if es == [] then []
    else if |es| == 1 then SpelledAnd(es[0].terms, es[0].dangling)
    else SpelledAnd(es[0].terms, es[0].dangling) + ([OpOr] + SpelledQuery(es[1..]))
  }

  // ---- which tree it spells -----------------------------------------------------------------------

  /** Empty alternatives are dropped. */
  function Named(more: seq<Option<Value>>): seq<Value> {
    if more == [] then [] else (if more[0].Some? then [more[0].value] else []) + Named(more[1..])
  }

  function KVTree(kv: KVText): KVValue {
    match kv
    case OneText(v) => One(v)
    case ValuesText(first, more) => ValueGroup([first] + Named(more))
  }

  function TermTree(t: TermText): Term {
    match t
    case PlainText(v) => Plain(v)
    case KeyText(k, kv) => KVTerm(k, KVTree(kv))
    case GroupText(es) => Group(QueryTree(es))
    case NegatedText(p) => Negation(TermTree(p))
  }

  function TermTrees(ts: seq<TermText>): seq<Term> {
    if ts == [] then [] else [TermTree(ts[0])] + TermTrees(ts[1..])
  }

  /** Alternatives without a term are dropped. */
  function QueryTree(es: seq<AndText>): Query {
    if es == [] then [] else Alternative(TermTrees(es[0].terms)) + QueryTree(es[1..])
  }

  function Alternative(terms: seq<Term>): Query {
    if terms == [] then [] else [AndExpression(terms)]
  }

  // ---- what may be spelled ------------------------------------------------------------------------

  /** A minus sign is not negated, a query has alternatives, maybe empty ones, and a key has a value. */
  predicate FineTerm(t: TermText) {
    match t
    case PlainText(_) => true
    case KeyText(_, kv) => kv != OneText(Phrase([]))
    case GroupText(es) => FineQuery(es)
    case NegatedText(p) => !p.NegatedText? && FineTerm(p)
  }

  predicate FineTerms(ts: seq<TermText>) {
    ts == [] || (FineTerm(ts[0]) && FineTerms(ts[1..]))
  }

  predicate FineQuery(es: seq<AndText>) {
    es != [] && FineTerms(es[0].terms) && (|es| == 1 || FineQuery(es[1..]))
  }

  // ---- all that is spelled is read ----------------------------------------------------------------

  lemma {:induction false} MoreIsRead(ts: seq<Token>, i: nat, more: seq<Option<Value>>)
    requires Ended(ts) && At(ts, i, Spelled(more)) && ts[i + |Spelled(more)|] == RParen
    ensures ParseMoreValues(ts, i) == Ok(Named(more), i + |Spelled(more)|)
    decreases |more|
  {
    hide At, ShowValue, ParseValue, Ended;
    if more != [] {
      var a := if more[0].Some? then ShowValue(more[0].value) else [];
      var b := Spelled(more[1..]);
      AtSplit(ts, i, [OpOr], a + b);
      AtSplit(ts, i + 1, a, b);
      MoreIsRead(ts, i + 1 + |a|, more[1..]);
      if more[0].Some? {
        ReadValue(ts, i + 1, more[0].value);
      } else {
        NoValue(ts, i + 1);
      }
    }
  }

  lemma NoValue(ts: seq<Token>, i: nat)
    requires Ended(ts) && i < |ts| && ts[i] != Quote && !ts[i].Word?
    ensures ParseValue(ts, i) == Ok(None, i)
  {
  }

  lemma ValuesAreRead(ts: seq<Token>, i: nat, first: Value, more: seq<Option<Value>>)
    requires Ended(ts) && At(ts, i, SpelledKV(ValuesText(first, more)))
    ensures ts[i] == LParen
    ensures ParseKVValue(ts, i) == Ok(KVTree(ValuesText(first, more)), i + |SpelledKV(ValuesText(first, more))|)
  {
    hide At, ParseValue, ParseMoreValues, ShowValue, Spelled, Ended, GoodValue;
    var a, b := ShowValue(first), Spelled(more);
    MoreStarts(more);
    AtEnclosed(ts, i, a, b);
    ReadValue(ts, i + 1, first);
    MoreIsRead(ts, i + 1 + |a|, more);
  }

  lemma MoreStarts(more: seq<Option<Value>>)
    ensures Spelled(more) != [] ==> Spelled(more)[0] == OpOr
  {
  }

  lemma KVIsRead(ts: seq<Token>, i: nat, kv: KVText)
    requires Ended(ts) && kv != OneText(Phrase([])) && At(ts, i, SpelledKV(kv)) && ts[i + |SpelledKV(kv)|] != Asterisk
    ensures ParseKVValue(ts, i) == Ok(KVTree(kv), i + |SpelledKV(kv)|)
  {
    hide ParseValue, ParseMoreValues, ShowValue, Ended, GoodValue;
    match kv
    case OneText(v) =>
      assert ts[i] == ShowValue(v)[0];
      ReadValue(ts, i, v);
    case ValuesText(first, more) => ValuesAreRead(ts, i, first, more);
  }

  lemma KeyIsRead(ts: seq<Token>, i: nat, k: Value, kv: KVText)
    requires Ended(ts) && kv != OneText(Phrase([])) && At(ts, i, SpelledTerm(KeyText(k, kv)))
    requires AfterTerm(ts[i + |SpelledTerm(KeyText(k, kv))|])
    ensures ParsePositiveTerm(ts, i) == Ok(Some(KVTerm(k, KVTree(kv))), i + |SpelledTerm(KeyText(k, kv))|)
  {
    hide At, SpelledKV, ParseKVValue, ParseValue;
    var a, b := ShowValue(k), SpelledKV(kv);
    AtSplit(ts, i, a, [Colon] + b);
    AtSplit(ts, i + |a|, [Colon], b);
    ReadValue(ts, i, k);
    KVIsRead(ts, i + |a| + 1, kv);
  }

  lemma {:induction false} PositiveIsRead(ts: seq<Token>, i: nat, t: TermText)
    requires Ended(ts) && FineTerm(t) && !t.NegatedText? && At(ts, i, SpelledTerm(t))
    requires AfterTerm(ts[i + |SpelledTerm(t)|])
    ensures ParsePositiveTerm(ts, i) == Ok(Some(TermTree(t)), i + |SpelledTerm(t)|)
    decreases t, 0
  {
    hide At, ParsePositiveTerm, ShowValue, SpelledKV, SpelledQuery;
    match t
    case PlainText(v) => ReadPlain(ts, i, v);
    case KeyText(k, kv) => KeyIsRead(ts, i, k, kv);
    case GroupText(es) => GroupIsRead(ts, i, es);
  }

  lemma {:induction false} GroupIsRead(ts: seq<Token>, i: nat, es: seq<AndText>)
    requires Ended(ts) && FineQuery(es) && At(ts, i, SpelledTerm(GroupText(es)))
    ensures ParsePositiveTerm(ts, i) == Ok(Some(Group(QueryTree(es))), i + |SpelledTerm(GroupText(es))|)
    decreases es, 4
  {
    hide At, ParseQuery;
    var a := SpelledQuery(es);
    AtSplit(ts, i, [LParen], a + [RParen]);
    AtSplit(ts, i + 1, a, [RParen]);
    QueryIsRead(ts, i + 1, es);
  }

  lemma {:induction false} TermIsRead(ts: seq<Token>, i: nat, t: TermText)
    requires Ended(ts) && FineTerm(t) && At(ts, i, SpelledTerm(t)) && AfterTerm(ts[i + |SpelledTerm(t)|])
    ensures ParseTerm(ts, i) == Ok(Some(TermTree(t)), i + |SpelledTerm(t)|)
    decreases t, 1
  {
    hide ParsePositiveTerm, Ended;
    assert ts[i] == SpelledTerm(t)[0];
    if t.NegatedText? {
      AtSplit(ts, i, [OpNeg], SpelledTerm(t.term));
      PositiveIsRead(ts, i + 1, t.term);
    } else {
      PositiveIsRead(ts, i, t);
    }
  }

  lemma EndIsRead(ts: seq<Token>, i: nat, dangling: bool)
    requires Ended(ts) && At(ts, i, if dangling then [OpNeg] else [])
    requires AfterTerms(ts[if dangling then i + 1 else i])
    ensures ParseAndExpression(ts, i) == Ok([], if dangling then i + 1 else i)
  {
    if dangling {
      assert ts[i] == OpNeg;
      assert ParsePositiveTerm(ts, i + 1) == Ok(None, i + 1);
    } else {
      ReadNoTerms(ts, i);
    }
  }

  lemma AndStarts(terms: seq<TermText>, dangling: bool)
    ensures SpelledAnd(terms, dangling) != [] ==> AfterTerm(SpelledAnd(terms, dangling)[0])
  {
  }

  lemma {:induction false} TermsAreRead(ts: seq<Token>, i: nat, terms: seq<TermText>, dangling: bool)
    requires Ended(ts) && FineTerms(terms) && At(ts, i, SpelledAnd(terms, dangling))
    requires AfterTerms(ts[i + |SpelledAnd(terms, dangling)|])
    ensures ParseAndExpression(ts, i) == Ok(TermTrees(terms), i + |SpelledAnd(terms, dangling)|)
    decreases terms, 2
  {
    hide At, ParseTerm, Ended, FineTerm, SpelledTerm, TermTree, GoodTerm, GoodTerms;
    var d := if dangling then [OpNeg] else [];
    if terms != [] {
      var a, b := SpelledTerm(terms[0]), SpelledAnd(terms[1..], dangling);
      assert SpelledAnd(terms, dangling) == a + b;
      AtSplit(ts, i, a, b);
      AndStarts(terms[1..], dangling);
      TermIsRead(ts, i, terms[0]);
      TermsAreRead(ts, i + |a|, terms[1..], dangling);
    } else {
      assert SpelledAnd(terms, dangling) == d;
      EndIsRead(ts, i, dangling);
    }
  }

  /** How the parser takes one alternative and then the rest. */
  lemma FirstIsRead(ts: seq<Token>, i: nat, terms: seq<Term>, j: nat)
    requires Ended(ts) && i < |ts| && ParseAndExpression(ts, i) == Ok(terms, j)
    ensures ts[j] == End || ts[j] == RParen ==> ParseQuery(ts, i) == Ok(Alternative(terms), j)
    ensures ts[j] == OpOr && j + 1 < |ts| ==>
      ParseQuery(ts, i) == Prepend(Alternative(terms), ParseQuery(ts, j + 1))
  {
    hide ParseAndExpression;
  }

  lemma {:induction false} QueryIsRead(ts: seq<Token>, i: nat, es: seq<AndText>)
    requires Ended(ts) && FineQuery(es) && At(ts, i, SpelledQuery(es))
    requires ts[i + |SpelledQuery(es)|] == End || ts[i + |SpelledQuery(es)|] == RParen
    ensures ParseQuery(ts, i) == Ok(QueryTree(es), i + |SpelledQuery(es)|)
    decreases es, 3
  {
    hide At, ParseAndExpression, ParseQuery, SpelledAnd, FineTerms, Ended, Alternative;
    AtInside(ts, i, SpelledQuery(es));
    var a, trees := SpelledAnd(es[0].terms, es[0].dangling), TermTrees(es[0].terms);
    if |es| == 1 {
      assert es[1..] == [] && Alternative(trees) + QueryTree([]) == Alternative(trees);
      TermsAreRead(ts, i, es[0].terms, es[0].dangling);
      FirstIsRead(ts, i, trees, i + |a|);
    } else {
      AtSplit(ts, i, a, [OpOr] + SpelledQuery(es[1..]));
      AtSplit(ts, i + |a|, [OpOr], SpelledQuery(es[1..]));
      TermsAreRead(ts, i, es[0].terms, es[0].dangling);
      FirstIsRead(ts, i, trees, i + |a|);
      QueryIsRead(ts, i + |a| + 1, es[1..]);
    }
  }

  // ---- all that is read is spelled ----------------------------------------------------------------

  lemma Pieces(ts: seq<Token>, i: nat, j: nat, k: nat)
    requires i <= j <= k <= |ts|
    ensures ts[i..k] == ts[i..j] + ts[j..k]
    ensures i < j ==> ts[i..j] == [ts[i]] + ts[i + 1..j]
    ensures j < k ==> ts[i..j + 1] == ts[i..j] + [ts[j]]
  {
  }

  lemma {:induction false} WordsAreSpelled(ts: seq<Token>, i: nat)
    requires Ended(ts) && i < |ts|
    ensures var (ws, j) := ParseWords(ts, i); ts[i..j] == ShowWords(ws)
    decreases |ts| - i
  {
    hide ParseSearchWord, ShowWord, GoodWords, IsWord, Ended;
    if ts[i].Word? {
      var (w, j) := ParseSearchWord(ts, i);
      var (ws, k) := ParseWords(ts, j);
      WordsAreSpelled(ts, j);
      WordIsSpelled(ts, i);
      assert ([w] + ws)[1..] == ws;
      Pieces(ts, i, j, k);
    }
  }

  lemma WordIsSpelled(ts: seq<Token>, i: nat)
    requires Ended(ts) && i < |ts| && ts[i].Word?
    ensures var (w, j) := ParseSearchWord(ts, i); ts[i..j] == ShowWord(w)
  {
  }

  lemma ValueIsSpelled(ts: seq<Token>, i: nat)
    requires Ended(ts) && i < |ts| && ParseValue(ts, i).Ok?
    ensures
      var r := ParseValue(ts, i);
      ts[i..r.next] == if r.value.Some? then ShowValue(r.value.value) else []
  {
    hide ParseSearchWord, ParseWords, ShowWord, ShowWords, GoodWords, IsWord, Ended;
    if ts[i] == Quote {
      WordsAreSpelled(ts, i + 1);
      var (ws, j) := ParseWords(ts, i + 1);
      assert ts[i..j + 1] == [Quote] + (ts[i + 1..j] + [Quote]);
    } else if ts[i].Word? {
      WordIsSpelled(ts, i);
    }
  }

  lemma {:induction false} MoreIsSpelled(ts: seq<Token>, i: nat) returns (more: seq<Option<Value>>)
    requires Ended(ts) && i < |ts| && ParseMoreValues(ts, i).Ok?
    ensures ts[i..ParseMoreValues(ts, i).next] == Spelled(more) && Named(more) == ParseMoreValues(ts, i).value
    decreases |ts| - i
  {
    hide ParseValue, ShowValue, GoodValue, Ended;
    more := [];
    if ts[i] != RParen {
      var v := ParseValue(ts, i + 1);
      var k := ParseMoreValues(ts, i).next;
      ValueIsSpelled(ts, i + 1);
      var rest := MoreIsSpelled(ts, v.next);
      more := [v.value] + rest;
      assert more[1..] == rest;
      Pieces(ts, i + 1, v.next, k);
      Pieces(ts, i, k, k);
    }
  }

  lemma KVIsSpelled(ts: seq<Token>, i: nat) returns (kv: KVText)
    requires Ended(ts) && i < |ts| && ParseKVValue(ts, i).Ok?
    ensures kv != OneText(Phrase([])) && KVTree(kv) == ParseKVValue(ts, i).value
    ensures ts[i..ParseKVValue(ts, i).next] == SpelledKV(kv)
  {
    hide ParseValue, ParseMoreValues, ShowValue, Spelled, Ended, Named;
    if ts[i] == LParen {
      ValueIsSpelled(ts, i + 1);
      var v := ParseValue(ts, i + 1);
      var more := MoreIsSpelled(ts, v.next);
      kv := ValuesText(v.value.value, more);
      var k := ParseMoreValues(ts, v.next).next;
      assert ts[i..k + 1] == [LParen] + (ts[i + 1..v.next] + (ts[v.next..k] + [RParen]));
    } else {
      ValueIsSpelled(ts, i);
      kv := OneText(ParseValue(ts, i).value.value);
    }
  }

  lemma ValueTermIsSpelled(ts: seq<Token>, i: nat) returns (t: TermText)
    requires Ended(ts) && i < |ts| && ts[i] != LParen
    requires ParsePositiveTerm(ts, i).Ok? && ParsePositiveTerm(ts, i).value.Some?
    ensures FineTerm(t) && !t.NegatedText? && TermTree(t) == ParsePositiveTerm(ts, i).value.value
    ensures ts[i..ParsePositiveTerm(ts, i).next] == SpelledTerm(t)
  {
    hide ParseValue, ParseKVValue, ShowValue, SpelledKV, Ended, KVTree, GoodValue, GoodKVValue;
    ValueIsSpelled(ts, i);
    var v := ParseValue(ts, i);
    if ts[v.next] == Colon {
      var kv := KVIsSpelled(ts, v.next + 1);
      t := KeyText(v.value.value, kv);
      var j := ParseKVValue(ts, v.next + 1).next;
      assert ts[i..j] == ts[i..v.next] + ([Colon] + ts[v.next + 1..j]);
    } else {
      t := PlainText(v.value.value);
    }
  }

  lemma {:induction false} GroupIsSpelled(ts: seq<Token>, i: nat) returns (es: seq<AndText>)
    requires Ended(ts) && i < |ts| && ts[i] == LParen && ParseGroup(ts, i).Ok?
    ensures FineQuery(es) && Group(QueryTree(es)) == ParseGroup(ts, i).value
    ensures ts[i..ParseGroup(ts, i).next] == [LParen] + (SpelledQuery(es) + [RParen])
    decreases |ts| - i, 0
  {
    hide ParseQuery, Ended, FineQuery, GoodQuery;
    es := QueryIsSpelled(ts, i + 1);
    var j := ParseQuery(ts, i + 1).next;
    assert ts[i..j + 1] == [LParen] + (ts[i + 1..j] + [RParen]);
  }

  lemma {:induction false} PositiveIsSpelled(ts: seq<Token>, i: nat) returns (t: TermText)
    requires Ended(ts) && i < |ts| && ParsePositiveTerm(ts, i).Ok? && ParsePositiveTerm(ts, i).value.Some?
    ensures FineTerm(t) && !t.NegatedText? && TermTree(t) == ParsePositiveTerm(ts, i).value.value
    ensures ts[i..ParsePositiveTerm(ts, i).next] == SpelledTerm(t)
    decreases |ts| - i, 1
  {
    hide ParseValue, ParseKVValue, ParseGroup, Ended, FineQuery;
    if ts[i] == LParen {
      var es := GroupIsSpelled(ts, i);
      t := GroupText(es);
    } else {
      t := ValueTermIsSpelled(ts, i);
    }
  }

  lemma {:induction false} TermIsSpelled(ts: seq<Token>, i: nat) returns (t: TermText)
    requires Ended(ts) && i < |ts| && ParseTerm(ts, i).Ok? && ParseTerm(ts, i).value.Some?
    ensures FineTerm(t) && TermTree(t) == ParseTerm(ts, i).value.value
    ensures ts[i..ParseTerm(ts, i).next] == SpelledTerm(t)
    decreases |ts| - i, 2
  {
    hide ParsePositiveTerm, Ended;
    if ts[i] == OpNeg {
      var p := PositiveIsSpelled(ts, i + 1);
      t := NegatedText(p);
      var j := ParseTerm(ts, i).next;
      assert ts[i..j] == [OpNeg] + ts[i + 1..j];
    } else {
      t := PositiveIsSpelled(ts, i);
    }
  }

  lemma NoTermIsSpelled(ts: seq<Token>, i: nat)
    requires Ended(ts) && i < |ts| && ParseTerm(ts, i).Ok? && ParseTerm(ts, i).value.None?
    ensures ts[i..ParseTerm(ts, i).next] == if ts[i] == OpNeg then [OpNeg] else []
  {
  }

  lemma {:induction false} TermsAreSpelled(ts: seq<Token>, i: nat) returns (terms: seq<TermText>, dangling: bool)
    requires Ended(ts) && i < |ts| && ParseAndExpression(ts, i).Ok?
    ensures FineTerms(terms) && TermTrees(terms) == ParseAndExpression(ts, i).value
    ensures ts[i..ParseAndExpression(ts, i).next] == SpelledAnd(terms, dangling)
    decreases |ts| - i, 3
  {
    hide ParseTerm, Ended, FineTerm, TermTree, SpelledTerm, GoodTerm;
    var t := ParseTerm(ts, i);
    terms, dangling := [], ts[i] == OpNeg;
    if t.value.None? {
      NoTermIsSpelled(ts, i);
    } else {
      var first := TermIsSpelled(ts, i);
      var rest, end := TermsAreSpelled(ts, t.next);
      terms, dangling := [first] + rest, end;
      assert terms[1..] == rest;
      var j := ParseAndExpression(ts, i).next;
      Pieces(ts, i, t.next, j);
    }
  }

  lemma QueryGoesOn(ts: seq<Token>, i: nat)
    requires Ended(ts) && i < |ts| && ParseQuery(ts, i).Ok?
    ensures
      var e := ParseAndExpression(ts, i);
      && e.Ok? && AfterTerms(ts[e.next])
      && (ts[e.next] == OpOr ==> e.next + 1 < |ts| && ParseQuery(ts, e.next + 1).Ok?)
  {
    hide ParseAndExpression;
  }

  lemma {:induction false} QueryIsSpelled(ts: seq<Token>, i: nat) returns (es: seq<AndText>)
    requires Ended(ts) && i < |ts| && ParseQuery(ts, i).Ok?
    ensures FineQuery(es) && QueryTree(es) == ParseQuery(ts, i).value
    ensures ts[i..ParseQuery(ts, i).next] == SpelledQuery(es)
    decreases |ts| - i, 4
  {
    hide ParseAndExpression, ParseQuery, Ended, FineTerms, SpelledAnd, GoodQuery, GoodTerms, TermTrees, Alternative;
    QueryGoesOn(ts, i);
    var terms, dangling := TermsAreSpelled(ts, i);
    var e := ParseAndExpression(ts, i);
    FirstIsRead(ts, i, e.value, e.next);
    es := [AndText(terms, dangling)];
    assert es[1..] == [] && Alternative(e.value) + QueryTree([]) == Alternative(e.value);
    if ts[e.next] == OpOr {
      var rest := QueryIsSpelled(ts, e.next + 1);
      es := es + rest;
      assert es[1..] == rest;
      var j := ParseQuery(ts, i).next;
      Pieces(ts, i, e.next, j);
      Pieces(ts, e.next, j, j);
    }
  }

  // ---- the language -------------------------------------------------------------------------------

  /** The parser accepts exactly what is spelled, and gives the tree that is spelled: so no tokens spell two
      trees, and all other tokens are a parse error. */
  lemma AcceptsExactly(ts: seq<Token>, q: Query)
    requires Ended(ts)
    ensures Parsed(ts) == Some(q)
      <==> exists es :: FineQuery(es) && SpelledQuery(es) + [End] == ts && QueryTree(es) == q
  {
    hide ParseQuery, FineQuery, SpelledQuery, QueryTree, GoodQuery;
    var n := |ts| - 1;
    if Parsed(ts) == Some(q) {
      var es := QueryIsSpelled(ts, 0);
      EndsOnce(ts, ParseQuery(ts, 0).next);
      assert SpelledQuery(es) + [End] == ts;
    }
    if es :| FineQuery(es) && SpelledQuery(es) + [End] == ts && QueryTree(es) == q {
      assert ts[0..n] == SpelledQuery(es);
      QueryIsRead(ts, 0, es);
    }
  }

  lemma EndsOnce(ts: seq<Token>, i: nat)
    requires Ended(ts) && i < |ts| && ts[i] == End
    ensures i == |ts| - 1
  {
  }
}
