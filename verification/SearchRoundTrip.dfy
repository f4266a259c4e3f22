/** Printing a parse tree and parsing the text again. */
module SearchRoundTrip {
  import opened Wrappers
  import opened SearchTree
  import opened SearchLexer
  import opened SearchGrammar
  import opened Sequences

  // ---- printing ---------------------------------------------------------------------------------

  function ShowWord(w: SearchWord): seq<Token> {
    if w.prefix then [Word(w.text), Asterisk] else [Word(w.text)]
  }

  function ShowWords(ws: seq<SearchWord>): seq<Token> {
    if ws == [] then [] else ShowWord(ws[0]) + ShowWords(ws[1..])
  }

  function ShowValue(v: Value): (r: seq<Token>)
    ensures r != [] && (r[0].Word? || r[0] == Quote)
  {
    match v
    case Single(w) => ShowWord(w)
    case Phrase(ws) => [Quote] + (ShowWords(ws) + [Quote])
  }

  function ShowMoreValues(vs: seq<Value>): (r: seq<Token>)
    ensures r != [] ==> r[0] == OpOr
  {
    if vs == [] then [] else [OpOr] + (ShowValue(vs[0]) + ShowMoreValues(vs[1..]))
  }

  function ShowKVValue(v: KVValue): seq<Token> {
    match v
    case One(value) => ShowValue(value)
    case ValueGroup(vs) =>
      [LParen] + if vs == [] then [RParen] else ShowValue(vs[0]) + (ShowMoreValues(vs[1..]) + [RParen])
  }

  function ShowTerm(t: Term): (r: seq<Token>)
    ensures r != [] && (r[0].Word? || r[0] in {Quote, LParen, OpNeg})
    ensures !t.Negation? ==> r[0] != OpNeg
  {
    match t
    case Plain(v) => ShowValue(v)
    case KVTerm(k, v) => ShowValue(k) + ([Colon] + ShowKVValue(v))
    case Group(es) => [LParen] + (ShowQuery(es) + [RParen])
    case Negation(p) => [OpNeg] + ShowTerm(p)
  }

  function ShowTerms(ts: seq<Term>): seq<Token> {
    if ts == [] then [] else ShowTerm(ts[0]) + ShowTerms(ts[1..])
  }

  function ShowQuery(es: seq<AndExpression>): seq<Token> {
    if es == [] then []
    else if |es| == 1 then ShowTerms(es[0].terms)
    else ShowTerms(es[0].terms) + ([OpOr] + ShowQuery(es[1..]))
  }

  // ---- reading ----------------------------------------------------------------------------------

  /** The tokens `s` stand at position `i`, and a token follows them. */
  predicate At(ts: seq<Token>, i: nat, s: seq<Token>) {
    i + |s| < |ts| && Stands(ts, i, s)
  }

  lemma AtSplit(ts: seq<Token>, i: nat, a: seq<Token>, b: seq<Token>)
    requires At(ts, i, a + b)
    ensures At(ts, i, a) && At(ts, i + |a|, b) && i + |a| + |b| < |ts|
    ensures a != [] ==> ts[i] == a[0]
    ensures b != [] ==> ts[i + |a|] == b[0]
  {
    StandsSplit(ts, i, a, b);
  }

  lemma AtInside(ts: seq<Token>, i: nat, s: seq<Token>)
    requires At(ts, i, s)
    ensures i + |s| < |ts|
  {
  }

  lemma ReadWord(ts: seq<Token>, i: nat, w: SearchWord)
    requires Ended(ts) && At(ts, i, ShowWord(w)) && (!w.prefix ==> ts[i + 1] != Asterisk)
    ensures ts[i].Word? && ParseSearchWord(ts, i) == (w, i + |ShowWord(w)|)
  {
    var s := ShowWord(w);
    assert ts[i] == s[0];
    if w.prefix {
      assert ts[i + 1] == s[1];
    }
  }

  lemma {:induction false} ReadWords(ts: seq<Token>, i: nat, ws: seq<SearchWord>)
    requires Ended(ts) && At(ts, i, ShowWords(ws)) && ts[i + |ShowWords(ws)|] == Quote
    ensures ParseWords(ts, i) == (ws, i + |ShowWords(ws)|)
    decreases |ws|
  {
    hide At, Ended;
    if ws != [] {
      var a, b := ShowWord(ws[0]), ShowWords(ws[1..]);
      AtSplit(ts, i, a, b);
      if |ws| > 1 {
        assert b[0].Word?;
      }
      ReadWord(ts, i, ws[0]);
      ReadWords(ts, i + |a|, ws[1..]);
      assert [ws[0]] + ws[1..] == ws;
    }
  }

  lemma ReadPhrase(ts: seq<Token>, i: nat, ws: seq<SearchWord>)
    requires Ended(ts) && At(ts, i, ShowValue(Phrase(ws)))
    ensures ParseValue(ts, i) == Ok(Some(Phrase(ws)), i + |ShowValue(Phrase(ws))|)
  {
    hide At, Ended, ParseWords, ShowWords, GoodWords;
    AtSplit(ts, i, [Quote], ShowWords(ws) + [Quote]);
    AtSplit(ts, i + 1, ShowWords(ws), [Quote]);
    ReadWords(ts, i + 1, ws);
  }

  lemma ReadSingle(ts: seq<Token>, i: nat, w: SearchWord)
    requires Ended(ts) && At(ts, i, ShowWord(w)) && ts[i + |ShowWord(w)|] != Asterisk
    ensures ParseValue(ts, i) == Ok(Some(Single(w)), i + |ShowWord(w)|)
  {
    hide At, Ended, ParseSearchWord, ParsePhrase;
    assert |ShowWord(w)| == if w.prefix then 2 else 1;
    ReadWord(ts, i, w);
  }

  lemma ReadValue(ts: seq<Token>, i: nat, v: Value)
    requires Ended(ts) && At(ts, i, ShowValue(v)) && ts[i + |ShowValue(v)|] != Asterisk
    ensures ParseValue(ts, i) == Ok(Some(v), i + |ShowValue(v)|)
  {
    hide At, Ended, ParseValue, ShowWord, ShowWords;
    match v
    case Single(w) => ReadSingle(ts, i, w);
    case Phrase(ws) => ReadPhrase(ts, i, ws);
  }

  lemma {:induction false} ReadMoreValues(ts: seq<Token>, i: nat, vs: seq<Value>)
    requires Ended(ts) && At(ts, i, ShowMoreValues(vs)) && ts[i + |ShowMoreValues(vs)|] == RParen
    ensures ParseMoreValues(ts, i) == Ok(vs, i + |ShowMoreValues(vs)|)
    decreases |vs|
  {
    hide At, ShowValue, ParseValue;
    if vs != [] {
      var a, b := ShowValue(vs[0]), ShowMoreValues(vs[1..]);
      AtSplit(ts, i, [OpOr], a + b);
      AtSplit(ts, i + 1, a, b);
      if |vs| > 1 {
        assert b[0] == OpOr;
      }
      ReadValue(ts, i + 1, vs[0]);
      ReadMoreValues(ts, i + 1 + |a|, vs[1..]);
      assert [vs[0]] + vs[1..] == vs;
    }
  }

  /** A group of values stands in the tokens: its first value, the other ones and the closing parenthesis. */
  lemma AtEnclosed(ts: seq<Token>, i: nat, a: seq<Token>, b: seq<Token>)
    requires At(ts, i, [LParen] + (a + (b + [RParen]))) && (b != [] ==> b[0] == OpOr)
    ensures ts[i] == LParen && At(ts, i + 1, a) && At(ts, i + 1 + |a|, b) && ts[i + 1 + |a| + |b|] == RParen
    ensures i + 1 + |a| + |b| + 1 < |ts| && ts[i + 1 + |a|] == if b == [] then RParen else OpOr
  {
    hide At;
    AtSplit(ts, i, [LParen], a + (b + [RParen]));
    AtSplit(ts, i + 1, a, b + [RParen]);
    AtSplit(ts, i + 1 + |a|, b, [RParen]);
  }

  lemma ReadValueGroup(ts: seq<Token>, i: nat, vs: seq<Value>)
    requires Ended(ts) && vs != [] && At(ts, i, ShowKVValue(ValueGroup(vs)))
    ensures ts[i] == LParen && ParseValueGroup(ts, i) == Ok(Some(ValueGroup(vs)), i + |ShowKVValue(ValueGroup(vs))|)
  {
    hide At, ParseValue, ParseMoreValues, ShowValue, ShowMoreValues, Ended, GoodValue;
    var a, b := ShowValue(vs[0]), ShowMoreValues(vs[1..]);
    AtEnclosed(ts, i, a, b);
    ReadValue(ts, i + 1, vs[0]);
    ReadMoreValues(ts, i + 1 + |a|, vs[1..]);
    assert [vs[0]] + vs[1..] == vs;
  }

  lemma ReadKVValue(ts: seq<Token>, i: nat, v: KVValue)
    requires Ended(ts) && GoodKVValue(v) && At(ts, i, ShowKVValue(v)) && ts[i + |ShowKVValue(v)|] != Asterisk
    ensures ParseKVValue(ts, i) == Ok(v, i + |ShowKVValue(v)|)
  {
    hide ShowMoreValues, ParseValueGroup, ParseValue, ShowValue, Ended, GoodValue;
    match v
    case One(value) =>
      assert ts[i] == ShowValue(value)[0];
      ReadValue(ts, i, value);
    case ValueGroup(vs) => ReadValueGroup(ts, i, vs);
  }

  /** The tokens that may follow a term. */
  predicate AfterTerm(t: Token) {
    t != Asterisk && t != Colon
  }

  /** The tokens that may follow an and expression. */
  predicate AfterTerms(t: Token) {
    t == End || t == RParen || t == OpOr
  }

  lemma ReadKVTerm(ts: seq<Token>, i: nat, k: Value, v: KVValue)
    requires Ended(ts) && GoodKVValue(v) && At(ts, i, ShowTerm(KVTerm(k, v)))
    requires AfterTerm(ts[i + |ShowTerm(KVTerm(k, v))|])
    ensures ParsePositiveTerm(ts, i) == Ok(Some(KVTerm(k, v)), i + |ShowTerm(KVTerm(k, v))|)
  {
    hide At, ShowKVValue, ParseKVValue, ParseValue;
    var a, b := ShowValue(k), ShowKVValue(v);
    AtSplit(ts, i, a, [Colon] + b);
    AtSplit(ts, i + |a|, [Colon], b);
    ReadValue(ts, i, k);
    ReadKVValue(ts, i + |a| + 1, v);
  }

  lemma ReadPlain(ts: seq<Token>, i: nat, v: Value)
    requires Ended(ts) && At(ts, i, ShowValue(v)) && AfterTerm(ts[i + |ShowValue(v)|])
    ensures ParsePositiveTerm(ts, i) == Ok(Some(Plain(v)), i + |ShowValue(v)|)
  {
    hide ParseValue, ShowValue;
    assert ts[i] == ShowValue(v)[0];
    ReadValue(ts, i, v);
  }

  lemma {:induction false} ReadPositiveTerm(ts: seq<Token>, i: nat, t: Term)
    requires Ended(ts) && GoodTerm(t) && !t.Negation? && At(ts, i, ShowTerm(t)) && AfterTerm(ts[i + |ShowTerm(t)|])
    ensures ParsePositiveTerm(ts, i) == Ok(Some(t), i + |ShowTerm(t)|)
    decreases t, 0
  {
    hide At, ParsePositiveTerm, ShowValue, ShowKVValue, ShowQuery;
    match t
    case Plain(v) => ReadPlain(ts, i, v);
    case KVTerm(k, v) => ReadKVTerm(ts, i, k, v);
    case Group(es) => ReadGroup(ts, i, es);
  }

  lemma {:induction false} ReadGroup(ts: seq<Token>, i: nat, es: seq<AndExpression>)
    requires Ended(ts) && GoodQuery(es) && At(ts, i, ShowTerm(Group(es)))
    ensures ParsePositiveTerm(ts, i) == Ok(Some(Group(es)), i + |ShowTerm(Group(es))|)
    decreases es, 4
  {
    hide At, ParseQuery;
    var a := ShowQuery(es);
    AtSplit(ts, i, [LParen], a + [RParen]);
    AtSplit(ts, i + 1, a, [RParen]);
    ReadQuery(ts, i + 1, es);
  }

  lemma {:induction false} ReadTerm(ts: seq<Token>, i: nat, t: Term)
    requires Ended(ts) && GoodTerm(t) && At(ts, i, ShowTerm(t)) && AfterTerm(ts[i + |ShowTerm(t)|])
    ensures ParseTerm(ts, i) == Ok(Some(t), i + |ShowTerm(t)|)
    decreases t, 1
  {
    hide ParsePositiveTerm, Ended;
    assert ts[i] == ShowTerm(t)[0];
    if t.Negation? {
      AtSplit(ts, i, [OpNeg], ShowTerm(t.term));
      ReadPositiveTerm(ts, i + 1, t.term);
    } else {
      ReadPositiveTerm(ts, i, t);
    }
  }

  lemma ReadNoTerms(ts: seq<Token>, i: nat)
    requires Ended(ts) && i < |ts| && AfterTerms(ts[i])
    ensures ParseAndExpression(ts, i) == Ok([], i)
  {
    assert ParsePositiveTerm(ts, i) == Ok(None, i);
  }

  lemma {:induction false} ReadTerms(ts: seq<Token>, i: nat, terms: seq<Term>)
    requires Ended(ts) && GoodTerms(terms) && At(ts, i, ShowTerms(terms)) && AfterTerms(ts[i + |ShowTerms(terms)|])
    ensures ParseAndExpression(ts, i) == Ok(terms, i + |ShowTerms(terms)|)
    decreases terms, 2
  {
    hide At, ParseTerm, Ended, GoodTerm, ShowTerm;
    if terms != [] {
      var a, b := ShowTerm(terms[0]), ShowTerms(terms[1..]);
      AtSplit(ts, i, a, b);
      if |terms| > 1 {
        assert b[0] == ShowTerm(terms[1])[0];
      }
      ReadTerm(ts, i, terms[0]);
      ReadTerms(ts, i + |a|, terms[1..]);
      assert [terms[0]] + terms[1..] == terms;
    } else {
      AtInside(ts, i, []);
      ReadNoTerms(ts, i);
    }
  }

  /** How the parser takes one alternative and then the rest. */
  lemma OneAlternative(ts: seq<Token>, i: nat, terms: seq<Term>, j: nat)
    requires Ended(ts) && i < |ts| && ParseAndExpression(ts, i) == Ok(terms, j) && terms != []
    ensures ts[j] == End || ts[j] == RParen ==> ParseQuery(ts, i) == Ok([AndExpression(terms)], j)
    ensures ts[j] == OpOr && j + 1 < |ts| ==>
      ParseQuery(ts, i) == Prepend([AndExpression(terms)], ParseQuery(ts, j + 1))
  {
    hide ParseAndExpression;
  }

  lemma {:induction false} ReadQuery(ts: seq<Token>, i: nat, es: seq<AndExpression>)
    requires Ended(ts) && GoodQuery(es) && At(ts, i, ShowQuery(es))
    requires ts[i + |ShowQuery(es)|] == End || ts[i + |ShowQuery(es)|] == RParen
    ensures ParseQuery(ts, i) == Ok(es, i + |ShowQuery(es)|)
    decreases es, 3
  {
    hide At, ParseAndExpression, ShowTerms, GoodTerms, ParseQuery, Ended;
    AtInside(ts, i, ShowQuery(es));
    if es == [] {
      ReadNoQuery(ts, i);
    } else {
      var a := ShowTerms(es[0].terms);
      assert [es[0]] + es[1..] == es && es[0] == AndExpression(es[0].terms);
      if |es| == 1 {
        assert es == [es[0]];
        ReadTerms(ts, i, es[0].terms);
        OneAlternative(ts, i, es[0].terms, i + |a|);
      } else {
        AtSplit(ts, i, a, [OpOr] + ShowQuery(es[1..]));
        AtSplit(ts, i + |a|, [OpOr], ShowQuery(es[1..]));
        ReadTerms(ts, i, es[0].terms);
        ReadQuery(ts, i + |a| + 1, es[1..]);
        OneAlternative(ts, i, es[0].terms, i + |a|);
      }
    }
  }

  lemma ReadNoQuery(ts: seq<Token>, i: nat)
    requires Ended(ts) && i < |ts| && (ts[i] == End || ts[i] == RParen)
    ensures ParseQuery(ts, i) == Ok([], i)
  {
    ReadNoTerms(ts, i);
  }

  /** The text of a tree: its tokens, each followed by a space. */
  function Text(q: Query): string {
    Spaced(ShowQuery(q))
  }

  // ---- the round trip through text --------------------------------------------------------------

  /** Tokens that the lexer can have read. */
  predicate AllTokens(ts: seq<Token>) {
    forall i | 0 <= i < |ts| :: IsToken(ts[i])
  }

  lemma {:induction false} ShownWordsAreTokens(ws: seq<SearchWord>)
    requires GoodWords(ws)
    ensures AllTokens(ShowWords(ws))
  {
    if ws != [] {
      ShownWordsAreTokens(ws[1..]);
    }
  }

  lemma ShownValueIsTokens(v: Value)
    requires GoodValue(v)
    ensures AllTokens(ShowValue(v))
  {
    if v.Phrase? {
      ShownWordsAreTokens(v.words);
    }
  }

  lemma {:induction false} ShownValuesAreTokens(vs: seq<Value>)
    requires forall i | 0 <= i < |vs| :: GoodValue(vs[i])
    ensures AllTokens(ShowMoreValues(vs))
  {
    if vs != [] {
      ShownValueIsTokens(vs[0]);
      ShownValuesAreTokens(vs[1..]);
    }
  }

  lemma {:induction false} ShownTermIsTokens(t: Term)
    requires GoodTerm(t)
    ensures AllTokens(ShowTerm(t))
  {
    match t
    case Plain(v) => ShownValueIsTokens(v);
    case KVTerm(k, kv) =>
      ShownValueIsTokens(k);
      match kv {
        case One(v) => ShownValueIsTokens(v);
        case ValueGroup(vs) =>
          ShownValueIsTokens(vs[0]);
          ShownValuesAreTokens(vs[1..]);
      }
    case Group(es) => ShownQueryIsTokens(es);
    case Negation(p) => ShownTermIsTokens(p);
  }

  lemma {:induction false} ShownTermsAreTokens(ts: seq<Term>)
    requires GoodTerms(ts)
    ensures AllTokens(ShowTerms(ts))
  {
    if ts != [] {
      ShownTermIsTokens(ts[0]);
      ShownTermsAreTokens(ts[1..]);
    }
  }

  lemma {:induction false} ShownQueryIsTokens(es: seq<AndExpression>)
    requires GoodQuery(es)
    ensures AllTokens(ShowQuery(es))
  {
    if es != [] {
      ShownTermsAreTokens(es[0].terms);
      ShownQueryIsTokens(es[1..]);
    }
  }

  /** The tokens of any text are what the parser asks for, so on every text it returns a well-formed
      tree or a parse error. */
  lemma ParserIsTotal(s: string)
    ensures Ended(Lexed(s))
    ensures Parsed(Lexed(s)).Some? ==> GoodQuery(Parsed(Lexed(s)).value)
  {
    LexedAreTokens(s);
  }

  /** A text with the tokens of a well-formed tree is parsed to that tree. */
  lemma ParseOfTokens(s: string, q: Query)
    requires GoodQuery(q) && Lexed(s) == ShowQuery(q) + [End]
    ensures Ended(Lexed(s)) && Parsed(Lexed(s)) == Some(q)
  {
    hide ShowQuery, GoodQuery;
    ParserIsTotal(s);
    var ts, shown := Lexed(s), ShowQuery(q);
    assert ts[0..0 + |shown|] == shown;
    ReadQuery(ts, 0, q);
  }

  /** Printing a well-formed tree, lexing the text and parsing the tokens gives the tree back. */
  lemma ParseOfText(q: Query)
    requires GoodQuery(q)
    ensures Lexed(Text(q)) == ShowQuery(q) + [End]
    ensures Ended(Lexed(Text(q))) && Parsed(Lexed(Text(q))) == Some(q)
  {
    var shown := ShowQuery(q);
    ShownQueryIsTokens(q);
    SpacedTokens(shown);
    ParseOfTokens(Text(q), q);
  }

  /** Whatever text a user typed, the printed form of its tree means the same tree. */
  lemma TextIsNormalForm(s: string)
    ensures Ended(Lexed(s))
    ensures
      var q := Parsed(Lexed(s));
      q.Some? ==> Ended(Lexed(Text(q.value))) && Parsed(Lexed(Text(q.value))) == q
  {
    ParserIsTotal(s);
    var q := Parsed(Lexed(s));
    if q.Some? {
      ParseOfText(q.value);
    }
  }
}
