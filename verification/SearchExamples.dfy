/** Texts that the two back ends do not answer as they mean. */
module SearchExamples {
  import opened Wrappers
  import opened SearchTree
  import opened SearchLexer
  import opened SearchRoundTrip
  import SearchGrammar
  import SearchSql
  import SearchTsQuery
  import SearchTsReader
  import SearchTsMeaning

  // ---- a negated key that is not known ------------------------------------------------------------

  const NO_COLUMNS := SearchSql.Columns([], map[], (key: string) => key)

  /** The tree of `-n:x`. */
  const UNKNOWN_KEY: Query :=
    [AndExpression([Negation(KVTerm(Single(SearchWord("n", false)), One(Single(SearchWord("x", false)))))])]

  lemma UnknownKeyIsLexed()
    ensures Lexed("-n:x") == [OpNeg, Word("n"), Colon, Word("x"), End]
  {
    assert "-n:x"[1..] == "n:x" && "n:x"[1..] == ":x" && ":x"[1..] == "x" && "x"[1..] == "";
    assert WordOf(":x") == "" && WordOf("n:x") == "n" && WordOf("x") == "x";
    assert Tokens("") == [] && Tokens("x") == [Word("x")];
    assert Tokens(":x") == [Colon, Word("x")];
    assert Tokens("n:x") == [Word("n"), Colon, Word("x")];
  }

  lemma UnknownKeyIsParsed()
    ensures SearchGrammar.Ended(Lexed("-n:x")) && SearchGrammar.Parsed(Lexed("-n:x")) == Some(UNKNOWN_KEY)
  {
    hide Lexed;
    UnknownKeyIsLexed();
    var key, value := Single(SearchWord("n", false)), Single(SearchWord("x", false));
    var t := Negation(KVTerm(key, One(value)));
    assert ShowTerm(t) == [OpNeg] + ([Word("n")] + ([Colon] + [Word("x")]));
    assert [t][1..] == [] && ShowTerms([t]) == ShowTerm(t) + [];
    ParseOfTokens("-n:x", UNKNOWN_KEY);
  }

  /** No row has the column, so every row satisfies the negation, and the statement selects none. */
  lemma NegatedUnknownKeySelectsNothing(base: set<SearchSql.Row>)
    ensures SearchGrammar.Ended(Lexed("-n:x")) && SearchGrammar.Parsed(Lexed("-n:x")) == Some(UNKNOWN_KEY)
    ensures forall row | row in base :: SearchSql.QueryHolds(NO_COLUMNS, UNKNOWN_KEY, row)
    ensures var r := SearchSql.VisitQuery(NO_COLUMNS, UNKNOWN_KEY); r.Ok? && SearchSql.Rows(r.stmt, base) == {}
  {
    hide Lexed, SearchSql.VisitKVTerm;
    UnknownKeyIsParsed();
    UnknownKeyIsVisited();
    var key, kv := Single(SearchWord("n", false)), One(Single(SearchWord("x", false)));
    SearchSql.UnknownKeyIgnoresNegation(NO_COLUMNS, SearchSql.Base, key, kv, base);
    forall row | row in base
      ensures SearchSql.QueryHolds(NO_COLUMNS, UNKNOWN_KEY, row)
    {
      UnknownKeyHolds(row);
    }
  }

  lemma UnknownKeyHolds(row: SearchSql.Row)
    ensures SearchSql.QueryHolds(NO_COLUMNS, UNKNOWN_KEY, row)
  {
    var ts := UNKNOWN_KEY[0].terms;
    assert SearchSql.TermHolds(NO_COLUMNS, ts[0], row);
    assert SearchSql.TermsHold(NO_COLUMNS, ts[1..], row);
  }

  lemma UnknownKeyIsVisited()
    ensures
      var key, kv := Single(SearchWord("n", false)), One(Single(SearchWord("x", false)));
      SearchSql.VisitQuery(NO_COLUMNS, UNKNOWN_KEY)
      == SearchSql.Ok(SearchSql.VisitKVTerm(NO_COLUMNS, SearchSql.Base, key, kv, true))
  {
    hide SearchSql.VisitKVTerm;
    var key, kv := Single(SearchWord("n", false)), One(Single(SearchWord("x", false)));
    var s := SearchSql.VisitKVTerm(NO_COLUMNS, SearchSql.Base, key, kv, true);
    var ts := UNKNOWN_KEY[0].terms;
    assert SearchSql.VisitTerm(NO_COLUMNS, SearchSql.Base, ts[0], false) == SearchSql.Ok(s);
    assert ts[1..] == [] && UNKNOWN_KEY[1..] == [];
    assert SearchSql.VisitAndExpression(NO_COLUMNS, SearchSql.Base, ts) == SearchSql.Ok(s);
    var (ok, all) := SearchSql.VisitAlternatives(NO_COLUMNS, UNKNOWN_KEY[1..]);
    assert ok && all == [] && [s] + all == [s];
    assert SearchSql.VisitAlternatives(NO_COLUMNS, UNKNOWN_KEY) == (true, [s]);
  }

  // ---- an empty phrase ----------------------------------------------------------------------------

  /** The tree of two quotes. */
  const EMPTY_PHRASE: Query := [AndExpression([Plain(Phrase([]))])]

  /** Two quotes are a text that is parsed, and its string is no tsquery. */
  lemma EmptyPhraseIsUnreadable(snake: string -> string)
    ensures SearchGrammar.Ended(Lexed("\"\"")) && SearchGrammar.Parsed(Lexed("\"\"")) == Some(EMPTY_PHRASE)
    ensures SearchTsReader.Read(SearchTsQuery.QueryPieces(snake, EMPTY_PHRASE)) == None
  {
    assert "\"\""[1..] == "\"" && "\""[1..] == "";
    assert Tokens("\"") == [Quote];
    assert Lexed("\"\"") == [Quote, Quote, End];
    var t := Plain(Phrase([]));
    assert [t][1..] == [] && ShowTerms([t]) == ShowTerm(t) + [];
    ParseOfTokens("\"\"", EMPTY_PHRASE);
    SearchTsMeaning.StringMeansTree(snake, EMPTY_PHRASE);
  }

  // ---- an empty group -----------------------------------------------------------------------------

  /** The tree of two parentheses. */
  const EMPTY_GROUP: Query := [AndExpression([Group([])])]

  /** Two parentheses are a text that is parsed. Closing the group takes back the opening parenthesis, so that
      the string is the closing one alone; and the statement cannot be made. */
  lemma EmptyGroupIsHalfWritten(snake: string -> string)
    ensures SearchGrammar.Ended(Lexed("()")) && SearchGrammar.Parsed(Lexed("()")) == Some(EMPTY_GROUP)
    ensures SearchTsQuery.QueryPieces(snake, EMPTY_GROUP) == [SearchTsQuery.RP]
    ensures SearchSql.VisitQuery(NO_COLUMNS, EMPTY_GROUP) == SearchSql.IndexError
  {
    assert "()"[1..] == ")" && ")"[1..] == "";
    assert Tokens(")") == [RParen];
    assert Lexed("()") == [LParen, RParen, End];
    var t := Group([]);
    assert ShowTerm(t) == [LParen, RParen];
    assert [t][1..] == [] && ShowTerms([t]) == ShowTerm(t) + [];
    ParseOfTokens("()", EMPTY_GROUP);
    EmptyGroupIsWritten(snake);
    SearchSql.QueryFails(NO_COLUMNS, EMPTY_GROUP);
    assert EMPTY_GROUP[0].terms == [t];
    assert !SearchSql.FullTerm(t);
  }

  lemma EmptyGroupIsWritten(snake: string -> string)
    ensures SearchTsQuery.QueryPieces(snake, EMPTY_GROUP) == [SearchTsQuery.RP]
  {
    var t := Group([]);
    assert SearchTsQuery.AndItems(snake, []) == [];
    assert SearchTsQuery.TermPieces(snake, t) == [SearchTsQuery.RP];
    assert [t][1..] == [] && EMPTY_GROUP[1..] == [];
    assert SearchTsQuery.TermItems(snake, []) == [];
    assert SearchTsQuery.TermItems(snake, [t]) == [[SearchTsQuery.RP]] + [];
    JoinedOne(SearchTsQuery.AndOp);
    assert SearchTsQuery.AndItems(snake, EMPTY_GROUP) == [[SearchTsQuery.RP]] + [];
    JoinedOne(SearchTsQuery.OrOp);
  }

  lemma JoinedOne(op: SearchTsQuery.Piece)
    ensures SearchTsQuery.Joined(op, [[SearchTsQuery.RP]]) == [SearchTsQuery.RP]
  {
    var none: seq<seq<SearchTsQuery.Piece>> := [];
    assert [[SearchTsQuery.RP]][..0] == none;
    assert SearchTsQuery.Trailing(op, none) == [];
  }
}
