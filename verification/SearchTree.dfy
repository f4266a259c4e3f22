/** Tokens and parse trees of the search language. */
module SearchTree {

  /** Python's `\s`. */
  predicate IsSpace(c: char) {
    var n := c as int;
    || 9 <= n <= 13 || 28 <= n <= 32 || n == 0x85 || n == 0xA0 || n == 0x1680 || 0x2000 <= n <= 0x200A
    || n == 0x2028 || n == 0x2029 || n == 0x202F || n == 0x205F || n == 0x3000
  }

  /** A character that ends a word. */
  predicate IsBoundary(c: char) {
    c in {'(', ')', '|', '!', ':', '<', '>', '*', '"'} || IsSpace(c)
  }

  /** A word that the lexer can have read. */
  predicate IsWord(w: string) {
    w != "" && w[0] != '-' && forall c | c in w :: !IsBoundary(c)
  }

  datatype Token = Word(text: string) | OpOr | OpNeg | Asterisk | LParen | RParen | Colon | Quote | End

  /** A word, or with `prefix` the beginning of a word. */
  datatype SearchWord = SearchWord(text: string, prefix: bool)

  datatype Value = Single(word: SearchWord) | Phrase(words: seq<SearchWord>)

  datatype KVValue = One(value: Value) | ValueGroup(values: seq<Value>)

  datatype Term =
    | Plain(value: Value)
    | KVTerm(key: Value, kv: KVValue)
    | Group(exprs: seq<AndExpression>)
    | Negation(term: Term)

  /** Terms that must all hold. */
  datatype AndExpression = AndExpression(terms: seq<Term>)

  /** Alternatives. */
  type Query = seq<AndExpression>

  // The trees that the grammar describes, with words that the lexer can read.

  predicate GoodWords(ws: seq<SearchWord>) {
    forall i | 0 <= i < |ws| :: IsWord(ws[i].text)
  }

  predicate GoodValue(v: Value) {
    match v
    case Single(w) => IsWord(w.text)
    case Phrase(ws) => GoodWords(ws)
  }

  predicate GoodKVValue(v: KVValue) {
    match v
    case One(value) => value != Phrase([]) && GoodValue(value)
    case ValueGroup(vs) => vs != [] && forall i | 0 <= i < |vs| :: GoodValue(vs[i])
  }

  predicate GoodTerm(t: Term) {
    match t
    case Plain(v) => GoodValue(v)
    case KVTerm(k, kv) => GoodValue(k) && GoodKVValue(kv)
    case Group(es) => GoodQuery(es)
    case Negation(p) => !p.Negation? && GoodTerm(p)
  }

  predicate GoodTerms(ts: seq<Term>) {
    ts == [] || (GoodTerm(ts[0]) && GoodTerms(ts[1..]))
  }

  predicate GoodQuery(es: seq<AndExpression>) {
    es == [] || (es[0].terms != [] && GoodTerms(es[0].terms) && GoodQuery(es[1..]))
  }
}
