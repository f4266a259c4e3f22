/** The recursive descent parser of the search language, as functions of a position in the tokens. */
module SearchGrammar {
  import opened Wrappers
  import opened SearchTree

  /** What parsing from some position gives, and the position after it. */
  datatype Result<+T> = Ok(value: T, next: nat) | ParseError

  /** Tokens as the lexer yields them: the last one, and no other, is `End`. */
  predicate Ended(ts: seq<Token>) {
    && ts != [] && ts[|ts| - 1] == End
    && forall i | 0 <= i < |ts| - 1 :: ts[i] != End && (ts[i].Word? ==> IsWord(ts[i].text))
  }

  /** The result with more items in front. */
  function Prepend<T>(items: seq<T>, r: Result<seq<T>>): Result<seq<T>> {
    if r.Ok? then Ok(items + r.value, r.next) else ParseError
  }

  lemma PrependTwice<T>(a: seq<T>, b: seq<T>, r: Result<seq<T>>)
    ensures Prepend(a, Prepend(b, r)) == Prepend(a + b, r)
    ensures Prepend([], r) == r
  {
    if r.Ok? {
      assert a + (b + r.value) == (a + b) + r.value;
      assert [] + r.value == r.value;
    }
  }

  // ---- words and values -------------------------------------------------------------------------

  function ParseSearchWord(ts: seq<Token>, i: nat): (r: (SearchWord, nat))
    requires Ended(ts) && i < |ts| && ts[i].Word?
    ensures i < r.1 < |ts| && IsWord(r.0.text)
  {
    if ts[i + 1] == Asterisk then (SearchWord(ts[i].text, true), i + 2)
    else (SearchWord(ts[i].text, false), i + 1)
  }

  /** The words from a position on, up to the first token that is none. */
  function ParseWords(ts: seq<Token>, i: nat): (r: (seq<SearchWord>, nat))
    requires Ended(ts) && i < |ts|
    ensures i <= r.1 < |ts| && GoodWords(r.0)
    decreases |ts| - i
  {
    if !ts[i].Word? then ([], i)
    else
      var (w, j) := ParseSearchWord(ts, i);
      var (ws, k) := ParseWords(ts, j);
      ([w] + ws, k)
  }

  function ParsePhrase(ts: seq<Token>, i: nat): (r: Result<Value>)
    requires Ended(ts) && i < |ts| && ts[i] == Quote
    ensures r.Ok? ==> i < r.next < |ts| && GoodValue(r.value)
  {
    var (ws, j) := ParseWords(ts, i + 1);
    if ts[j] == Quote then Ok(Phrase(ws), j + 1) else ParseError
  }

  function ParseValue(ts: seq<Token>, i: nat): (r: Result<Option<Value>>)
    requires Ended(ts) && i < |ts|
    ensures r.Ok? ==> (if r.value.Some? then i < r.next < |ts| && GoodValue(r.value.value) else r.next == i)
  {
    if ts[i] == Quote then
      var p := ParsePhrase(ts, i);
      if p.Ok? then Ok(Some(p.value), p.next) else ParseError
    else if ts[i].Word? then
      var (w, j) := ParseSearchWord(ts, i);
      Ok(Some(Single(w)), j)
    else Ok(None, i)
  }

  /** The values of a group after the first, up to its closing parenthesis. */
  function ParseMoreValues(ts: seq<Token>, i: nat): (r: Result<seq<Value>>)
    requires Ended(ts) && i < |ts|
    ensures r.Ok? ==> i <= r.next < |ts| && ts[r.next] == RParen
    ensures r.Ok? ==> forall k | 0 <= k < |r.value| :: GoodValue(r.value[k])
    decreases |ts| - i
  {
    if ts[i] == RParen then Ok([], i)
    else if ts[i] == OpOr then
      var v := ParseValue(ts, i + 1);
      if v.ParseError? then ParseError
      else
        var more := ParseMoreValues(ts, v.next);
        Prepend(if v.value.Some? then [v.value.value] else [], more)
    else ParseError
  }

  function ParseValueGroup(ts: seq<Token>, i: nat): (r: Result<Option<KVValue>>)
    requires Ended(ts) && i < |ts| && ts[i] == LParen
    ensures r.Ok? ==> i < r.next < |ts| && (r.value.Some? ==> GoodKVValue(r.value.value))
  {
    var v := ParseValue(ts, i + 1);
    if v.ParseError? then ParseError
    else if v.value.None? then Ok(None, v.next)
    else
      var more := ParseMoreValues(ts, v.next);
      if more.ParseError? then ParseError
      else Ok(Some(ValueGroup([v.value.value] + more.value)), more.next + 1)
  }

  /** What follows the colon of a key. */
  function ParseKVValue(ts: seq<Token>, i: nat): (r: Result<KVValue>)
    requires Ended(ts) && i < |ts|
    ensures r.Ok? ==> i < r.next < |ts| && GoodKVValue(r.value)
  {
    if ts[i] == LParen then
      var g := ParseValueGroup(ts, i);
      if g.Ok? && g.value.Some? then Ok(g.value.value, g.next) else ParseError
    else
      var v := ParseValue(ts, i);
      if v.Ok? && v.value.Some? && v.value.value != Phrase([]) then Ok(One(v.value.value), v.next) else ParseError
  }

  // ---- terms and queries ------------------------------------------------------------------------

  function ParseGroup(ts: seq<Token>, i: nat): (r: Result<Term>)
    requires Ended(ts) && i < |ts| && ts[i] == LParen
    ensures r.Ok? ==> i < r.next < |ts| && GoodTerm(r.value) && !r.value.Negation?
    decreases |ts| - i, 0
  {
    var q := ParseQuery(ts, i + 1);
    if q.Ok? && ts[q.next] == RParen then Ok(Group(q.value), q.next + 1) else ParseError
  }

  function ParsePositiveTerm(ts: seq<Token>, i: nat): (r: Result<Option<Term>>)
    requires Ended(ts) && i < |ts|
    ensures r.Ok? && r.value.Some? ==> i < r.next < |ts| && GoodTerm(r.value.value) && !r.value.value.Negation?
    ensures r.Ok? && r.value.None? ==> r.next == i
    decreases |ts| - i, 1
  {
    if ts[i] == LParen then
      var g := ParseGroup(ts, i);
      if g.Ok? then Ok(Some(g.value), g.next) else ParseError
    else
      var v := ParseValue(ts, i);
      if v.ParseError? then ParseError
      else if v.value.None? then Ok(None, v.next)
      else if ts[v.next] == Colon then
        var kv := ParseKVValue(ts, v.next + 1);
        if kv.Ok? then Ok(Some(KVTerm(v.value.value, kv.value)), kv.next) else ParseError
      else Ok(Some(Plain(v.value.value)), v.next)
  }

  /** Note that a minus sign without a term is read and gives no term. */
  function ParseTerm(ts: seq<Token>, i: nat): (r: Result<Option<Term>>)
    requires Ended(ts) && i < |ts|
    ensures r.Ok? ==> i <= r.next < |ts| && (r.value.Some? ==> i < r.next && GoodTerm(r.value.value))
    decreases |ts| - i, 2
  {
    if ts[i] == OpNeg then
      var t := ParsePositiveTerm(ts, i + 1);
      if t.Ok? && t.value.Some? then Ok(Some(Negation(t.value.value)), t.next) else t
    else ParsePositiveTerm(ts, i)
  }

  function ParseAndExpression(ts: seq<Token>, i: nat): (r: Result<seq<Term>>)
    requires Ended(ts) && i < |ts|
    ensures r.Ok? ==> i <= r.next < |ts| && GoodTerms(r.value)
    decreases |ts| - i, 3
  {
    var t := ParseTerm(ts, i);
    if t.ParseError? then ParseError
    else if t.value.None? then Ok([], t.next)
    else
      var more := ParseAndExpression(ts, t.next);
      Prepend([t.value.value], more)
  }

  function ParseQuery(ts: seq<Token>, i: nat): (r: Result<Query>)
    requires Ended(ts) && i < |ts|
    ensures r.Ok? ==> i <= r.next < |ts| && GoodQuery(r.value) && (ts[r.next] == End || ts[r.next] == RParen)
    decreases |ts| - i, 4
  {
    var e := ParseAndExpression(ts, i);
    if e.ParseError? then ParseError
    else
      var first := if e.value == [] then [] else [AndExpression(e.value)];
      if ts[e.next] == End || ts[e.next] == RParen then Ok(first, e.next)
      else if ts[e.next] == OpOr then
        var more := ParseQuery(ts, e.next + 1);
        if more.ParseError? then ParseError
        else
          assert first != [] ==> (first + more.value)[1..] == more.value;
          assert first == [] ==> first + more.value == more.value;
          Ok(first + more.value, more.next)
      else ParseError
  }

  /** The parse of all tokens. */
  function Parsed(ts: seq<Token>): (r: Option<Query>)
    requires Ended(ts)
    ensures r.Some? ==> GoodQuery(r.value)
  {
    var q := ParseQuery(ts, 0);
    if q.Ok? && ts[q.next] == End then Some(q.value) else None
  }
}
