/** How a tsquery string is read, with the precedence of its operators, what a parse tree means as a
    tsquery, and when it has something to search for everywhere. */
module SearchTsReader {
  import opened Wrappers
  import opened SearchGrammar
  import opened SearchTree
  import opened SearchTsQuery

  /** A tsquery. Lists of one are not wrapped. */
  datatype Ts =
    | Lex(text: string, prefix: bool)
    | Not(arg: Ts)
    | Follow(args: seq<Ts>)
    | And(args: seq<Ts>)
    | Or(args: seq<Ts>)

  function MkFollow(es: seq<Ts>): Ts {
    if |es| == 1 then es[0] else Follow(es)
  }

  function MkAnd(es: seq<Ts>): Ts {
    if |es| == 1 then es[0] else And(es)
  }

  function MkOr(es: seq<Ts>): Ts {
    if |es| == 1 then es[0] else Or(es)
  }

  // ---- reading: `!` binds tightest, then `<->`, then `&`, then `|` --------------------------------

  function ReadUnary(ps: seq<Piece>, i: nat): (r: Result<Ts>)
    requires i <= |ps|
    ensures r.Ok? ==> i < r.next <= |ps|
    decreases |ps| - i, 0
  {
    if i == |ps| then ParseError
    else
      match ps[i]
      case Lexeme(text) =>
        if i + 1 < |ps| && ps[i + 1] == PrefixMark then Ok(Lex(text, true), i + 2) else Ok(Lex(text, false), i + 1)
      case NotOp =>
        var r := ReadUnary(ps, i + 1);
        if r.Ok? then Ok(Not(r.value), r.next) else ParseError
      case LP =>
        var r := ReadOr(ps, i + 1);
        if r.Ok? && r.next < |ps| && ps[r.next] == RP then Ok(MkOr(r.value), r.next + 1) else ParseError
      case _ => ParseError
  }

  function ReadFollow(ps: seq<Piece>, i: nat): (r: Result<seq<Ts>>)
    requires i <= |ps|
    ensures r.Ok? ==> i < r.next <= |ps|
    decreases |ps| - i, 1
  {
    var u := ReadUnary(ps, i);
    if u.ParseError? then ParseError
    else if u.next < |ps| && ps[u.next] == FollowOp then Prepend([u.value], ReadFollow(ps, u.next + 1))
    else Ok([u.value], u.next)
  }

  function ReadAnd(ps: seq<Piece>, i: nat): (r: Result<seq<Ts>>)
    requires i <= |ps|
    ensures r.Ok? ==> i < r.next <= |ps|
    decreases |ps| - i, 2
  {
    var u := ReadFollow(ps, i);
    if u.ParseError? then ParseError
    else if u.next < |ps| && ps[u.next] == AndOp then Prepend([MkFollow(u.value)], ReadAnd(ps, u.next + 1))
    else Ok([MkFollow(u.value)], u.next)
  }

  function ReadOr(ps: seq<Piece>, i: nat): (r: Result<seq<Ts>>)
    requires i <= |ps|
    ensures r.Ok? ==> i < r.next <= |ps|
    decreases |ps| - i, 3
  {
    var u := ReadAnd(ps, i);
    if u.ParseError? then ParseError
    else if u.next < |ps| && ps[u.next] == OrOp then Prepend([MkAnd(u.value)], ReadOr(ps, u.next + 1))
    else Ok([MkAnd(u.value)], u.next)
  }

  /** The tsquery that a whole string is read as. */
  function Read(ps: seq<Piece>): Option<Ts> {
    var r := ReadOr(ps, 0);
    if r.Ok? && r.next == |ps| then Some(MkOr(r.value)) else None
  }

  // ---- the meaning of a tree ----------------------------------------------------------------------

  /** The parts of a word follow each other; of a prefix word the last part is a prefix. */
  function PartMeanings(parts: seq<string>, prefix: bool): (r: seq<Ts>)
    ensures |r| == |parts|
  {
    if parts == [] then []
    else [Lex(parts[0], prefix && |parts| == 1)] + PartMeanings(parts[1..], prefix)
  }

  function WordMeaning(w: SearchWord): Ts {
    MkFollow(PartMeanings(Parts(w.text), w.prefix))
  }

  function WordMeanings(ws: seq<SearchWord>): (r: seq<Ts>)
    ensures |r| == |ws|
  {
    if ws == [] then [] else [WordMeaning(ws[0])] + WordMeanings(ws[1..])
  }

  /** The words of a value, which follow each other. */
  function ValueMeanings(v: Value): seq<Ts> {
    match v
    case Single(w) => [WordMeaning(w)]
    case Phrase(ws) => WordMeanings(ws)
  }

  /** A key: a plain word in its converted form, any other key as it is. */
  function KeyMeanings(snake: string -> string, key: Value): seq<Ts> {
    match key
    case Single(w) =>
      if w.prefix then [WordMeaning(w)] else [MkFollow(PartMeanings(Parts(snake(w.text)), false))]
    case Phrase(ws) => WordMeanings(ws)
  }

  function AlternativeMeanings(vs: seq<Value>): (r: seq<Ts>)
    ensures |r| == |vs|
  {
    if vs == [] then [] else [MkFollow(ValueMeanings(vs[0]))] + AlternativeMeanings(vs[1..])
  }

  function KVMeanings(kv: KVValue): seq<Ts> {
    match kv
    case One(v) => ValueMeanings(v)
    case ValueGroup(vs) => [MkOr(AlternativeMeanings(vs))]
  }

  /** The items of a term, which follow each other: the words of a phrase, or a key and its value. */
  function TermMeanings(snake: string -> string, t: Term): seq<Ts> {
    match t
    case Plain(v) => ValueMeanings(v)
    case KVTerm(k, kv) => KeyMeanings(snake, k) + KVMeanings(kv)
    case Group(es) => [MkOr(QueryMeanings(snake, es))]
    case Negation(p) => [Not(MkFollow(TermMeanings(snake, p)))]
  }

  function AndMeanings(snake: string -> string, ts: seq<Term>): (r: seq<Ts>)
    ensures |r| == |ts|
  {
    if ts == [] then [] else [MkFollow(TermMeanings(snake, ts[0]))] + AndMeanings(snake, ts[1..])
  }

  function QueryMeanings(snake: string -> string, es: seq<AndExpression>): (r: seq<Ts>)
    ensures |r| == |es|
  {
    if es == [] then [] else [MkAnd(AndMeanings(snake, es[0].terms))] + QueryMeanings(snake, es[1..])
  }

  function Meaning(snake: string -> string, q: Query): Ts {
    MkOr(QueryMeanings(snake, q))
  }

  // ---- trees with something to search for everywhere ----------------------------------------------

  predicate SolidWords(ws: seq<SearchWord>) {
    ws == [] || (Parts(ws[0].text) != [] && SolidWords(ws[1..]))
  }

  predicate SolidValue(v: Value) {
    match v
    case Single(w) => Parts(w.text) != []
    case Phrase(ws) => ws != [] && SolidWords(ws)
  }

  predicate SolidValues(vs: seq<Value>) {
    vs == [] || (SolidValue(vs[0]) && SolidValues(vs[1..]))
  }

  predicate SolidKV(kv: KVValue) {
    match kv
    case One(v) => SolidValue(v)
    case ValueGroup(vs) => vs != [] && SolidValues(vs)
  }

  predicate SolidKey(snake: string -> string, key: Value) {
    match key
    case Single(w) => if w.prefix then Parts(w.text) != [] else Parts(snake(w.text)) != []
    case Phrase(ws) => ws != [] && SolidWords(ws)
  }

  predicate SolidTerm(snake: string -> string, t: Term) {
    match t
    case Plain(v) => SolidValue(v)
    case KVTerm(k, kv) => SolidKey(snake, k) && SolidKV(kv)
    case Group(es) => es != [] && SolidAlternatives(snake, es)
    case Negation(p) => SolidTerm(snake, p)
  }

  predicate SolidTerms(snake: string -> string, ts: seq<Term>) {
    ts == [] || (SolidTerm(snake, ts[0]) && SolidTerms(snake, ts[1..]))
  }

  predicate SolidAlternatives(snake: string -> string, es: seq<AndExpression>) {
    es == [] || (es[0].terms != [] && SolidTerms(snake, es[0].terms) && SolidAlternatives(snake, es[1..]))
  }

  predicate Solid(snake: string -> string, q: Query) {
    q != [] && SolidAlternatives(snake, q)
  }
}
