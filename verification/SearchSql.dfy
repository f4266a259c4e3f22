/** The SQL back end of the search language: which rows a query selects. */
module SearchSql {
  import opened SearchTree

  /** A row of the base table, known by its join key. */
  type Row = nat

  /** A condition that a mapping makes for a searched value. */
  type Condition = Row -> bool

  /** A select statement over the base table. */
  datatype Select =
    | Base
    | Where(stmt: Select, cond: Condition)
    | Joined(stmt: Select, subquery: Select)
    | OuterJoinedNull(stmt: Select, subquery: Select)
    | Union(first: Select, rest: seq<Select>)

  /** The rows that a statement selects. A join with a subquery on the key keeps the rows of the
      statement that the subquery selects; an outer join with a null test keeps the others. */
  function Rows(s: Select, base: set<Row>): (r: set<Row>)
    ensures r <= base
  {
    match s
    case Base => base
    case Where(s0, cond) => set r | r in Rows(s0, base) && cond(r)
    case Joined(s0, sub) => Rows(s0, base) * Rows(sub, base)
    case OuterJoinedNull(s0, sub) => Rows(s0, base) - Rows(sub, base)
    case Union(first, rest) => Rows(first, base) + RowsOfAll(rest, base)
  }

  function RowsOfAll(ss: seq<Select>, base: set<Row>): (r: set<Row>)
    ensures r <= base
  {
    if ss == [] then {} else Rows(ss[0], base) + RowsOfAll(ss[1..], base)
  }

  /** The searchable columns: each makes a condition from a value. `snake` is the conversion of a
      camel case key. */
  datatype Columns = Columns(names: seq<string>, make: map<string, Value -> Condition>, snake: string -> string)
  {
    predicate Valid() {
      forall i | 0 <= i < |names| :: names[i] in make
    }
  }

  /** Does any column find the value in the row? */
  predicate Found(c: Columns, v: Value, row: Row)
    requires c.Valid()
  {
    exists i | 0 <= i < |c.names| :: c.make[c.names[i]](v)(row)
  }

  predicate AnyHolds(make: Value -> Condition, vs: seq<Value>, row: Row) {
    exists i | 0 <= i < |vs| :: make(vs[i])(row)
  }

  // ---- the visitor ------------------------------------------------------------------------------

  function Negated(cond: Condition, negated: bool): Condition {
    if negated then (row: Row) => !cond(row) else cond
  }

  function VisitKVTerm(c: Columns, s: Select, key: Value, kv: KVValue, negated: bool): Select
    decreases if key.Phrase? then 1 else 0
  {
    if key.Single? && !key.word.prefix then
      var name := c.snake(key.word.text);
      if name !in c.make then Where(s, (row: Row) => false)
      else
        match kv
        case One(v) => Where(s, Negated(c.make[name](v), negated))
        case ValueGroup(vs) => Where(s, Negated((row: Row) => AnyHolds(c.make[name], vs, row), negated))
    else if key.Phrase? && |key.words| == 1 then VisitKVTerm(c, s, Single(key.words[0]), kv, negated)
    else s
  }

  function VisitSearchWord(c: Columns, s: Select, v: Value, negated: bool): Select
    requires c.Valid()
  {
    Where(s, Negated((row: Row) => Found(c, v, row), negated))
  }

  datatype Result = Ok(stmt: Select) | IndexError

  /** `visit_term`. A query without alternatives makes its visitor fail. */
  function VisitTerm(c: Columns, s: Select, t: Term, negated: bool): Result
    requires c.Valid()
    decreases t
  {
    match t
    case KVTerm(k, kv) => Ok(VisitKVTerm(c, s, k, kv, negated))
    case Negation(p) => VisitTerm(c, s, p, true)
    case Plain(v) => Ok(VisitSearchWord(c, s, v, negated))
    case Group(es) =>
      var sub := VisitQuery(c, es);
      if sub.IndexError? then IndexError
      else Ok(if negated then OuterJoinedNull(s, sub.stmt) else Joined(s, sub.stmt))
  }

  function VisitAndExpression(c: Columns, s: Select, ts: seq<Term>): Result
    requires c.Valid()
    decreases ts
  {
    if ts == [] then Ok(s)
    else
      var r := VisitTerm(c, s, ts[0], false);
      if r.IndexError? then IndexError else VisitAndExpression(c, r.stmt, ts[1..])
  }

  /** The statements of all alternatives, each made from the base statement. */
  function VisitAlternatives(c: Columns, es: seq<AndExpression>): (r: (bool, seq<Select>))
    requires c.Valid()
    ensures r.0 ==> |r.1| == |es|
    decreases es, 0
  {
    if es == [] then (true, [])
    else
      var first := VisitAndExpression(c, Base, es[0].terms);
      var (ok, rest) := VisitAlternatives(c, es[1..]);
      if first.Ok? && ok then (true, [first.stmt] + rest) else (false, [])
  }

  function VisitQuery(c: Columns, es: seq<AndExpression>): Result
    requires c.Valid()
    decreases es, 1
  {
    if es == [] then IndexError
    else
      var (ok, all) := VisitAlternatives(c, es);
      if !ok then IndexError
      else if |es| > 1 then Ok(Union(all[0], all[1..]))
      else Ok(all[0])
  }

  // ---- the meaning of a tree --------------------------------------------------------------------

  /** The one plain word of a key: only such keys name a column. */
  predicate NamesColumn(key: Value) {
    (key.Single? && !key.word.prefix) || (key.Phrase? && |key.words| == 1 && !key.words[0].prefix)
  }

  function ColumnOf(c: Columns, key: Value): string
    requires NamesColumn(key)
  {
    c.snake(if key.Single? then key.word.text else key.words[0].text)
  }

  predicate KnownKey(c: Columns, key: Value) {
    NamesColumn(key) && ColumnOf(c, key) in c.make
  }

  /** A key that names no known column matches nothing, and a key that is no plain word matches
      everything. */
  predicate KVHolds(c: Columns, key: Value, kv: KVValue, row: Row) {
    if !NamesColumn(key) then true
    else if ColumnOf(c, key) !in c.make then false
    else
      var make := c.make[ColumnOf(c, key)];
      match kv
      case One(v) => make(v)(row)
      case ValueGroup(vs) => exists i | 0 <= i < |vs| :: make(vs[i])(row)
  }

  predicate TermHolds(c: Columns, t: Term, row: Row)
    requires c.Valid()
  {
    match t
    case Plain(v) => exists i | 0 <= i < |c.names| :: c.make[c.names[i]](v)(row)
    case KVTerm(k, kv) => KVHolds(c, k, kv, row)
    case Group(es) => QueryHolds(c, es, row)
    case Negation(p) => !TermHolds(c, p, row)
  }

  predicate TermsHold(c: Columns, ts: seq<Term>, row: Row)
    requires c.Valid()
  {
    ts == [] || (TermHolds(c, ts[0], row) && TermsHold(c, ts[1..], row))
  }

  predicate QueryHolds(c: Columns, es: seq<AndExpression>, row: Row)
    requires c.Valid()
  {
    es != [] && (TermsHold(c, es[0].terms, row) || QueryHolds(c, es[1..], row))
  }

  /** No group in the tree is empty. */
  predicate FullTerm(t: Term) {
    match t
    case Plain(_) => true
    case KVTerm(_, _) => true
    case Group(es) => es != [] && FullAlternatives(es)
    case Negation(p) => FullTerm(p)
  }

  predicate FullTerms(ts: seq<Term>) {
    ts == [] || (FullTerm(ts[0]) && FullTerms(ts[1..]))
  }

  predicate FullAlternatives(es: seq<AndExpression>) {
    es == [] || (FullTerms(es[0].terms) && FullAlternatives(es[1..]))
  }

  /** Every negated key is known. */
  predicate KeysKnown(c: Columns, t: Term) {
    match t
    case Plain(_) => true
    case KVTerm(_, _) => true
    case Group(es) => AllKeysKnown(c, es)
    case Negation(p) => KeysKnown(c, p) && (p.KVTerm? ==> KnownKey(c, p.key))
  }

  predicate TermKeysKnown(c: Columns, ts: seq<Term>) {
    ts == [] || (KeysKnown(c, ts[0]) && TermKeysKnown(c, ts[1..]))
  }

  predicate AllKeysKnown(c: Columns, es: seq<AndExpression>) {
    es == [] || (TermKeysKnown(c, es[0].terms) && AllKeysKnown(c, es[1..]))
  }

  // ---- when the visitor fails -------------------------------------------------------------------

  lemma {:induction false} TermFails(c: Columns, s: Select, t: Term, negated: bool)
    requires c.Valid()
    ensures VisitTerm(c, s, t, negated).Ok? <==> FullTerm(t)
    decreases t
  {
    match t
    case Plain(_) =>
    case KVTerm(_, _) =>
    case Negation(p) => TermFails(c, s, p, true);
    case Group(es) => QueryFails(c, es);
  }

  lemma {:induction false} TermsFail(c: Columns, s: Select, ts: seq<Term>)
    requires c.Valid()
    ensures VisitAndExpression(c, s, ts).Ok? <==> FullTerms(ts)
    decreases ts
  {
    if ts != [] {
      TermFails(c, s, ts[0], false);
      if FullTerm(ts[0]) {
        TermsFail(c, VisitTerm(c, s, ts[0], false).stmt, ts[1..]);
      }
    }
  }

  lemma {:induction false} AlternativesFail(c: Columns, es: seq<AndExpression>)
    requires c.Valid()
    ensures VisitAlternatives(c, es).0 <==> FullAlternatives(es)
    decreases es, 0
  {
    if es != [] {
      TermsFail(c, Base, es[0].terms);
      AlternativesFail(c, es[1..]);
    }
  }

  /** The visitor fails exactly on a query or a group without alternatives. */
  lemma QueryFails(c: Columns, es: seq<AndExpression>)
    requires c.Valid()
    ensures VisitQuery(c, es).Ok? <==> es != [] && FullAlternatives(es)
    decreases es, 1
  {
    AlternativesFail(c, es);
  }

  // ---- what the statement selects ---------------------------------------------------------------

  lemma KVTermSelects(c: Columns, s: Select, key: Value, kv: KVValue, negated: bool, base: set<Row>)
    requires negated ==> KnownKey(c, key)
    ensures Rows(VisitKVTerm(c, s, key, kv, negated), base)
         == set r | r in Rows(s, base) && KVHolds(c, key, kv, r) != negated
    decreases if key.Phrase? then 1 else 0
  {
    if key.Phrase? && |key.words| == 1 {
      KVTermSelects(c, s, Single(key.words[0]), kv, negated, base);
    }
  }

  lemma {:induction false} TermSelects(c: Columns, s: Select, t: Term, negated: bool, base: set<Row>)
    requires c.Valid() && GoodTerm(t) && FullTerm(t) && KeysKnown(c, t)
    requires negated ==> !t.Negation? && (t.KVTerm? ==> KnownKey(c, t.key))
    ensures
      var r := VisitTerm(c, s, t, negated);
      r.Ok? && Rows(r.stmt, base) == set r | r in Rows(s, base) && TermHolds(c, t, r) != negated
    decreases t
  {
    match t
    case Plain(_) =>
    case KVTerm(k, kv) => KVTermSelects(c, s, k, kv, negated, base);
    case Negation(p) => TermSelects(c, s, p, true, base);
    case Group(es) => QuerySelects(c, es, base);
  }

  lemma {:induction false} TermsSelect(c: Columns, s: Select, ts: seq<Term>, base: set<Row>)
    requires c.Valid() && GoodTerms(ts) && FullTerms(ts) && TermKeysKnown(c, ts)
    ensures
      var r := VisitAndExpression(c, s, ts);
      r.Ok? && Rows(r.stmt, base) == set r | r in Rows(s, base) && TermsHold(c, ts, r)
    decreases ts
  {
    if ts != [] {
      TermSelects(c, s, ts[0], false, base);
      TermsSelect(c, VisitTerm(c, s, ts[0], false).stmt, ts[1..], base);
    }
  }

  lemma {:induction false} AlternativesSelect(c: Columns, es: seq<AndExpression>, base: set<Row>)
    requires c.Valid() && GoodQuery(es) && FullAlternatives(es) && AllKeysKnown(c, es)
    ensures
      var r := VisitAlternatives(c, es);
      r.0 && RowsOfAll(r.1, base) == set r | r in base && QueryHolds(c, es, r)
    decreases es, 0
  {
    if es != [] {
      TermsSelect(c, Base, es[0].terms, base);
      AlternativesSelect(c, es[1..], base);
      var all := VisitAlternatives(c, es).1;
      assert all[1..] == VisitAlternatives(c, es[1..]).1;
    }
  }

  /** The statement of a query selects exactly the base rows that satisfy it. */
  lemma QuerySelects(c: Columns, es: seq<AndExpression>, base: set<Row>)
    requires c.Valid() && es != [] && GoodQuery(es) && FullAlternatives(es) && AllKeysKnown(c, es)
    ensures
      var r := VisitQuery(c, es);
      r.Ok? && Rows(r.stmt, base) == set r | r in base && QueryHolds(c, es, r)
    decreases es, 1
  {
    AlternativesSelect(c, es, base);
    var all := VisitAlternatives(c, es).1;
    assert RowsOfAll(all, base) == Rows(all[0], base) + RowsOfAll(all[1..], base);
  }

  /** A negated key is read as the opposite of the key exactly when the key is known, unless there is
      no row to tell. */
  lemma NegatedKeyIsOppositeIffKnown(c: Columns, s: Select, key: Value, kv: KVValue, base: set<Row>)
    requires c.Valid()
    ensures
      var r := VisitTerm(c, s, Negation(KVTerm(key, kv)), false);
      && r.Ok?
      && (Rows(r.stmt, base) == (set r | r in Rows(s, base) && !TermHolds(c, KVTerm(key, kv), r))
          <==> KnownKey(c, key) || Rows(s, base) == {})
  {
    var r := VisitTerm(c, s, Negation(KVTerm(key, kv)), false);
    assert r == VisitTerm(c, s, KVTerm(key, kv), true) == Ok(VisitKVTerm(c, s, key, kv, true));
    if KnownKey(c, key) {
      KVTermSelects(c, s, key, kv, true, base);
    } else {
      UnknownKeyIgnoresNegation(c, s, key, kv, base);
      if x :| x in Rows(s, base) {
        assert x in Rows(r.stmt, base) <==> KVHolds(c, key, kv, x);
      }
    }
  }

  lemma UnknownKeyIgnoresNegation(c: Columns, s: Select, key: Value, kv: KVValue, base: set<Row>)
    requires !KnownKey(c, key)
    ensures Rows(VisitKVTerm(c, s, key, kv, true), base) == set r | r in Rows(s, base) && KVHolds(c, key, kv, r)
    decreases if key.Phrase? then 1 else 0
  {
    if key.Phrase? && |key.words| == 1 {
      UnknownKeyIgnoresNegation(c, s, Single(key.words[0]), kv, base);
    }
  }

  // ---- what a term selects, column by column and value by value -----------------------------------

  /** A known key with one value: the rows on which the condition that its column makes holds. */
  lemma ColumnSelects(c: Columns, s: Select, text: string, v: Value, negated: bool, base: set<Row>)
    requires c.snake(text) in c.make
    ensures
      var key := Single(SearchWord(text, false));
      Rows(VisitKVTerm(c, s, key, One(v), negated), base)
      == set r | r in Rows(s, base) && c.make[c.snake(text)](v)(r) != negated
  {
  }

  /** A known key with a group of values selects what it selects with any one of them; negated, the rest. */
  lemma ValueGroupSelects(c: Columns, s: Select, text: string, vs: seq<Value>, base: set<Row>)
    requires c.snake(text) in c.make
    ensures
      var key := Single(SearchWord(text, false));
      var rows := Rows(VisitKVTerm(c, s, key, ValueGroup(vs), false), base);
      && (forall r :: r in rows <==>
            exists i :: 0 <= i < |vs| && r in Rows(VisitKVTerm(c, s, key, One(vs[i]), false), base))
      && Rows(VisitKVTerm(c, s, key, ValueGroup(vs), true), base) == Rows(s, base) - rows
  {
    hide VisitKVTerm;
    var key := Single(SearchWord(text, false));
    GroupIsWhere(c, s, text, vs);
    forall i | 0 <= i < |vs| {
      ColumnSelects(c, s, text, vs[i], false, base);
    }
    var rows := Rows(VisitKVTerm(c, s, key, ValueGroup(vs), false), base);
    forall r
      ensures r in rows <==>
        exists i :: 0 <= i < |vs| && r in Rows(VisitKVTerm(c, s, key, One(vs[i]), false), base)
    {
      if r in rows {
        var i :| 0 <= i < |vs| && c.make[c.snake(text)](vs[i])(r);
        assert r in Rows(VisitKVTerm(c, s, key, One(vs[i]), false), base);
      }
    }
  }

  lemma GroupIsWhere(c: Columns, s: Select, text: string, vs: seq<Value>)
    requires c.snake(text) in c.make
    ensures
      var key := Single(SearchWord(text, false));
      && (forall base: set<Row> :: Rows(VisitKVTerm(c, s, key, ValueGroup(vs), false), base)
            == set r | r in Rows(s, base) && AnyHolds(c.make[c.snake(text)], vs, r))
      && (forall base: set<Row> :: Rows(VisitKVTerm(c, s, key, ValueGroup(vs), true), base)
            == set r | r in Rows(s, base) && !AnyHolds(c.make[c.snake(text)], vs, r))
  {
    hide AnyHolds;
  }

  /** A plain value selects the rows in which the condition of any column finds it; negated, the rest. */
  lemma PlainSelects(c: Columns, s: Select, v: Value, base: set<Row>)
    requires c.Valid()
    ensures
      var rows := Rows(VisitSearchWord(c, s, v, false), base);
      && (forall r :: r in rows <==>
            r in Rows(s, base) && exists i :: 0 <= i < |c.names| && c.make[c.names[i]](v)(r))
      && Rows(VisitSearchWord(c, s, v, true), base) == Rows(s, base) - rows
  {
  }
}
