/** The parser of the search language as the object that moves its own position. Every method is proved
    equal to the function of the same name in `SearchGrammar`. */
module SearchParser {
  import opened Wrappers
  import opened SearchTree
  import opened SearchGrammar

  /** The parser as it runs. Its methods peek at and take tokens and never take one after `End`. */
  class Parser {
    const tokens: seq<Token>
    var pos: nat

    constructor (tokens: seq<Token>)
      requires Ended(tokens)
      ensures this.tokens == tokens && pos == 0
    {
      this.tokens, this.pos := tokens, 0;
    }

    ghost predicate Valid()
      reads this
    {
      Ended(tokens) && pos < |tokens|
    }

    function Peek(): Token
      reads this
      requires Valid()
    {
      tokens[pos]
    }

    method ParseSearchWord() returns (w: SearchWord)
      requires Valid() && Peek().Word?
      modifies this
      ensures Valid() && (w, pos) == SearchGrammar.ParseSearchWord(tokens, old(pos))
    {
      var text := tokens[pos].text;
      pos := pos + 1;
      if Peek() == Asterisk {
        pos := pos + 1;
        return SearchWord(text, true);
      }
      return SearchWord(text, false);
    }

    method ParsePhrase() returns (r: Result<Value>)
      requires Valid() && Peek() == Quote
      modifies this
      ensures Valid() && r == SearchGrammar.ParsePhrase(tokens, old(pos)) && (r.Ok? ==> pos == r.next)
    {
      pos := pos + 1;
      var words := [];
      ghost var all := ParseWords(tokens, pos);
      while Peek() != Quote
        invariant Valid() && old(pos) < pos
        invariant words + ParseWords(tokens, pos).0 == all.0 && ParseWords(tokens, pos).1 == all.1
        decreases |tokens| - pos
      {
        if !Peek().Word? {
          break;
        }
        var w := ParseSearchWord();
        words := words + [w];
      }
      if Peek() != Quote {
        return ParseError;
      }
      assert words + [] == words;
      pos := pos + 1;
      return Ok(Phrase(words), pos);
    }

    method ParseValue() returns (r: Result<Option<Value>>)
      requires Valid()
      modifies this
      ensures Valid() && r == SearchGrammar.ParseValue(tokens, old(pos)) && (r.Ok? ==> pos == r.next)
    {
      if Peek() == Quote {
        var p := ParsePhrase();
        return if p.Ok? then Ok(Some(p.value), pos) else ParseError;
      }
      if Peek().Word? {
        var w := ParseSearchWord();
        return Ok(Some(Single(w)), pos);
      }
      return Ok(None, pos);
    }

    method ParseValueGroup() returns (r: Result<Option<KVValue>>)
      requires Valid() && Peek() == LParen
      modifies this
      ensures Valid() && r == SearchGrammar.ParseValueGroup(tokens, old(pos)) && (r.Ok? ==> pos == r.next)
    {
      hide SearchGrammar.ParseValue;
      pos := pos + 1;
      var v := ParseValue();
      if v.ParseError? {
        return ParseError;
      }
      if v.value.None? {
        return Ok(None, pos);
      }
      var values := [v.value.value];
      ghost var more := ParseMoreValues(tokens, pos);
      while Peek() != RParen
        invariant Valid() && old(pos) < pos && values != []
        invariant Prepend(values, ParseMoreValues(tokens, pos)) == Prepend([v.value.value], more)
        decreases |tokens| - pos
      {
        if Peek() != OpOr {
          return ParseError;
        }
        pos := pos + 1;
        var next := ParseValue();
        if next.ParseError? {
          return ParseError;
        }
        ghost var found := if next.value.Some? then [next.value.value] else [];
        PrependTwice(values, found, ParseMoreValues(tokens, pos));
        if next.value.Some? {
          values := values + [next.value.value];
        } else {
          assert values + found == values;
        }
      }
      assert values + [] == values;
      pos := pos + 1;
      return Ok(Some(ValueGroup(values)), pos);
    }

    method ParseKVValue() returns (r: Result<KVValue>)
      requires Valid()
      modifies this
      ensures Valid() && r == SearchGrammar.ParseKVValue(tokens, old(pos)) && (r.Ok? ==> pos == r.next)
    {
      if Peek() == LParen {
        var g := ParseValueGroup();
        return if g.Ok? && g.value.Some? then Ok(g.value.value, pos) else ParseError;
      }
      var v := ParseValue();
      return if v.Ok? && v.value.Some? && v.value.value != Phrase([]) then Ok(One(v.value.value), pos) else ParseError;
    }

    method ParseGroup() returns (r: Result<Term>)
      requires Valid() && Peek() == LParen
      modifies this
      ensures Valid() && r == SearchGrammar.ParseGroup(tokens, old(pos)) && (r.Ok? ==> pos == r.next)
      decreases |tokens| - pos, 0
    {
      pos := pos + 1;
      var q := ParseQuery();
      if q.ParseError? || Peek() != RParen {
        return ParseError;
      }
      pos := pos + 1;
      return Ok(Group(q.value), pos);
    }

    method ParsePositiveTerm() returns (r: Result<Option<Term>>)
      requires Valid()
      modifies this
      ensures Valid() && r == SearchGrammar.ParsePositiveTerm(tokens, old(pos)) && (r.Ok? ==> pos == r.next)
      decreases |tokens| - pos, 1
    {
      if Peek() == LParen {
        var g := ParseGroup();
        return if g.Ok? then Ok(Some(g.value), pos) else ParseError;
      }
      var v := ParseValue();
      if v.ParseError? {
        return ParseError;
      }
      if v.value.None? {
        return Ok(None, pos);
      }
      if Peek() == Colon {
        pos := pos + 1;
        var kv := ParseKVValue();
        return if kv.Ok? then Ok(Some(KVTerm(v.value.value, kv.value)), pos) else ParseError;
      }
      return Ok(Some(Plain(v.value.value)), pos);
    }

    method ParseTerm() returns (r: Result<Option<Term>>)
      requires Valid()
      modifies this
      ensures Valid() && r == SearchGrammar.ParseTerm(tokens, old(pos)) && (r.Ok? ==> pos == r.next)
      decreases |tokens| - pos, 2
    {
      if Peek() == OpNeg {
        pos := pos + 1;
        var t := ParsePositiveTerm();
        return if t.Ok? && t.value.Some? then Ok(Some(Negation(t.value.value)), pos) else t;
      }
      r := ParsePositiveTerm();
    }

    method ParseAndExpression() returns (r: Result<seq<Term>>)
      requires Valid()
      modifies this
      ensures Valid() && r == SearchGrammar.ParseAndExpression(tokens, old(pos)) && (r.Ok? ==> pos == r.next)
      decreases |tokens| - pos, 3
    {
      var terms := [];
      ghost var start := pos;
      PrependTwice([], [], SearchGrammar.ParseAndExpression(tokens, pos));
      while true
        invariant Valid() && start <= pos
        invariant Prepend(terms, SearchGrammar.ParseAndExpression(tokens, pos))
               == SearchGrammar.ParseAndExpression(tokens, start)
        decreases |tokens| - pos
      {
        var t := ParseTerm();
        if t.ParseError? {
          return ParseError;
        }
        if t.value.None? {
          assert terms + [] == terms;
          return Ok(terms, pos);
        }
        PrependTwice(terms, [t.value.value], SearchGrammar.ParseAndExpression(tokens, pos));
        terms := terms + [t.value.value];
      }
    }

    method ParseQuery() returns (r: Result<Query>)
      requires Valid()
      modifies this
      ensures Valid() && r == SearchGrammar.ParseQuery(tokens, old(pos)) && (r.Ok? ==> pos == r.next)
      decreases |tokens| - pos, 4
    {
      var expressions := [];
      ghost var start := pos;
      PrependTwice([], [], SearchGrammar.ParseQuery(tokens, pos));
      while true
        invariant Valid() && start <= pos
        invariant Prepend(expressions, SearchGrammar.ParseQuery(tokens, pos))
               == SearchGrammar.ParseQuery(tokens, start)
        decreases |tokens| - pos
      {
        var e := ParseAndExpression();
        if e.ParseError? {
          return ParseError;
        }
        ghost var found := if e.value == [] then [] else [AndExpression(e.value)];
        ghost var before := expressions;
        if e.value != [] {
          expressions := expressions + [AndExpression(e.value)];
        }
        assert expressions == before + found;
        if Peek() == End || Peek() == RParen {
          return Ok(expressions, pos);
        }
        if Peek() != OpOr {
          return ParseError;
        }
        pos := pos + 1;
        PrependTwice(before, found, SearchGrammar.ParseQuery(tokens, pos));
      }
    }

    /** The whole parse: a query or a parse error. */
    method Parse() returns (r: Option<Query>)
      requires Valid()
      modifies this
      ensures r == Parsed(tokens)
    {
      pos := 0;
      var q := ParseQuery();
      if q.Ok? && Peek() == End {
        return Some(q.value);
      }
      return None;
    }
  }
}
