/** The full text back end of the search language: the pieces of a tsquery string that the visitor
    writes, and how they are read. */
module SearchTsQuery {
  import opened SearchTree

  /** The pieces of the string. `PrefixMark` is the `:*` that makes the lexeme before it a prefix. */
  datatype Piece = LP | RP | OrOp | AndOp | FollowOp | NotOp | PrefixMark | Lexeme(text: string)

  // ---- words ------------------------------------------------------------------------------------

  predicate IsGlue(c: char) {
    c in {'-', '_', '@', '#', '$', '%', '^', '&'}
  }

  /** `_glue_chars.split(term)` */
  function SplitAtGlue(s: string): (r: seq<string>)
    ensures r != []
  {
    if s == "" then [""]
    else
      var rest := SplitAtGlue(s[1..]);
      if IsGlue(s[0]) then [""] + rest else [[s[0]] + rest[0]] + rest[1..]
  }

  function LStripped(s: string): string {
    if s != "" && IsSpace(s[0]) then LStripped(s[1..]) else s
  }

  function RStripped(s: string): string {
    if s != "" && IsSpace(s[|s| - 1]) then RStripped(s[..|s| - 1]) else s
  }

  /** The parts that are not blank, without the space around them. */
  function NonBlank(parts: seq<string>): seq<string> {
    if parts == [] then []
    else
      var p := RStripped(LStripped(parts[0]));
      (if p == "" then [] else [p]) + NonBlank(parts[1..])
  }

  /** Single quotes become double quotes before the word is split. */
  function Unquoted(s: string): string {
    if s == "" then "" else [if s[0] == '\'' then '"' else s[0]] + Unquoted(s[1..])
  }

  function Parts(text: string): seq<string> {
    NonBlank(SplitAtGlue(Unquoted(text)))
  }

  // ---- the pieces of a tree ---------------------------------------------------------------------

  /** Every item followed by the operator. */
  function Trailing(op: Piece, items: seq<seq<Piece>>): seq<Piece> {
    if items == [] then []
    else Trailing(op, items[..|items| - 1]) + (items[|items| - 1] + [op])
  }

  /** The items with the operator between them. */
  function Joined(op: Piece, items: seq<seq<Piece>>): seq<Piece> {
    if items == [] then [] else Trailing(op, items[..|items| - 1]) + items[|items| - 1]
  }

  /** Closing a group takes back the last piece: the operator after the last alternative, or without
      alternatives the opening parenthesis itself. */
  function Enclosed(items: seq<seq<Piece>>): seq<Piece> {
    if items == [] then [RP] else [LP] + (Joined(OrOp, items) + [RP])
  }

  function PartItems(parts: seq<string>): (r: seq<seq<Piece>>)
    ensures |r| == |parts|
  {
    if parts == [] then [] else [[Lexeme(parts[0])]] + PartItems(parts[1..])
  }

  /** The parts of a word follow each other, and the mark of a prefix comes last. */
  function PartPieces(parts: seq<string>, prefix: bool): seq<Piece> {
    Joined(FollowOp, PartItems(parts)) + if prefix then [PrefixMark] else []
  }

  /** Several parts are put in parentheses; a word without any part leaves no trace. */
  function WordPieces(w: SearchWord): seq<Piece> {
    var parts := Parts(w.text);
    if parts == [] then []
    else if |parts| == 1 then PartPieces(parts, w.prefix)
    else [LP] + (PartPieces(parts, w.prefix) + [RP])
  }

  function WordItems(ws: seq<SearchWord>): (r: seq<seq<Piece>>)
    ensures |r| == |ws| && forall i | 0 <= i < |ws| :: r[i] == WordPieces(ws[i])
  {
    if ws == [] then [] else [WordPieces(ws[0])] + WordItems(ws[1..])
  }

  function ValuePieces(v: Value): seq<Piece> {
    match v
    case Single(w) => WordPieces(w)
    case Phrase(ws) => Joined(FollowOp, WordItems(ws))
  }

  function ValueItems(vs: seq<Value>): (r: seq<seq<Piece>>)
    ensures |r| == |vs| && forall i | 0 <= i < |vs| :: r[i] == ValuePieces(vs[i])
  {
    if vs == [] then [] else [ValuePieces(vs[0])] + ValueItems(vs[1..])
  }

  /** Camel case keys are converted; other keys are written as they are. */
  function KeyValue(snake: string -> string, key: Value): Value {
    if key.Single? && !key.word.prefix then Single(SearchWord(snake(key.word.text), false)) else key
  }

  function KVPieces(kv: KVValue): seq<Piece> {
    match kv
    case One(v) => ValuePieces(v)
    case ValueGroup(vs) => Enclosed(ValueItems(vs))
  }

  /** Is the negated term written in parentheses of its own? */
  predicate NeedsParens(t: Term) {
    t.KVTerm? || (t.Plain? && t.value.Phrase?)
  }

  function TermPieces(snake: string -> string, t: Term): seq<Piece>
    decreases t, 0
  {
    match t
    case Plain(v) => ValuePieces(v)
    case KVTerm(k, kv) => ValuePieces(KeyValue(snake, k)) + ([FollowOp] + KVPieces(kv))
    case Group(es) => Enclosed(AndItems(snake, es))
    case Negation(p) => [NotOp] + NegatedPieces(snake, p)
  }

  function NegatedPieces(snake: string -> string, p: Term): seq<Piece>
    decreases p, 1
  {
    if NeedsParens(p) then [LP] + (TermPieces(snake, p) + [RP]) else TermPieces(snake, p)
  }

  function TermItems(snake: string -> string, ts: seq<Term>): (r: seq<seq<Piece>>)
    ensures |r| == |ts| && forall i | 0 <= i < |ts| :: r[i] == TermPieces(snake, ts[i])
    decreases ts, 0
  {
    if ts == [] then [] else [TermPieces(snake, ts[0])] + TermItems(snake, ts[1..])
  }

  function AndItems(snake: string -> string, es: seq<AndExpression>): (r: seq<seq<Piece>>)
    ensures |r| == |es| && forall i | 0 <= i < |es| :: r[i] == Joined(AndOp, TermItems(snake, es[i].terms))
    decreases es, 0
  {
    if es == [] then [] else [Joined(AndOp, TermItems(snake, es[0].terms))] + AndItems(snake, es[1..])
  }

  function QueryPieces(snake: string -> string, q: Query): seq<Piece> {
    Joined(OrOp, AndItems(snake, q))
  }

  // ---- the visitor ------------------------------------------------------------------------------

  /** The strings of the list, one after the other. */
  function Flat(texts: seq<seq<Piece>>): seq<Piece> {
    if texts == [] then [] else Flat(texts[..|texts| - 1]) + texts[|texts| - 1]
  }

  /** The visitor appends strings to a list and pops the operator after the last item of a sequence. */
  class Visitor {
    var acc: seq<seq<Piece>>
    const snake: string -> string

    constructor (snake: string -> string)
      ensures acc == [] && Text() == [] && this.snake == snake
    {
      this.acc, this.snake := [], snake;
    }

    /** `"".join(acc)` */
    function Text(): seq<Piece>
      reads this
    {
      Flat(acc)
    }

    method Append(text: seq<Piece>)
      modifies this
      ensures acc == old(acc) + [text] && Text() == old(Text()) + text
    {
      acc := acc + [text];
      assert acc[..|acc| - 1] == old(acc);
    }

    /** The last string is taken back, whatever it is. */
    method Pop()
      requires acc != []
      modifies this
      ensures acc == old(acc)[..|old(acc)| - 1] && old(Text()) == Text() + old(acc)[|old(acc)| - 1]
    {
      acc := acc[..|acc| - 1];
    }

    /** The first `i` items of a loop over `items` are written, each with the operator after it. */
    ghost predicate Done(before: seq<Piece>, op: Piece, items: seq<seq<Piece>>, i: nat)
      reads this
    {
      && i <= |items| && Text() == before + Trailing(op, items[..i])
      && (i > 0 ==> acc != [] && acc[|acc| - 1] == [op])
    }

    method AppendOperator(op: Piece, ghost before: seq<Piece>, ghost items: seq<seq<Piece>>, ghost i: nat)
      requires i < |items| && Text() == (before + Trailing(op, items[..i])) + items[i]
      modifies this
      ensures Done(before, op, items, i + 1)
    {
      Append([op]);
      assert items[..i + 1][..i] == items[..i];
      assert Text() == before + (Trailing(op, items[..i]) + (items[i] + [op]));
    }

    method PopOperator(op: Piece, ghost before: seq<Piece>, ghost items: seq<seq<Piece>>)
      requires Done(before, op, items, |items|) && items != []
      modifies this
      ensures Text() == before + Joined(op, items)
    {
      var n := |items| - 1;
      assert items[..|items|] == items;
      assert Text() == before + Joined(op, items) + [op];
      Pop();
      SameFront(Text(), before + Joined(op, items), [op]);
    }

    method VisitSearchWord(w: SearchWord)
      modifies this
      ensures Text() == old(Text()) + WordPieces(w)
    {
      var parts := Parts(w.text);
      if parts == [] {
        return;
      }
      var text := Joined(FollowOp, PartItems(parts));
      if w.prefix {
        text := text + [PrefixMark];
      }
      assert text == PartPieces(parts, w.prefix);
      if |parts| > 1 {
        text := [LP] + (text + [RP]);
      }
      Append(text);
    }

    method VisitPhrase(ws: seq<SearchWord>)
      modifies this
      ensures Text() == old(Text()) + Joined(FollowOp, WordItems(ws))
    {
      hide Trailing, Joined;
      ghost var before, items := Text(), WordItems(ws);
      assert before == before + Trailing(FollowOp, items[..0]) by { StartLoop(before, FollowOp, items); }
      for i := 0 to |ws|
        invariant Done(before, FollowOp, items, i)
      {
        VisitSearchWord(ws[i]);
        AppendOperator(FollowOp, before, items, i);
      }
      if |ws| > 0 {
        PopOperator(FollowOp, before, items);
      } else {
        JoinedNothing(before, FollowOp, items);
      }
    }

    method VisitValue(v: Value)
      modifies this
      ensures Text() == old(Text()) + ValuePieces(v)
    {
      match v
      case Single(w) => VisitSearchWord(w);
      case Phrase(ws) => VisitPhrase(ws);
    }

    method VisitKVTerm(key: Value, kv: KVValue)
      modifies this
      ensures Text() == old(Text()) + TermPieces(snake, KVTerm(key, kv))
    {
      hide Trailing, Joined, ValuePieces, KVPieces, KeyValue;
      VisitValue(KeyValue(snake, key));
      Append([FollowOp]);
      VisitKVValue(kv);
      assert Text() == old(Text()) + (ValuePieces(KeyValue(snake, key)) + ([FollowOp] + KVPieces(kv)));
    }

    method VisitKVValue(kv: KVValue)
      modifies this
      ensures Text() == old(Text()) + KVPieces(kv)
    {
      hide Trailing, Joined, Enclosed;
      match kv {
        case One(v) => VisitValue(v);
        case ValueGroup(vs) =>
          ghost var start := Text();
          Append([LP]);
          ghost var before, items := Text(), ValueItems(vs);
          StartLoop(before, OrOp, items);
          for i := 0 to |vs|
            invariant Done(before, OrOp, items, i) && (i == 0 ==> acc != [] && acc[|acc| - 1] == [LP])
          {
            VisitValue(vs[i]);
            AppendOperator(OrOp, before, items, i);
          }
          CloseGroup(start, items);
      }
    }

    /** Pops the last operator, or the parenthesis of an empty group, and closes the group. */
    method CloseGroup(ghost start: seq<Piece>, ghost items: seq<seq<Piece>>)
      requires Done(start + [LP], OrOp, items, |items|)
      requires items == [] ==> acc != [] && acc[|acc| - 1] == [LP]
      modifies this
      ensures Text() == start + Enclosed(items)
    {
      assert items[..|items|] == items;
      assert items == [] ==> Text() == start + [LP];
      assert items != [] ==> Text() == start + [LP] + Joined(OrOp, items) + [OrOp];
      Pop();
      if items == [] {
        SameFront(Text(), start, [LP]);
      } else {
        SameFront(Text(), start + [LP] + Joined(OrOp, items), [OrOp]);
        assert Text() == start + ([LP] + Joined(OrOp, items));
      }
      Append([RP]);
    }

    method VisitGroup(es: seq<AndExpression>)
      modifies this
      ensures Text() == old(Text()) + Enclosed(AndItems(snake, es))
      decreases es, 4
    {
      hide Trailing, Joined, Enclosed;
      ghost var start := Text();
      Append([LP]);
      ghost var before, items := Text(), AndItems(snake, es);
      StartLoop(before, OrOp, items);
      for i := 0 to |es|
        invariant Done(before, OrOp, items, i) && (i == 0 ==> acc != [] && acc[|acc| - 1] == [LP])
      {
        VisitAndExpression(es[i]);
        AppendOperator(OrOp, before, items, i);
      }
      CloseGroup(start, items);
    }

    method VisitTerm(t: Term)
      modifies this
      ensures Text() == old(Text()) + TermPieces(snake, t)
      decreases t, 1
    {
      hide ValuePieces, Enclosed, KVPieces;
      match t
      case Plain(v) => VisitValue(v);
      case KVTerm(k, kv) => VisitKVTerm(k, kv);
      case Group(es) => VisitGroup(es);
      case Negation(p) =>
        Append([NotOp]);
        VisitNegated(p);
        assert Text() == old(Text()) + ([NotOp] + NegatedPieces(snake, p));
    }

    /** Phrases and keyed terms get parentheses under a negation. */
    method VisitNegated(p: Term)
      modifies this
      ensures Text() == old(Text()) + NegatedPieces(snake, p)
      decreases p, 3
    {
      hide TermPieces;
      var shouldGroup := NeedsParens(p);
      if shouldGroup {
        Append([LP]);
        VisitTerm(p);
        Append([RP]);
        assert Text() == old(Text()) + ([LP] + (TermPieces(snake, p) + [RP]));
      } else {
        VisitTerm(p);
      }
    }

    method VisitAndExpression(e: AndExpression)
      modifies this
      ensures Text() == old(Text()) + Joined(AndOp, TermItems(snake, e.terms))
      decreases e, 2
    {
      hide Trailing, Joined, TermPieces;
      ghost var before, items := Text(), TermItems(snake, e.terms);
      StartLoop(before, AndOp, items);
      for i := 0 to |e.terms|
        invariant Done(before, AndOp, items, i)
      {
        VisitTerm(e.terms[i]);
        AppendOperator(AndOp, before, items, i);
      }
      if |e.terms| > 0 {
        PopOperator(AndOp, before, items);
      } else {
        JoinedNothing(before, AndOp, items);
      }
    }

    method VisitQuery(q: Query)
      modifies this
      ensures Text() == old(Text()) + QueryPieces(snake, q)
    {
      hide Trailing, Joined;
      ghost var before, items := Text(), AndItems(snake, q);
      StartLoop(before, OrOp, items);
      for i := 0 to |q|
        invariant Done(before, OrOp, items, i)
      {
        VisitAndExpression(q[i]);
        AppendOperator(OrOp, before, items, i);
      }
      if |q| > 0 {
        PopOperator(OrOp, before, items);
      } else {
        JoinedNothing(before, OrOp, items);
      }
    }
  }

  lemma StartLoop(before: seq<Piece>, op: Piece, items: seq<seq<Piece>>)
    ensures before + Trailing(op, items[..0]) == before
  {
    assert items[..0] == [];
    assert before + [] == before;
  }

  lemma JoinedNothing(before: seq<Piece>, op: Piece, items: seq<seq<Piece>>)
    requires items == []
    ensures before + Joined(op, items) == before
  {
    assert before + [] == before;
  }

  lemma SameFront(a: seq<Piece>, b: seq<Piece>, t: seq<Piece>)
    requires a + t == b + t
    ensures a == b
  {
    assert |a| == |b|;
    assert a == (a + t)[..|a|] && b == (b + t)[..|b|];
  }
}
