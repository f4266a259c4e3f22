/** The lexer of the search language, and the round trip from tokens to text and back. */
module SearchLexer {
  import opened SearchTree

  predicate IsSpecial(c: char) {
    c in {'|', '-', '*', '(', ')', ':', '"'}
  }

  function SpecialToken(c: char): Token
    requires IsSpecial(c)
  {
    match c
    case '|' => OpOr
    case '-' => OpNeg
    case '*' => Asterisk
    case '(' => LParen
    case ')' => RParen
    case ':' => Colon
    case '"' => Quote
  }

  /** The longest beginning of `s` without a boundary. */
  function WordOf(s: string): (w: string)
    ensures |w| <= |s| && w == s[..|w|]
    ensures forall c | c in w :: !IsBoundary(c)
    ensures |w| < |s| ==> IsBoundary(s[|w|])
  {
    if s == "" || IsBoundary(s[0]) then "" else [s[0]] + WordOf(s[1..])
  }

  /** The tokens of a text, without the final one. */
  function Tokens(s: string): seq<Token>
    decreases |s|
  {
    if s == "" then []
    else if IsSpecial(s[0]) then [SpecialToken(s[0])] + Tokens(s[1..])
    else if IsBoundary(s[0]) then Tokens(s[1..])
    else
      var w := WordOf(s);
      [Word(w)] + Tokens(s[|w|..])
  }

  function Lexed(s: string): seq<Token> {
    Tokens(s) + [End]
  }

  lemma WordGoesOn(s: string, i: nat, word: string)
    requires i < |s| && !IsBoundary(s[i])
    ensures word + WordOf(s[i..]) == word + [s[i]] + WordOf(s[i + 1..])
  {
    hide IsBoundary;
    assert s[i..][0] == s[i] && s[i..][1..] == s[i + 1..];
  }

  lemma WordEnds(s: string, i: nat)
    requires i <= |s| && (i < |s| ==> IsBoundary(s[i]))
    ensures WordOf(s[i..]) == ""
  {
    hide IsBoundary;
  }

  class Lexer {
    const source: string
    var pos: nat

    constructor (source: string)
      ensures this.source == source && pos == 0
    {
      this.source, this.pos := source, 0;
    }

    /** Reads the word at the current position and stops before the character that ends it. */
    method ReadWord() returns (word: string)
      requires pos <= |source|
      modifies this
      ensures word == WordOf(old(source[pos..])) && pos == old(pos) + |word| <= |source|
    {
      hide IsBoundary, WordOf;
      word := "";
      ghost var rest := source[pos..];
      while pos < |source| && !IsBoundary(source[pos])
        invariant pos == old(pos) + |word| <= |source|
        invariant WordOf(rest) == word + WordOf(source[pos..])
      {
        WordGoesOn(source, pos, word);
        word := word + [source[pos]];
        pos := pos + 1;
      }
      WordEnds(source, pos);
    }

    method Lex() returns (tokens: seq<Token>)
      modifies this
      ensures tokens == Lexed(source)
    {
      hide WordOf, IsSpecial, IsBoundary, SpecialToken;
      pos := 0;
      tokens := [];
      while pos < |source|
        invariant pos <= |source|
        invariant Tokens(source) == tokens + Tokens(source[pos..])
        decreases |source| - pos
      {
        var ch := source[pos];
        ghost var rest := source[pos..];
        assert rest[1..] == source[pos + 1..];
        if IsSpecial(ch) {
          pos := pos + 1;
          tokens := tokens + [SpecialToken(ch)];
        } else if IsBoundary(ch) {
          pos := pos + 1;
        } else {
          var word := ReadWord();
          assert rest[|word|..] == source[pos..];
          tokens := tokens + [Word(word)];
        }
      }
      tokens := tokens + [End];
    }
  }

  // ---- what the lexer keeps ---------------------------------------------------------------------

  /** The text of a token. */
  function Spelling(t: Token): string {
    match t
    case Word(w) => w
    case OpOr => "|"
    case OpNeg => "-"
    case Asterisk => "*"
    case LParen => "("
    case RParen => ")"
    case Colon => ":"
    case Quote => "\""
    case End => ""
  }

  function Spellings(ts: seq<Token>): string {
    if ts == [] then "" else Spelling(ts[0]) + Spellings(ts[1..])
  }

  /** The characters the lexer drops. */
  predicate Dropped(c: char) {
    IsSpace(c) || c in {'!', '<', '>'}
  }

  function Kept(s: string): string {
    if s == "" then "" else (if Dropped(s[0]) then "" else [s[0]]) + Kept(s[1..])
  }

  lemma {:induction false} SpellingsAppend(a: seq<Token>, b: seq<Token>)
    ensures Spellings(a + b) == Spellings(a) + Spellings(b)
  {
    if a == [] {
      assert a + b == b;
    } else {
      assert (a + b)[1..] == a[1..] + b;
      SpellingsAppend(a[1..], b);
    }
  }

  lemma {:induction false} KeptWord(w: string, s: string)
    requires forall c | c in w :: !IsBoundary(c)
    ensures Kept(w + s) == w + Kept(s)
  {
    if w == "" {
      assert w + s == s;
    } else {
      assert w[0] in w;
      assert (w + s)[1..] == w[1..] + s;
      KeptWord(w[1..], s);
    }
  }

  lemma OneCharacter(c: char)
    ensures IsSpecial(c) ==> Spelling(SpecialToken(c)) == [c] && !Dropped(c)
    ensures IsBoundary(c) && !IsSpecial(c) ==> Dropped(c)
  {
  }

  lemma {:induction false} TokensSpellKept(s: string)
    ensures Spellings(Tokens(s)) == Kept(s)
    decreases |s|
  {
    hide SpecialToken, Dropped, IsBoundary, IsSpecial;
    if s == "" {
    } else if IsSpecial(s[0]) || IsBoundary(s[0]) {
      OneCharacter(s[0]);
      TokensSpellKept(s[1..]);
    } else {
      var w := WordOf(s);
      assert w != "";
      TokensSpellKept(s[|w|..]);
      KeptWord(w, s[|w|..]);
      assert s == w + s[|w|..];
    }
  }

  /** Lexing drops spaces and the characters `!`, `<` and `>`, and nothing else. */
  lemma LexerKeepsTheText(s: string)
    ensures Spellings(Lexed(s)) == Kept(s)
  {
    TokensSpellKept(s);
    SpellingsAppend(Tokens(s), [End]);
    assert Spellings([End]) == "";
  }

  predicate IsToken(t: Token) {
    t != End && (t.Word? ==> IsWord(t.text))
  }

  /** The lexer yields tokens that end in the only `End`. */
  lemma {:induction false} LexedAreTokens(s: string)
    ensures forall i | 0 <= i < |Tokens(s)| :: IsToken(Tokens(s)[i])
    decreases |s|
  {
    if s == "" {
    } else if IsSpecial(s[0]) || IsBoundary(s[0]) {
      LexedAreTokens(s[1..]);
    } else {
      LexedAreTokens(s[|WordOf(s)|..]);
    }
  }

  // ---- from tokens to text and back -------------------------------------------------------------

  /** The tokens, each followed by a space. */
  function Spaced(ts: seq<Token>): string {
    if ts == [] then "" else Spelling(ts[0]) + " " + Spaced(ts[1..])
  }

  lemma {:induction false} WordOfWord(w: string, s: string)
    requires (forall c | c in w :: !IsBoundary(c)) && s != "" && IsBoundary(s[0])
    ensures WordOf(w + s) == w
  {
    if w == "" {
      assert w + s == s;
    } else {
      assert w[0] in w;
      assert (w + s)[1..] == w[1..] + s;
      WordOfWord(w[1..], s);
    }
  }

  /** Reading back what was written gives the same tokens. */
  lemma {:induction false} SpacedTokens(ts: seq<Token>)
    requires forall i | 0 <= i < |ts| :: IsToken(ts[i])
    ensures Tokens(Spaced(ts)) == ts
  {
    if ts != [] {
      var t := ts[0];
      var tail := " " + Spaced(ts[1..]);
      assert Spaced(ts) == Spelling(t) + tail;
      assert tail[0] == ' ' && tail[1..] == Spaced(ts[1..]);
      SpacedTokens(ts[1..]);
      assert Tokens(tail) == ts[1..];
      if t.Word? {
        WordOfWord(t.text, tail);
        assert (t.text + tail)[|t.text|..] == tail;
        assert t.text[0] in t.text;
      } else {
        assert Spaced(ts)[1..] == tail;
      }
      assert ts == [t] + ts[1..];
    }
  }
}
