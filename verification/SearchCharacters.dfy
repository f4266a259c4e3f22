/** The lexer character by character: which characters separate, and what a text between them is. */
module SearchCharacters {
  import opened SearchTree
  import opened SearchLexer

  /** White space, as Python's regular expressions have it. */
  predicate IsBlank(c: char) {
    || c == ' ' || c == '\t' || c == '\n' || c == '\r' || c as int in {11, 12, 28, 29, 30, 31, 0x85, 0xA0, 0x1680}
    || 0x2000 <= c as int <= 0x200A || c as int in {0x2028, 0x2029, 0x202F, 0x205F, 0x3000}
  }

  /** The characters that end a word. A dash, a dot or an underscore does not. */
  predicate Separates(c: char) {
    || c == '(' || c == ')' || c == '|' || c == '!' || c == ':' || c == '<' || c == '>' || c == '*' || c == '"'
    || IsBlank(c)
  }

  /** The token of a separating character; some have none. */
  function TokenOf(c: char): seq<Token> {
    if c == '(' then [LParen] else if c == ')' then [RParen] else if c == '|' then [OpOr]
    else if c == ':' then [Colon] else if c == '*' then [Asterisk] else if c == '"' then [Quote] else []
  }

  lemma SeparatesMeans(c: char)
    ensures Separates(c) <==> IsBoundary(c)
  {
  }

  lemma {:induction false} WholeWord(w: string)
    requires forall c | c in w :: !IsBoundary(c)
    ensures WordOf(w) == w
    decreases |w|
  {
    hide IsBoundary;
    if w != "" {
      assert w[0] in w && forall c | c in w[1..] :: c in w;
      WholeWord(w[1..]);
    }
  }

  /** A text without separators that does not begin with a dash is one word, dashes inside it included. */
  lemma PlainTextIsOneWord(w: string)
    requires w != "" && w[0] != '-' && forall c | c in w :: !Separates(c)
    ensures Lexed(w) == [Word(w), End]
  {
    hide IsBoundary, Separates;
    forall c | c in w
      ensures !IsBoundary(c)
    {
      SeparatesMeans(c);
    }
    WholeWord(w);
    NotSpecial(w[0]);
    assert w[0] in w && w[|w|..] == "";
    assert Tokens("") == [];
    assert Tokens(w) == [Word(w)] + Tokens(w[|w|..]);
  }

  lemma NotSpecial(c: char)
    requires c != '-' && !IsBoundary(c)
    ensures !IsSpecial(c)
  {
  }

  lemma {:induction false} WordBefore(a: string, c: char, b: string)
    requires IsBoundary(c)
    ensures WordOf(a + [c] + b) == WordOf(a)
    decreases |a|
  {
    hide IsBoundary;
    var s := a + [c] + b;
    if a != "" && !IsBoundary(a[0]) {
      assert s[1..] == a[1..] + [c] + b;
      WordBefore(a[1..], c, b);
    }
  }

  /** A text is split at every separator, and the separator is its token or nothing. */
  lemma {:induction false} SplitsAt(a: string, c: char, b: string)
    requires Separates(c)
    ensures Tokens(a + [c] + b) == Tokens(a) + TokenOf(c) + Tokens(b)
    decreases |a|
  {
    hide IsBoundary, WordOf, IsSpecial;
    SeparatesMeans(c);
    var s := a + [c] + b;
    if a == "" {
      assert s[1..] == b;
      SeparatorFirst(s, c);
    } else if IsSpecial(a[0]) || IsBoundary(a[0]) {
      assert s[1..] == a[1..] + [c] + b;
      SplitsAt(a[1..], c, b);
    } else {
      WordBefore(a, c, b);
      var w := WordOf(a);
      WordIsThere(a);
      assert s[|w|..] == a[|w|..] + [c] + b;
      SplitsAt(a[|w|..], c, b);
    }
  }

  lemma WordIsThere(a: string)
    requires a != "" && !IsBoundary(a[0])
    ensures 0 < |WordOf(a)| <= |a|
  {
  }

  lemma TokenOfIs(c: char)
    requires Separates(c)
    ensures IsBoundary(c) && TokenOf(c) == if IsSpecial(c) then [SpecialToken(c)] else []
  {
  }

  lemma SeparatorFirst(s: string, c: char)
    requires s != "" && s[0] == c && Separates(c)
    ensures Tokens(s) == TokenOf(c) + Tokens(s[1..])
  {
    TokenOfIs(c);
    hide WordOf, IsSpecial, IsBoundary, TokenOf, Separates, SpecialToken;
    assert [] + Tokens(s[1..]) == Tokens(s[1..]);
  }

  /** A dash at the beginning of a word negates it. */
  lemma DashNegates(s: string)
    ensures Tokens("-" + s) == [OpNeg] + Tokens(s)
  {
    assert ("-" + s)[1..] == s;
  }

  /** Whatever the text is: only the last token is `End`, and every word has a character, does not begin with a dash
      and has no separator in it. */
  lemma LexedWords(s: string, i: nat)
    requires i < |Lexed(s)|
    ensures Lexed(s)[i] == End <==> i == |Lexed(s)| - 1
    ensures
      var t := Lexed(s)[i];
      t.Word? ==> t.text != "" && t.text[0] != '-' && forall c | c in t.text :: !Separates(c)
  {
    hide Separates, IsBoundary;
    LexedAreTokens(s);
    forall c: char {
      SeparatesMeans(c);
    }
  }
}
