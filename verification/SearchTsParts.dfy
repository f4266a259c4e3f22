/** What a word is made of in a tsquery: its parts between glue characters, and the converted key. */
module SearchTsParts {
  import opened SearchTree
  import opened SearchCharacters
  import opened SearchTsQuery

  /** The characters between which a word has its parts. */
  predicate Glues(c: char) {
    || c == '-' || c == '_' || c == '@' || c == '#' || c == '$' || c == '%' || c == '^' || c == '&'
  }

  predicate Blank(s: string) {
    forall c | c in s :: IsBlank(c)
  }

  /** The text with double quotes for single ones. */
  function Doubled(s: string): (r: string)
    ensures |r| == |s|
  {
    seq(|s|, i requires 0 <= i < |s| => if s[i] == '\'' then '"' else s[i])
  }

  lemma BlankMeans(c: char)
    ensures IsBlank(c) <==> IsSpace(c)
    ensures Glues(c) <==> IsGlue(c)
  {
  }

  lemma {:induction false} UnquotedIsDoubled(s: string)
    ensures Unquoted(s) == Doubled(s)
    decreases |s|
  {
    if s != "" {
      UnquotedIsDoubled(s[1..]);
    }
  }

  lemma {:induction false} SplitConcat(a: string, g: char, b: string)
    requires IsGlue(g)
    ensures SplitAtGlue(a + [g] + b) == SplitAtGlue(a) + SplitAtGlue(b)
    decreases |a|
  {
    hide IsGlue, Grown;
    var s := a + [g] + b;
    if a == "" {
      assert s[1..] == b && s[0] == g;
    } else {
      assert s[0] == a[0] && s[1..] == a[1..] + [g] + b;
      SplitConcat(a[1..], g, b);
      FirstGrows(a[0], SplitAtGlue(a[1..]), SplitAtGlue(b));
      SplitOnce(s);
      SplitOnce(a);
    }
  }

  /** How a character is put in front of what is split. */
  function Grown(c: char, parts: seq<string>): seq<string>
    requires parts != []
  {
    if IsGlue(c) then [""] + parts else [[c] + parts[0]] + parts[1..]
  }

  lemma SplitOnce(s: string)
    requires s != ""
    ensures SplitAtGlue(s) == Grown(s[0], SplitAtGlue(s[1..]))
  {
  }

  lemma FirstGrows(c: char, x: seq<string>, y: seq<string>)
    requires x != []
    ensures Grown(c, x + y) == Grown(c, x) + y
  {
    hide IsGlue;
    assert (x + y)[0] == x[0] && (x + y)[1..] == x[1..] + y;
  }

  lemma {:induction false} NonBlankConcat(a: seq<string>, b: seq<string>)
    ensures NonBlank(a + b) == NonBlank(a) + NonBlank(b)
    decreases |a|
  {
    hide LStripped, RStripped;
    if a == [] {
      assert a + b == b;
    } else {
      assert (a + b)[1..] == a[1..] + b;
      NonBlankConcat(a[1..], b);
    }
  }

  /** The parts on both sides of a glue character are the parts of the word. */
  lemma PartsAtGlue(a: string, g: char, b: string)
    requires Glues(g)
    ensures Parts(a + [g] + b) == Parts(a) + Parts(b)
  {
    hide SplitAtGlue, NonBlank;
    BlankMeans(g);
    UnquotedIsDoubled(a + [g] + b);
    UnquotedIsDoubled(a);
    UnquotedIsDoubled(b);
    assert Doubled(a + [g] + b) == Doubled(a) + [g] + Doubled(b);
    SplitConcat(Doubled(a), g, Doubled(b));
    NonBlankConcat(SplitAtGlue(Doubled(a)), SplitAtGlue(Doubled(b)));
  }

  lemma {:induction false} OnePart(s: string)
    requires forall c | c in s :: !IsGlue(c)
    ensures SplitAtGlue(s) == [s]
    decreases |s|
  {
    hide IsGlue;
    if s != "" {
      assert s[0] in s && forall c | c in s[1..] :: c in s;
      OnePart(s[1..]);
      assert s == [s[0]] + s[1..];
    }
  }

  lemma {:induction false} LeftStrip(l: string, core: string)
    requires (forall c | c in l :: IsSpace(c)) && (core != "" ==> !IsSpace(core[0]))
    ensures LStripped(l + core) == core
    decreases |l|
  {
    hide IsSpace;
    if l == "" {
      assert l + core == core;
    } else {
      assert l[0] in l && forall c | c in l[1..] :: c in l;
      assert (l + core)[1..] == l[1..] + core;
      LeftStrip(l[1..], core);
    }
  }

  lemma {:induction false} RightStrip(core: string, r: string)
    requires (forall c | c in r :: IsSpace(c)) && (core != "" ==> !IsSpace(core[|core| - 1]))
    ensures RStripped(core + r) == core
    decreases |r|
  {
    hide IsSpace;
    if r == "" {
      assert core + r == core;
    } else {
      var n := |r| - 1;
      assert r[n] in r && forall c | c in r[..n] :: c in r;
      assert (core + r)[..|core| + n] == core + r[..n];
      RightStrip(core, r[..n]);
    }
  }

  /** A text without glue is one part, without the white space around it and with its quotes doubled. */
  lemma PartOfText(l: string, core: string, r: string)
    requires Blank(l) && Blank(r) && core != "" && !IsBlank(core[0]) && !IsBlank(core[|core| - 1])
    requires forall c | c in core :: !Glues(c)
    ensures Parts(l + core + r) == [Doubled(core)]
  {
    hide IsBlank, IsSpace, IsGlue, Glues;
    forall c: char {
      BlankMeans(c);
    }
    BlankIsDoubled(l);
    BlankIsDoubled(r);
    var s := Doubled(l + core + r);
    assert s == l + (Doubled(core) + r);
    UnquotedIsDoubled(l + core + r);
    QuotesGlueNothing(l, core, r);
    OnePart(s);
    DoubledEnds(core);
    LeftStrip(l, Doubled(core) + r);
    RightStrip(Doubled(core), r);
    OneText(s, Doubled(core));
  }

  lemma OneText(s: string, core: string)
    requires RStripped(LStripped(s)) == core && core != ""
    ensures NonBlank([s]) == [core]
  {
    assert [s][1..] == [] && NonBlank([]) == [];
    assert [core] + [] == [core];
  }

  lemma BlankIsDoubled(s: string)
    requires Blank(s)
    ensures Doubled(s) == s
  {
    forall i | 0 <= i < |s|
      ensures Doubled(s)[i] == s[i]
    {
      assert s[i] in s;
    }
  }

  lemma DoubledEnds(core: string)
    requires core != "" && !IsSpace(core[0]) && !IsSpace(core[|core| - 1])
    ensures
      var d := Doubled(core);
      d != "" && !IsSpace(d[0]) && !IsSpace(d[|d| - 1])
  {
  }

  lemma QuotesGlueNothing(l: string, core: string, r: string)
    requires Blank(l) && Blank(r) && forall c | c in core :: !IsGlue(c)
    ensures forall c | c in Doubled(l + core + r) :: !IsGlue(c)
  {
    var s := l + core + r;
    forall c | c in Doubled(s)
      ensures !IsGlue(c)
    {
      var i :| 0 <= i < |s| && Doubled(s)[i] == c;
      assert s[i] in l || s[i] in core || s[i] in r;
    }
  }

  /** White space alone has no part. */
  lemma NoPart(s: string)
    requires Blank(s)
    ensures Parts(s) == []
  {
    hide IsBlank, IsSpace, IsGlue;
    forall c: char {
      BlankMeans(c);
    }
    BlankIsDoubled(s);
    UnquotedIsDoubled(s);
    QuotesGlueNothing(s, "", "");
    assert s + "" + "" == s;
    OnePart(s);
    LeftStrip(s, "");
    assert s + "" == s;
    assert [s][1..] == [] && NonBlank([]) == [];
  }
}
