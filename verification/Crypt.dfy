/** The reversible encoding of device secrets: characters become gaps in an alphabet. */
module Crypt {
  import opened Wrappers

  const MAGIC := "$9$"
  const FAMILY: seq<string> := ["QzF3n6/9CAtpu0O", "B1IREhcSyrleKvMW8LXx", "7N-dVbwsY2g4oaJZGUDj", "iHkq.mPf5T"]
  const NUM_ALPHA: string := FAMILY[0] + FAMILY[1] + FAMILY[2] + FAMILY[3]
  const ENCODING: seq<seq<nat>> :=
    [[1, 4, 32], [1, 16, 32], [1, 8, 32], [1, 64], [1, 32], [1, 4, 16, 128], [1, 32, 64]]

  /** The place of a character in the alphabet. */
  function Place(c: char): int {
    match c
    case 'Q' => 0 case 'z' => 1 case 'F' => 2 case '3' => 3 case 'n' => 4 case '6' => 5 case '/' => 6
    case '9' => 7 case 'C' => 8 case 'A' => 9 case 't' => 10 case 'p' => 11 case 'u' => 12 case '0' => 13
    case 'O' => 14 case 'B' => 15 case '1' => 16 case 'I' => 17 case 'R' => 18 case 'E' => 19 case 'h' => 20
    case 'c' => 21 case 'S' => 22 case 'y' => 23 case 'r' => 24 case 'l' => 25 case 'e' => 26 case 'K' => 27
    case 'v' => 28 case 'M' => 29 case 'W' => 30 case '8' => 31 case 'L' => 32 case 'X' => 33 case 'x' => 34
    case '7' => 35 case 'N' => 36 case '-' => 37 case 'd' => 38 case 'V' => 39 case 'b' => 40 case 'w' => 41
    case 's' => 42 case 'Y' => 43 case '2' => 44 case 'g' => 45 case '4' => 46 case 'o' => 47 case 'a' => 48
    case 'J' => 49 case 'Z' => 50 case 'G' => 51 case 'U' => 52 case 'D' => 53 case 'j' => 54 case 'i' => 55
    case 'H' => 56 case 'k' => 57 case 'q' => 58 case '.' => 59 case 'm' => 60 case 'P' => 61 case 'f' => 62
    case '5' => 63 case 'T' => 64
    case _ => -1
  }

  predicate InAlphabet(c: char) {
    0 <= Place(c)
  }

  lemma Family0()
    ensures |FAMILY[0]| == 15 && forall i | 0 <= i < 15 :: Place(FAMILY[0][i]) == 0 + i
  {
  }

  lemma Family1()
    ensures |FAMILY[1]| == 20 && forall i | 0 <= i < 20 :: Place(FAMILY[1][i]) == 15 + i
  {
  }

  lemma Family2()
    ensures |FAMILY[2]| == 20 && forall i | 0 <= i < 20 :: Place(FAMILY[2][i]) == 35 + i
  {
  }

  lemma Family3()
    ensures |FAMILY[3]| == 10 && forall i | 0 <= i < 10 :: Place(FAMILY[3][i]) == 55 + i
  {
  }

  /** The alphabet has 65 characters, all different. */
  lemma Alphabet()
    ensures |NUM_ALPHA| == 65 && forall i | 0 <= i < 65 :: Place(NUM_ALPHA[i]) == i
  {
    hide Place;
    Family0();
    Family1();
    Family2();
    Family3();
  }

  lemma PlacedInFamily0(c: char)
    requires 0 <= Place(c) < 15
    ensures FAMILY[0][Place(c) - 0] == c
  {
  }

  lemma PlacedInFamily1(c: char)
    requires 15 <= Place(c) < 35
    ensures FAMILY[1][Place(c) - 15] == c
  {
  }

  lemma PlacedInFamily2(c: char)
    requires 35 <= Place(c) < 55
    ensures FAMILY[2][Place(c) - 35] == c
  {
  }

  lemma PlacedInFamily3(c: char)
    requires 55 <= Place(c) < 65
    ensures FAMILY[3][Place(c) - 55] == c
  {
  }

  lemma PlaceBound(c: char)
    ensures Place(c) < 65
  {
  }

  lemma PlaceInAlphabet(c: char)
    requires InAlphabet(c)
    ensures |NUM_ALPHA| == 65 && Place(c) < 65 && NUM_ALPHA[Place(c)] == c
  {
    hide Place;
    Alphabet();
    PlaceBound(c);
    var i := Place(c);
    if i < 15 {
      PlacedInFamily0(c);
    } else if i < 35 {
      PlacedInFamily1(c);
    } else if i < 55 {
      PlacedInFamily2(c);
    } else {
      PlacedInFamily3(c);
    }
  }

  /** How much filler follows a salt. */
  function Extra(c: char): nat
    requires InAlphabet(c)
  {
    var i := Place(c);
    if i < 15 then 3 else if i < 35 then 2 else if i < 55 then 1 else 0
  }

  // ---- encoding -----------------------------------------------------------------------------------

  /** How often each weight goes into a number, the greatest first. */
  function Gaps(x: nat, weights: seq<nat>): (r: seq<nat>)
    requires forall w | w in weights :: w > 0
    ensures |r| == |weights|
  {
    if weights == [] then []
    else
      var n := |weights| - 1;
      assert weights[n] in weights && forall w | w in weights[..n] :: w in weights;
      Gaps(x % weights[n], weights[..n]) + [x / weights[n]]
  }

  /** The character a gap further on. */
  function Next(prev: char, gap: nat): char
    requires InAlphabet(prev)
  {
    PlaceInAlphabet(prev);
    NUM_ALPHA[(gap + Place(prev) + 1) % 65]
  }

  lemma NextPlace(prev: char, gap: nat)
    requires InAlphabet(prev)
    ensures InAlphabet(Next(prev, gap)) && Place(Next(prev, gap)) == (gap + Place(prev) + 1) % 65
  {
    hide Place;
    Alphabet();
    PlaceInAlphabet(prev);
  }

  function Chain(gaps: seq<nat>, prev: char): (r: string)
    requires InAlphabet(prev)
    ensures |r| == |gaps| && forall c | c in r :: InAlphabet(c)
  {
    if gaps == [] then ""
    else
      NextPlace(prev, gaps[0]);
      [Next(prev, gaps[0])] + Chain(gaps[1..], Next(prev, gaps[0]))
  }

  function Weights(pos: nat): (r: seq<nat>)
    ensures |r| > 0 && forall w | w in r :: w > 0
  {
    ENCODING[pos % 7]
  }

  function Encoded(plain: string, pos: nat, prev: char): (r: string)
    requires InAlphabet(prev)
    decreases plain
  {
    if plain == "" then ""
    else
      var part := Chain(Gaps(plain[0] as nat, Weights(pos)), prev);
      assert part[|part| - 1] in part;
      part + Encoded(plain[1..], pos + 1, part[|part| - 1])
  }

  function Encrypted(plain: string, salt: char, filler: string): string
    requires InAlphabet(salt)
  {
    MAGIC + [salt] + filler + Encoded(plain, 0, salt)
  }

  // ---- decoding -----------------------------------------------------------------------------------

  function Gap(c1: char, c2: char): int {
    (Place(c2) - Place(c1)) % 65 - 1
  }

  function GapsOf(nibble: string, prev: char): (r: seq<int>)
    ensures |r| == |nibble|
  {
    if nibble == "" then [] else [Gap(prev, nibble[0])] + GapsOf(nibble[1..], nibble[0])
  }

  function Sum(gaps: seq<int>, weights: seq<nat>): int
    requires |gaps| == |weights|
  {
    if gaps == [] then 0
    else
      var n := |gaps| - 1;
      Sum(gaps[..n], weights[..n]) + gaps[n] * weights[n]
  }

  /** Nothing when characters are missing or not of the alphabet: an exception is raised. */
  function Decoded(chars: string, pos: nat, prev: char): Option<string>
    decreases |chars|
  {
    if chars == "" then Some("")
    else
      var weights := Weights(pos);
      if |chars| < |weights| then None
      else
        var nibble := chars[..|weights|];
        if exists c | c in nibble :: !InAlphabet(c) then None
        else
          var rest := Decoded(chars[|weights|..], pos + 1, nibble[|nibble| - 1]);
          if rest.None? then None
          else Some([(Sum(GapsOf(nibble, prev), weights) % 256) as char] + rest.value)
  }

  datatype Decrypted = Refused | Raises | Text(text: string)

  /** The characters of the pattern for a first character; in it, `N-d` is a range. */
  predicate CanBeFirst(c: char) {
    c == '$' || (InAlphabet(c) && c != '-') || 'N' <= c <= 'd'
  }

  function Decryption(crypt: string): Decrypted {
    if crypt == "" || !CanBeFirst(crypt[0]) then Refused
    else if |crypt| < 4 || crypt[..3] != MAGIC || !InAlphabet(crypt[3]) then Raises
    else
      var chars := crypt[4..];
      var skip := if Extra(crypt[3]) <= |chars| then Extra(crypt[3]) else |chars|;
      match Decoded(chars[skip..], 0, crypt[3])
      case None => Raises
      case Some(s) => Text(s)
  }

  // ---- decoding undoes encoding -------------------------------------------------------------------

  lemma ModDifference(a: int, b: int)
    ensures ((a + b) % 65 - b) % 65 == a % 65
  {
    var k := (a + b) / 65;
    assert (a + b) % 65 == a + b - 65 * k;
    assert (a - 65 * k) % 65 == a % 65;
  }

  /** The gap that is read: one less than the gap plus one, modulo the size of the alphabet. */
  lemma GapRead(prev: char, gap: nat)
    requires InAlphabet(prev)
    ensures Gap(prev, Next(prev, gap)) == (gap + 1) % 65 - 1
  {
    hide Place, InAlphabet, Next, NUM_ALPHA;
    NextPlace(prev, gap);
    ModDifference(gap + 1, Place(prev));
  }

  function Wrapped(gaps: seq<nat>): (r: seq<int>)
    ensures |r| == |gaps|
  {
    if gaps == [] then [] else [(gaps[0] + 1) % 65 - 1] + Wrapped(gaps[1..])
  }

  lemma {:induction false} ChainRead(gaps: seq<nat>, prev: char)
    requires InAlphabet(prev)
    ensures GapsOf(Chain(gaps, prev), prev) == Wrapped(gaps)
    decreases |gaps|
  {
    hide Gap, Next, Place, InAlphabet, NUM_ALPHA;
    if gaps != [] {
      NextPlace(prev, gaps[0]);
      GapRead(prev, gaps[0]);
      ChainRead(gaps[1..], Next(prev, gaps[0]));
      assert Chain(gaps, prev)[1..] == Chain(gaps[1..], Next(prev, gaps[0]));
    }
  }

  lemma {:induction false} SmallStay(gaps: seq<nat>)
    requires forall g | g in gaps :: g <= 63
    ensures Wrapped(gaps) == gaps
    decreases |gaps|
  {
    if gaps != [] {
      assert gaps[0] in gaps && forall g | g in gaps[1..] :: g in gaps;
      SmallStay(gaps[1..]);
    }
  }

  /** The least weight is 1, and each other is at most 64 times the one before it. */
  predicate Fine(weights: seq<nat>) {
    && weights != [] && weights[0] == 1
    && (forall w | w in weights :: w > 0)
    && (forall i | 0 < i < |weights| :: weights[i] <= 64 * weights[i - 1])
  }

  lemma DivisionBounds(x: nat, m: nat)
    requires m > 0
    ensures x == (x / m) * m + x % m && x % m < m
    ensures x < 64 * m ==> x / m <= 63
  {
    if x / m >= 64 {
      assert (x / m) * m >= 64 * m;
    }
  }

  lemma SumLast(gaps: seq<int>, g: int, weights: seq<nat>)
    requires |weights| == |gaps| + 1
    ensures Sum(gaps + [g], weights) == Sum(gaps, weights[..|gaps|]) + g * weights[|gaps|]
  {
    assert (gaps + [g])[..|gaps|] == gaps;
  }

  lemma NoGaps(weights: seq<nat>)
    requires weights == []
    ensures Gaps(0, weights) == [] && Sum([], weights) == 0
  {
  }

  lemma GapsLast(x: nat, weights: seq<nat>)
    requires Fine(weights)
    ensures var n := |weights| - 1;
      && weights[n] > 0 && (forall w | w in weights[..n] :: w in weights)
      && Gaps(x, weights) == Gaps(x % weights[n], weights[..n]) + [x / weights[n]]
  {
    assert weights[|weights| - 1] in weights;
  }

  /** The greedy split is exact, and every part is below 64. */
  lemma {:induction false} SplitIsExact(x: nat, weights: seq<nat>)
    requires Fine(weights) && x < 64 * weights[|weights| - 1]
    ensures Sum(Gaps(x, weights), weights) == x
    ensures forall g | g in Gaps(x, weights) :: g <= 63
    decreases |weights|
  {
    var n := |weights| - 1;
    var m, rest := weights[n], weights[..n];
    GapsLast(x, weights);
    hide Sum, Gaps;
    DivisionBounds(x, m);
    SumLast(Gaps(x % m, rest), x / m, weights);
    if n == 0 {
      NoGaps(rest);
    } else {
      SplitIsExact(x % m, rest);
    }
  }

  lemma WeightsFine(pos: nat)
    ensures Fine(Weights(pos)) && 256 <= 64 * Weights(pos)[|Weights(pos)| - 1]
  {
    var i := pos % 7;
    assert i == 0 || i == 1 || i == 2 || i == 3 || i == 4 || i == 5 || i == 6;
  }

  /** The character that is decoded for an encoded one. */
  function Reread(c: char, pos: nat): char {
    (Sum(Wrapped(Gaps(c as nat, Weights(pos))), Weights(pos)) % 256) as char
  }

  lemma RereadIsSame(c: char, pos: nat)
    ensures Reread(c, pos) == c <==> c as nat < 256
  {
    hide Weights, Fine, Gaps, Sum, Wrapped;
    if c as nat < 256 {
      WeightsFine(pos);
      SplitIsExact(c as nat, Weights(pos));
      SmallStay(Gaps(c as nat, Weights(pos)));
    }
  }

  function RereadAll(plain: string, pos: nat): (r: string)
    ensures |r| == |plain|
    decreases plain
  {
    if plain == "" then "" else [Reread(plain[0], pos)] + RereadAll(plain[1..], pos + 1)
  }

  lemma {:induction false} DecodedIsReread(plain: string, pos: nat, prev: char)
    requires InAlphabet(prev)
    ensures Decoded(Encoded(plain, pos, prev), pos, prev) == Some(RereadAll(plain, pos))
    decreases |plain|
  {
    hide InAlphabet, Gaps, Chain, GapsOf, Sum, Wrapped, Weights;
    if plain != "" {
      var weights := Weights(pos);
      var gaps := Gaps(plain[0] as nat, weights);
      var part := Chain(gaps, prev);
      assert part[|part| - 1] in part;
      var last := part[|part| - 1];
      var rest := Encoded(plain[1..], pos + 1, last);
      assert (part + rest)[..|weights|] == part && (part + rest)[|weights|..] == rest;
      ChainRead(gaps, prev);
      DecodedIsReread(plain[1..], pos + 1, last);
    }
  }

  /** Characters that fit a byte. */
  predicate IsLatin(s: string) {
    s == "" || (s[0] as nat < 256 && IsLatin(s[1..]))
  }

  lemma {:induction false} RereadAllIsSame(plain: string, pos: nat)
    ensures RereadAll(plain, pos) == plain <==> IsLatin(plain)
    decreases |plain|
  {
    hide Reread;
    if plain != "" {
      RereadIsSame(plain[0], pos);
      RereadAllIsSame(plain[1..], pos + 1);
      var all := RereadAll(plain, pos);
      assert all[0] == Reread(plain[0], pos) && all[1..] == RereadAll(plain[1..], pos + 1);
      assert plain == [plain[0]] + plain[1..] && all == [all[0]] + all[1..];
    }
  }

  lemma {:induction false} LatinMeans(s: string)
    ensures IsLatin(s) <==> forall c | c in s :: c as nat < 256
    decreases |s|
  {
    if s != "" {
      LatinMeans(s[1..]);
      assert s == [s[0]] + s[1..] && s[0] in s;
      if IsLatin(s) {
        forall c | c in s
          ensures c as nat < 256
        {
          assert c == s[0] || c in s[1..];
        }
      } else if s[0] as nat < 256 {
        var c :| c in s[1..] && c as nat >= 256;
        assert c in s;
      }
    }
  }

  lemma DecryptsAsReread(plain: string, salt: char, filler: string)
    requires InAlphabet(salt) && |filler| == Extra(salt)
    ensures Decryption(Encrypted(plain, salt, filler)) == Text(RereadAll(plain, 0))
  {
    hide InAlphabet, Extra, Encoded, Decoded, RereadAll;
    var crypt, code := Encrypted(plain, salt, filler), Encoded(plain, 0, salt);
    assert crypt[0] == '$' && crypt[..3] == MAGIC && crypt[3] == salt;
    assert crypt[4..] == filler + code && (filler + code)[|filler|..] == code;
    DecodedIsReread(plain, 0, salt);
  }

  /** Main theorem: whatever the salt and the filler, decryption gives a text of the same length, and it is
      the text that was encrypted exactly when all its characters are below 256. */
  lemma DecryptsWhatWasEncrypted(plain: string, salt: char, filler: string)
    requires InAlphabet(salt) && |filler| == Extra(salt)
    ensures var d := Decryption(Encrypted(plain, salt, filler));
      && d.Text? && |d.text| == |plain|
      && (d.text == plain <==> forall c | c in plain :: c as nat < 256)
  {
    hide InAlphabet, Extra, Encoded, Decoded, RereadAll;
    DecryptsAsReread(plain, salt, filler);
    RereadAllIsSame(plain, 0);
    LatinMeans(plain);
  }

  const WIDE: char := 256 as char

  lemma WideIsReread()
    ensures Reread(WIDE, 0) == 0 as char
  {
    hide Wrapped;
    var none: seq<nat> := [];
    var weights: seq<nat> := [1, 4, 32];
    assert weights[..2] == [1, 4] && [1, 4][..1] == [1] && [1][..0] == none;
    assert Weights(0) == weights;
    assert Gaps(0, [1]) == Gaps(0, none) + [0];
    assert Gaps(0, [1, 4]) == [0, 0];
    assert Gaps(256, weights) == [0, 0, 8];
    SmallStay([0, 0, 8]);
    SplitIsExact(256, weights);
  }

  /** The first character that does not fit: it comes back as the character of code 0. */
  lemma WideIsLost(filler: string)
    requires |filler| == Extra('Q')
    ensures Decryption(Encrypted([WIDE], 'Q', filler)) == Text([0 as char])
  {
    hide Extra, Encoded, Decoded, RereadAll;
    DecryptsAsReread([WIDE], 'Q', filler);
    RereadOne(WIDE);
    WideIsReread();
  }

  lemma RereadOne(c: char)
    ensures RereadAll([c], 0) == [Reread(c, 0)]
  {
    hide Reread;
    assert [c][1..] == "";
    assert RereadAll("", 1) == "";
  }

  // ---- the format, written out --------------------------------------------------------------------

  lemma AlphabetIs()
    ensures |NUM_ALPHA| == 65
    ensures NUM_ALPHA[..15] == "QzF3n6/9CAtpu0O" && NUM_ALPHA[15..35] == "B1IREhcSyrleKvMW8LXx"
    ensures NUM_ALPHA[35..55] == "7N-dVbwsY2g4oaJZGUDj" && NUM_ALPHA[55..] == "iHkq.mPf5T"
  {
    Family0();
    Family1();
    Family2();
    Family3();
    assert NUM_ALPHA[15..35] == FAMILY[1] && NUM_ALPHA[35..55] == FAMILY[2] && NUM_ALPHA[55..] == FAMILY[3];
  }

  lemma PlacedIsListed(c: char)
    ensures InAlphabet(c) <==> c in NUM_ALPHA
  {
    hide Place;
    Alphabet();
    if InAlphabet(c) {
      PlaceInAlphabet(c);
    }
  }

  /** A text is refused exactly when it is empty or does not begin with a character of the pattern: the dollar sign,
      a character of the alphabet but the dash, or one of the range that the dash makes. All that is decrypted
      begins with the magic text and a character of the alphabet. */
  lemma RefusedIs(crypt: string)
    ensures Decryption(crypt).Refused? <==>
      crypt == "" || !(crypt[0] == '$' || (crypt[0] in NUM_ALPHA && crypt[0] != '-') || 'N' <= crypt[0] <= 'd')
    ensures Decryption(crypt).Text? ==> 4 <= |crypt| && crypt[..3] == "$9$" && crypt[3] in NUM_ALPHA
  {
    hide Place, InAlphabet, NUM_ALPHA, Decoded, Extra;
    if crypt != "" {
      PlacedIsListed(crypt[0]);
    }
    if 4 <= |crypt| {
      PlacedIsListed(crypt[3]);
    }
  }

  /** The gaps of a character are digits of its code, in a base that depends on its position: the seventh
      character has digits of another base than the first. */
  function Digits(x: nat, pos: nat): seq<nat> {
    match pos % 7
    case 0 => [x % 32 % 4, x % 32 / 4, x / 32]
    case 1 => [x % 32 % 16, x % 32 / 16, x / 32]
    case 2 => [x % 32 % 8, x % 32 / 8, x / 32]
    case 3 => [x % 64, x / 64]
    case 4 => [x % 32, x / 32]
    case 5 => [x % 128 % 16 % 4, x % 128 % 16 / 4, x % 128 / 16, x / 128]
    case _ => [x % 64 % 32, x % 64 / 32, x / 64]
  }

  lemma GapsOfOne(x: nat)
    ensures Gaps(x, [1]) == [x]
  {
    var none: seq<nat> := [];
    assert [1][..0] == none;
    assert Gaps(x % 1, none) == [] && x / 1 == x;
  }

  lemma GapsOfTwo(x: nat, b: nat)
    requires b > 0
    ensures Gaps(x, [1, b]) == [x % b, x / b]
  {
    GapsOfOne(x % b);
    assert [1, b][..1] == [1] && [1, b][1] == b;
    assert Gaps(x, [1, b]) == Gaps(x % b, [1]) + [x / b];
  }

  lemma GapsOfThree(x: nat, b: nat, c: nat)
    requires b > 0 && c > 0
    ensures Gaps(x, [1, b, c]) == [x % c % b, x % c / b, x / c]
  {
    GapsOfTwo(x % c, b);
    assert [1, b, c][..2] == [1, b];
  }

  lemma GapsOfFour(x: nat)
    ensures Gaps(x, [1, 4, 16, 128]) == [x % 128 % 16 % 4, x % 128 % 16 / 4, x % 128 / 16, x / 128]
  {
    GapsOfThree(x % 128, 4, 16);
    assert [1, 4, 16, 128][..3] == [1, 4, 16];
  }

  lemma GapsAreDigits(x: nat, pos: nat)
    ensures Gaps(x, Weights(pos)) == Digits(x, pos)
  {
    hide Gaps;
    GapsOfFour(x);
    match pos % 7
    case 0 => GapsOfThree(x, 4, 32);
    case 1 => GapsOfThree(x, 16, 32);
    case 2 => GapsOfThree(x, 8, 32);
    case 3 => GapsOfTwo(x, 64);
    case 4 => GapsOfTwo(x, 32);
    case 5 =>
    case _ => GapsOfThree(x, 32, 64);
  }

  /** A text is encrypted as the prefix, the salt, the filler and then, for each character, its digits as steps
      through the alphabet, each one place further than the digit says. */
  lemma EncryptedIs(plain: string, salt: char, filler: string)
    requires InAlphabet(salt)
    ensures Encrypted(plain, salt, filler) == "$9$" + [salt] + filler + Encoded(plain, 0, salt)
  {
  }

  lemma {:induction false} EncodedIs(plain: string, pos: nat, prev: char)
    requires InAlphabet(prev)
    ensures Encoded("", pos, prev) == ""
    ensures plain != "" ==>
      var part := Chain(Digits(plain[0] as nat, pos), prev);
      |part| > 0 && InAlphabet(part[|part| - 1])
      && Encoded(plain, pos, prev) == part + Encoded(plain[1..], pos + 1, part[|part| - 1])
  {
    hide Chain, Gaps, Digits, Weights;
    if plain != "" {
      GapsAreDigits(plain[0] as nat, pos);
      var part := Chain(Digits(plain[0] as nat, pos), prev);
      assert part[|part| - 1] in part;
    }
  }

  lemma {:induction false} ChainIs(gaps: seq<nat>, prev: char, i: nat)
    requires InAlphabet(prev) && i < |gaps|
    ensures
      var from := if i == 0 then prev else Chain(gaps, prev)[i - 1];
      Place(Chain(gaps, prev)[i]) == (Place(from) + gaps[i] + 1) % 65
    decreases |gaps|
  {
    hide Place, InAlphabet, Next;
    NextPlace(prev, gaps[0]);
    if i > 0 {
      ChainIs(gaps[1..], Next(prev, gaps[0]), i - 1);
    }
  }

  // ---- the loops ----------------------------------------------------------------------------------

  /** One more gap is encoded. */
  lemma ChainStep(gaps: seq<nat>, i: nat, last: char, crypt: string)
    requires InAlphabet(last) && i < |gaps|
    ensures InAlphabet(Next(last, gaps[i]))
    ensures crypt + Chain(gaps[i..], last) == crypt + [Next(last, gaps[i])] + Chain(gaps[i + 1..], Next(last, gaps[i]))
  {
    hide Place;
    NextPlace(last, gaps[i]);
    assert gaps[i..][0] == gaps[i] && gaps[i..][1..] == gaps[i + 1..];
  }

  lemma NothingEncoded(plain: string, prev: char)
    requires InAlphabet(prev)
    ensures Encoded(plain[|plain|..], |plain|, prev) == ""
  {
    hide InAlphabet, NUM_ALPHA;
  }

  lemma NothingDecoded(pos: nat, prev: char)
    ensures Decoded("", pos, prev) == Some("")
  {
  }

  /** One more character is encoded. */
  lemma EncodedStep(plain: string, i: nat, prev: char, crypt: string)
    requires InAlphabet(prev) && i < |plain|
    ensures var part := Chain(Gaps(plain[i] as nat, Weights(i)), prev);
      && part != "" && InAlphabet(part[|part| - 1])
      && crypt + Encoded(plain[i..], i, prev) == crypt + part + Encoded(plain[i + 1..], i + 1, part[|part| - 1])
  {
    hide InAlphabet, Gaps, Weights, Chain;
    var part := Chain(Gaps(plain[i] as nat, Weights(i)), prev);
    assert part[|part| - 1] in part;
    assert plain[i..][0] == plain[i] && plain[i..][1..] == plain[i + 1..];
  }

  function WithText(text: string, r: Option<string>): Option<string> {
    if r.Some? then Some(text + r.value) else None
  }

  /** One more character is decoded. */
  lemma DecodedStep(chars: string, pos: nat, prev: char, text: string)
    requires chars != ""
    ensures var n := |Weights(pos)|;
      WithText(text, Decoded(chars, pos, prev)) ==
        if |chars| < n || exists c | c in chars[..n] :: !InAlphabet(c) then None
        else
          var c := (Sum(GapsOf(chars[..n], prev), Weights(pos)) % 256) as char;
          WithText(text + [c], Decoded(chars[n..], pos + 1, chars[n - 1]))
  {
    hide Weights, GapsOf, Sum, InAlphabet;
    var n := |Weights(pos)|;
    if n <= |chars| && !exists c | c in chars[..n] :: !InAlphabet(c) {
      var c := (Sum(GapsOf(chars[..n], prev), Weights(pos)) % 256) as char;
      var rest := Decoded(chars[n..], pos + 1, chars[n - 1]);
      if rest.Some? {
        assert text + ([c] + rest.value) == (text + [c]) + rest.value;
      }
    }
  }

  /** The places of the characters. */
  method Enumerate() returns (alphaNum: map<char, nat>)
    ensures forall c :: c in alphaNum <==> InAlphabet(c)
    ensures forall c | InAlphabet(c) :: alphaNum[c] == Place(c)
  {
    hide Place, NUM_ALPHA, FAMILY;
    Alphabet();
    alphaNum := map[];
    for i := 0 to |NUM_ALPHA|
      invariant forall c :: c in alphaNum <==> c in NUM_ALPHA[..i]
      invariant forall c | c in alphaNum :: alphaNum[c] == Place(c)
    {
      assert NUM_ALPHA[..i + 1] == NUM_ALPHA[..i] + [NUM_ALPHA[i]];
      alphaNum := alphaNum[NUM_ALPHA[i] := i];
    }
    assert NUM_ALPHA[..|NUM_ALPHA|] == NUM_ALPHA;
    forall c | InAlphabet(c)
      ensures c in NUM_ALPHA
    {
      PlaceInAlphabet(c);
    }
  }

  lemma FamilyExtra(k: nat, c: char)
    requires k < 4 && c in FAMILY[k]
    ensures InAlphabet(c) && Extra(c) == 3 - k
  {
    hide Place;
    Family0();
    Family1();
    Family2();
    Family3();
    var i :| 0 <= i < |FAMILY[k]| && FAMILY[k][i] == c;
  }

  lemma FourFamilies()
    ensures |FAMILY| == 4
  {
  }

  /** How much filler follows each character. */
  method Extras() returns (extra: map<char, nat>)
    ensures forall c :: c in extra <==> InAlphabet(c)
    ensures forall c | InAlphabet(c) :: extra[c] == Extra(c)
  {
    hide Place, Extra, FAMILY, InAlphabet;
    FourFamilies();
    extra := map[];
    for k := 0 to |FAMILY|
      invariant forall c | c in extra :: InAlphabet(c) && extra[c] == Extra(c)
      invariant forall j, c | 0 <= j < k && c in FAMILY[j] :: c in extra
    {
      for i := 0 to |FAMILY[k]|
        invariant forall c | c in extra :: InAlphabet(c) && extra[c] == Extra(c)
        invariant forall j, c | 0 <= j < k && c in FAMILY[j] :: c in extra
        invariant forall c | c in FAMILY[k][..i] :: c in extra
      {
        FamilyExtra(k, FAMILY[k][i]);
        assert FAMILY[k][..i + 1] == FAMILY[k][..i] + [FAMILY[k][i]];
        extra := extra[FAMILY[k][i] := 3 - k];
      }
      assert FAMILY[k][..|FAMILY[k]|] == FAMILY[k];
    }
    forall c | InAlphabet(c)
      ensures c in extra
    {
      InSomeFamily(c);
    }
  }

  lemma InSomeFamily(c: char)
    requires InAlphabet(c)
    ensures c in FAMILY[0] || c in FAMILY[1] || c in FAMILY[2] || c in FAMILY[3]
  {
    hide FAMILY, Place;
    FourFamilies();
    PlaceInAlphabet(c);
    var i := Place(c);
    assert NUM_ALPHA[i] in FAMILY[0] + FAMILY[1] + FAMILY[2] + FAMILY[3];
  }

  predicate AllPlaced(s: string) {
    forall c | c in s :: InAlphabet(c)
  }

  lemma NoneToPlace(nibble: string, prev: char)
    ensures AllPlaced(nibble[..0]) && GapsOf(nibble, prev) == [] + GapsOf(nibble[0..], prev)
  {
    hide GapsOf;
    assert nibble[0..] == nibble;
  }

  lemma OneMorePlaced(nibble: string, i: nat)
    requires i < |nibble| && AllPlaced(nibble[..i])
    ensures if InAlphabet(nibble[i]) then AllPlaced(nibble[..i + 1]) else exists c :: c in nibble && !InAlphabet(c)
  {
    hide InAlphabet;
    assert nibble[i] in nibble && nibble[..i + 1] == nibble[..i] + [nibble[i]];
  }

  lemma GapsGoOn(nibble: string, i: nat, last: char, gaps: seq<int>)
    requires i < |nibble|
    ensures gaps + GapsOf(nibble[i..], last) == gaps + [Gap(last, nibble[i])] + GapsOf(nibble[i + 1..], nibble[i])
  {
    hide Gap;
    assert nibble[i..][0] == nibble[i] && nibble[i..][1..] == nibble[i + 1..];
  }

  lemma AllArePlaced(nibble: string, last: char, gaps: seq<int>)
    requires AllPlaced(nibble[..|nibble|])
    ensures !exists c :: c in nibble && !InAlphabet(c)
    ensures gaps + GapsOf(nibble[|nibble|..], last) == gaps
  {
    hide InAlphabet;
    assert nibble[..|nibble|] == nibble && gaps + [] == gaps;
  }

  class Cryptic {
    var alphaNum: map<char, nat>
    var extra: map<char, nat>

    ghost predicate Valid()
      reads this
    {
      && (forall c :: c in alphaNum <==> InAlphabet(c))
      && (forall c | InAlphabet(c) :: alphaNum[c] == Place(c))
      && (forall c :: c in extra <==> InAlphabet(c))
      && (forall c | InAlphabet(c) :: extra[c] == Extra(c))
    }

    constructor ()
      ensures Valid()
    {
      hide InAlphabet, Place, Extra;
      alphaNum := map[];
      extra := map[];
      new;
      alphaNum := Enumerate();
      extra := Extras();
    }

    method SplitGaps(x: nat, enc: seq<nat>) returns (gaps: seq<nat>)
      requires forall w | w in enc :: w > 0
      ensures gaps == Gaps(x, enc)
    {
      var literal := x;
      gaps := [];
      var n := |enc|;
      assert enc[..n] == enc;
      while n > 0
        invariant n <= |enc| && (forall w | w in enc[..n] :: w > 0)
        invariant Gaps(x, enc) == Gaps(literal, enc[..n]) + gaps
      {
        n := n - 1;
        assert enc[n] in enc && enc[..n + 1][..n] == enc[..n] && enc[..n + 1][n] == enc[n];
        assert forall w | w in enc[..n] :: w in enc[..n + 1];
        gaps := [literal / enc[n]] + gaps;
        literal := literal % enc[n];
      }
    }

    method GapEncode(pc: char, prev: char, enc: seq<nat>) returns (crypt: string)
      requires Valid() && InAlphabet(prev) && forall w | w in enc :: w > 0
      ensures crypt == Chain(Gaps(pc as nat, enc), prev)
    {
      hide Place, Gaps, InAlphabet, Chain, FAMILY, NUM_ALPHA;
      var gaps := SplitGaps(pc as nat, enc);
      crypt := "";
      var last := prev;
      assert gaps[0..] == gaps;
      for i := 0 to |gaps|
        invariant InAlphabet(last) && Chain(gaps, prev) == crypt + Chain(gaps[i..], last)
      {
        ChainStep(gaps, i, last, crypt);
        PlaceInAlphabet(last);
        last := NUM_ALPHA[(gaps[i] + alphaNum[last] + 1) % 65];
        crypt := crypt + [last];
      }
    }

    method Encrypt(plain: string, salt: char, filler: string) returns (crypt: string)
      requires Valid() && InAlphabet(salt) && |filler| == Extra(salt)
      ensures crypt == Encrypted(plain, salt, filler)
    {
      hide InAlphabet, Chain, Gaps, Weights, Encoded;
      var prev := salt;
      crypt := MAGIC + [salt] + filler;
      ghost var start := crypt;
      assert plain[0..] == plain;
      for i := 0 to |plain|
        invariant InAlphabet(prev) && crypt != ""
        invariant start + Encoded(plain, 0, salt) == crypt + Encoded(plain[i..], i, prev)
      {
        EncodedStep(plain, i, prev, crypt);
        var part := GapEncode(plain[i], prev, Weights(i));
        assert part[|part| - 1] in part;
        crypt := crypt + part;
        prev := crypt[|crypt| - 1];
      }
      NothingEncoded(plain, prev);
    }

    /** The first characters, and what is left. */
    method Nibble(chars: string, length: nat) returns (nibble: string, left: string)
      ensures var n := if length <= |chars| then length else |chars|;
        nibble == chars[..n] && left == chars[n..]
    {
      var n := if length <= |chars| then length else |chars|;
      nibble, left := chars[..n], chars[n..];
    }

    method GapDecode(gaps: seq<int>, dec: seq<nat>) returns (c: char)
      requires |gaps| == |dec|
      ensures c == (Sum(gaps, dec) % 256) as char
    {
      var num := 0;
      for i := 0 to |gaps|
        invariant num == Sum(gaps[..i], dec[..i])
      {
        assert gaps[..i + 1][..i] == gaps[..i] && dec[..i + 1][..i] == dec[..i];
        num := num + gaps[i] * dec[i];
      }
      assert gaps[..|gaps|] == gaps && dec[..|dec|] == dec;
      c := (num % 256) as char;
    }

    /** The gaps of a nibble; nothing when a character has no place. */
    method NibbleGaps(nibble: string, prev: char) returns (r: Option<seq<int>>)
      requires Valid() && InAlphabet(prev)
      ensures r == if exists c | c in nibble :: !InAlphabet(c) then None else Some(GapsOf(nibble, prev))
    {
      hide Place, InAlphabet, NUM_ALPHA, GapsOf, AllPlaced;
      var gaps: seq<int> := [];
      var last := prev;
      NoneToPlace(nibble, prev);
      for i := 0 to |nibble|
        invariant InAlphabet(last) && AllPlaced(nibble[..i])
        invariant GapsOf(nibble, prev) == gaps + GapsOf(nibble[i..], last)
      {
        OneMorePlaced(nibble, i);
        if nibble[i] !in alphaNum {
          return None;
        }
        GapsGoOn(nibble, i, last, gaps);
        gaps := gaps + [(alphaNum[nibble[i]] as int - alphaNum[last] as int) % 65 - 1];
        last := nibble[i];
      }
      AllArePlaced(nibble, last, gaps);
      return Some(gaps);
    }

    method Decrypt(crypt: string) returns (r: Decrypted)
      requires Valid()
      ensures r == Decryption(crypt)
    {
      hide Place, InAlphabet, Sum, GapsOf, Weights, CanBeFirst;
      if crypt == "" || !CanBeFirst(crypt[0]) {
        return Refused;
      }
      if |crypt| < 4 || crypt[..3] != MAGIC || crypt[3] !in extra {
        return Raises;
      }
      var first, chars := Nibble(crypt[3..], 1);
      assert first == [crypt[3]] && chars == crypt[4..];
      var filler;
      filler, chars := Nibble(chars, extra[crypt[3]]);
      r := DecodeAll(chars, crypt[3]);
    }

    method DecodeAll(code: string, salt: char) returns (r: Decrypted)
      requires Valid() && InAlphabet(salt)
      ensures r == match Decoded(code, 0, salt) case None => Raises case Some(s) => Text(s)
    {
      hide Place, InAlphabet, Sum, GapsOf, Weights, Decoded;
      var chars, prev, text := code, salt, "";
      ghost var all := Decoded(code, 0, salt);
      assert all.Some? ==> "" + all.value == all.value;
      while chars != ""
        invariant InAlphabet(prev)
        invariant all == WithText(text, Decoded(chars, |text|, prev))
        decreases |chars|
      {
        DecodedStep(chars, |text|, prev, text);
        var decode := Weights(|text|);
        var nibble, left := Nibble(chars, |decode|);
        var gaps := NibbleGaps(nibble, prev);
        if gaps.None? || |gaps.value| != |decode| {
          return Raises;
        }
        assert nibble[|nibble| - 1] in nibble;
        var c := GapDecode(gaps.value, decode);
        chars, prev, text := left, nibble[|nibble| - 1], text + [c];
      }
      NothingDecoded(|text|, prev);
      assert text + "" == text;
      r := Text(text);
    }
  }
}
