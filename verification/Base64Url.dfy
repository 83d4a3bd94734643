/**
 base64url without padding, as the JWT code makes it out of base64 and back
 (sections 4 and 5 of RFC 4648). Texts are sequences of character codes.
 */
module Base64Url {

  type Byte = b: int | 0 <= b < 256

  type Sextet = n: int | 0 <= n < 64

  type Text = seq<int>

  const PLUS: int := 43
  const MINUS: int := 45
  const DOT: int := 46
  const SLASH: int := 47
  const EQUALS: int := 61
  const UNDERSCORE: int := 95

  /** The base64 alphabet. */
  function Letter(n: Sextet): int {
    if n < 26 then 65 + n else if n < 52 then 71 + n else if n < 62 then n - 4 else if n == 62 then PLUS else SLASH
  }

  predicate IsLetter(c: int) { 65 <= c <= 90 || 97 <= c <= 122 || 48 <= c <= 57 || c == PLUS || c == SLASH }

  function Number(c: int): Sextet
    requires IsLetter(c)
  {
    if 65 <= c <= 90 then c - 65 else if 97 <= c <= 122 then c - 71 else if 48 <= c <= 57 then c + 4
    else if c == PLUS then 62 else 63
  }

  // ------------------------------------------------------------- base64

  function Sextet0(a: Byte): Sextet { a / 4 }
  function Sextet1(a: Byte, b: Byte): Sextet { a % 4 * 16 + b / 16 }
  function Sextet2(b: Byte, c: Byte): Sextet { b % 16 * 4 + c / 64 }
  function Sextet3(c: Byte): Sextet { c % 64 }

  /** Three bytes as four sextets; one byte as two, two bytes as three. */
  function ToSextets(bytes: seq<Byte>): seq<Sextet> {
    if bytes == [] then []
    else if |bytes| == 1 then [Sextet0(bytes[0]), Sextet1(bytes[0], 0)]
    else if |bytes| == 2 then [Sextet0(bytes[0]), Sextet1(bytes[0], bytes[1]), Sextet2(bytes[1], 0)]
    else
      [Sextet0(bytes[0]), Sextet1(bytes[0], bytes[1]), Sextet2(bytes[1], bytes[2]), Sextet3(bytes[2])]
      + ToSextets(bytes[3..])
  }

  function First(a: Sextet, b: Sextet): Byte { a * 4 + b / 16 }
  function Second(b: Sextet, c: Sextet): Byte { b % 16 * 16 + c / 4 }
  function Third(c: Sextet, d: Sextet): Byte { c % 4 * 64 + d }

  function FromSextets(s: seq<Sextet>): seq<Byte> {
    if |s| < 2 then []
    else if |s| == 2 then [First(s[0], s[1])]
    else if |s| == 3 then [First(s[0], s[1]), Second(s[1], s[2])]
    else [First(s[0], s[1]), Second(s[1], s[2]), Third(s[2], s[3])] + FromSextets(s[4..])
  }

  function Letters(s: seq<Sextet>): Text {
    if s == [] then [] else [Letter(s[0])] + Letters(s[1..])
  }

  /** A decoder skips what is not in the alphabet, padding with it. */
  function Numbers(t: Text): seq<Sextet> {
    if t == [] then [] else if IsLetter(t[0]) then [Number(t[0])] + Numbers(t[1..]) else Numbers(t[1..])
  }

  function Padding(n: nat): Text {
    if n % 4 == 0 then []
    else if n % 4 == 1 then [EQUALS, EQUALS, EQUALS]
    else if n % 4 == 2 then [EQUALS, EQUALS]
    else [EQUALS]
  }

  /** The fewest `=` that make the length a multiple of four. */
  lemma PaddingFills(n: nat)
    ensures |Padding(n)| < 4 && (n + |Padding(n)|) % 4 == 0
    ensures forall i :: 0 <= i < |Padding(n)| ==> Padding(n)[i] == '=' as int
  {
  }

  function Base64(bytes: seq<Byte>): Text {
    var letters := Letters(ToSextets(bytes));
    letters + Padding(|letters|)
  }

  function FromBase64(t: Text): seq<Byte> { FromSextets(Numbers(t)) }

  // ----------------------------------------------------------- base64url

  function Replaced(t: Text, from: int, to: int): Text {
    if t == [] then [] else [if t[0] == from then to else t[0]] + Replaced(t[1..], from, to)
  }

  /** The text without the `=` at its end. */
  function Stripped(t: Text): Text {
    if t != [] && t[|t| - 1] == EQUALS then Stripped(t[..|t| - 1]) else t
  }

  function B64Url(bytes: seq<Byte>): Text {
    Stripped(Replaced(Replaced(Base64(bytes), PLUS, MINUS), SLASH, UNDERSCORE))
  }

  function B64UrlToBuffer(part: Text): seq<Byte> {
    var b64 := Replaced(Replaced(part, MINUS, PLUS), UNDERSCORE, SLASH);
    FromBase64(b64 + Padding(|b64|))
  }

  // --------------------------------------------------------- round trip

  /** Three bytes are read back from their four sextets, one and two from theirs. */
  lemma GroupBack(a: Byte, b: Byte, c: Byte)
    ensures First(Sextet0(a), Sextet1(a, b)) == a
    ensures Second(Sextet1(a, b), Sextet2(b, c)) == b
    ensures Third(Sextet2(b, c), Sextet3(c)) == c
  {
  }

  lemma FromGroup(p: Sextet, q: Sextet, r: Sextet, t: Sextet, rest: seq<Sextet>)
    ensures FromSextets([p, q, r, t] + rest) == [First(p, q), Second(q, r), Third(r, t)] + FromSextets(rest)
  {
    assert ([p, q, r, t] + rest)[4..] == rest;
  }

  lemma FromTwo(p: Sextet, q: Sextet)
    ensures FromSextets([p, q]) == [First(p, q)]
  {
    hide First;
  }

  lemma FromThree(p: Sextet, q: Sextet, r: Sextet)
    ensures FromSextets([p, q, r]) == [First(p, q), Second(q, r)]
  {
    hide First, Second;
  }

  lemma OneBack(bytes: seq<Byte>)
    requires |bytes| == 1
    ensures FromSextets(ToSextets(bytes)) == bytes
  {
    hide FromSextets, First, Second, Third, Sextet0, Sextet1, Sextet2, Sextet3;
    GroupBack(bytes[0], 0, 0);
    FromTwo(Sextet0(bytes[0]), Sextet1(bytes[0], 0));
    assert bytes == [bytes[0]];
  }

  lemma TwoBack(bytes: seq<Byte>)
    requires |bytes| == 2
    ensures FromSextets(ToSextets(bytes)) == bytes
  {
    hide FromSextets, First, Second, Third, Sextet0, Sextet1, Sextet2, Sextet3;
    GroupBack(bytes[0], bytes[1], 0);
    FromThree(Sextet0(bytes[0]), Sextet1(bytes[0], bytes[1]), Sextet2(bytes[1], 0));
    assert bytes == [bytes[0], bytes[1]];
  }

  lemma ToGroup(bytes: seq<Byte>)
    requires |bytes| >= 3
    ensures ToSextets(bytes) ==
      [Sextet0(bytes[0]), Sextet1(bytes[0], bytes[1]), Sextet2(bytes[1], bytes[2]), Sextet3(bytes[2])]
        + ToSextets(bytes[3..])
  {
    hide Sextet0, Sextet1, Sextet2, Sextet3;
  }

  lemma MoreBack(bytes: seq<Byte>)
    requires |bytes| >= 3 && FromSextets(ToSextets(bytes[3..])) == bytes[3..]
    ensures FromSextets(ToSextets(bytes)) == bytes
  {
    hide *;
    var a, b, c, rest := bytes[0], bytes[1], bytes[2], bytes[3..];
    ToGroup(bytes);
    GroupBack(a, b, c);
    FromGroup(Sextet0(a), Sextet1(a, b), Sextet2(b, c), Sextet3(c), ToSextets(rest));
    assert bytes == [a, b, c] + rest;
  }

  lemma {:induction false} SextetsBack(bytes: seq<Byte>)
    ensures FromSextets(ToSextets(bytes)) == bytes
  {
    if bytes == [] {
      return;
    }
    hide FromSextets, ToSextets;
    if |bytes| == 1 {
      OneBack(bytes);
    } else if |bytes| == 2 {
      TwoBack(bytes);
    } else {
      SextetsBack(bytes[3..]);
      MoreBack(bytes);
    }
  }

  lemma {:induction false} NumbersBack(s: seq<Sextet>, padding: Text)
    requires forall i :: 0 <= i < |padding| ==> padding[i] == EQUALS
    ensures Numbers(Letters(s) + padding) == s
  {
    if s == [] {
      SkipPadding(padding);
      assert Letters(s) + padding == padding;
    } else {
      NumbersBack(s[1..], padding);
      assert (Letters(s) + padding)[1..] == Letters(s[1..]) + padding;
      assert Number(Letter(s[0])) == s[0];
    }
  }

  lemma {:induction false} SkipPadding(padding: Text)
    requires forall i :: 0 <= i < |padding| ==> padding[i] == EQUALS
    ensures Numbers(padding) == []
  {
    if padding != [] { SkipPadding(padding[1..]); }
  }

  lemma {:induction false} ReplacedEach(t: Text, from: int, to: int)
    ensures |Replaced(t, from, to)| == |t|
    ensures forall i :: 0 <= i < |t| ==> Replaced(t, from, to)[i] == if t[i] == from then to else t[i]
  {
    if t != [] { ReplacedEach(t[1..], from, to); }
  }

  lemma {:induction false} LettersAreLetters(s: seq<Sextet>)
    ensures |Letters(s)| == |s| && forall c :: c in Letters(s) ==> IsLetter(c)
  {
    if s != [] { LettersAreLetters(s[1..]); }
  }

  lemma {:induction false} StrippedPadding(t: Text, padding: Text)
    requires (t != [] ==> t[|t| - 1] != EQUALS) && forall i :: 0 <= i < |padding| ==> padding[i] == EQUALS
    ensures Stripped(t + padding) == t
  {
    if padding == [] {
      assert t + padding == t;
    } else {
      var n := |t + padding|;
      assert (t + padding)[n - 1] == padding[|padding| - 1];
      assert (t + padding)[..n - 1] == t + padding[..|padding| - 1];
      StrippedPadding(t, padding[..|padding| - 1]);
    }
  }

  /** The alphabet's letters, with `-` and `_` for `+` and `/`. */
  function UrlLetters(t: Text): Text { Replaced(Replaced(t, PLUS, MINUS), SLASH, UNDERSCORE) }

  lemma UrlLettersEach(t: Text)
    ensures |UrlLetters(t)| == |t|
    ensures forall i :: 0 <= i < |t| ==>
      UrlLetters(t)[i] == (if t[i] == PLUS then MINUS else if t[i] == SLASH then UNDERSCORE else t[i])
  {
    ReplacedEach(t, PLUS, MINUS);
    ReplacedEach(Replaced(t, PLUS, MINUS), SLASH, UNDERSCORE);
  }

  lemma B64UrlIsUnpadded(bytes: seq<Byte>)
    ensures B64Url(bytes) == UrlLetters(Letters(ToSextets(bytes)))
  {
    var letters := Letters(ToSextets(bytes));
    var padding := Padding(|letters|);
    LettersAreLetters(ToSextets(bytes));
    UrlLettersEach(letters);
    UrlLettersEach(letters + padding);
    assert UrlLetters(letters + padding) == UrlLetters(letters) + padding;
    if letters != [] { assert letters[|letters| - 1] in letters; }
    StrippedPadding(UrlLetters(letters), padding);
  }

  /** Every byte sequence is read back from its base64url text. */
  lemma RoundTrip(bytes: seq<Byte>)
    ensures B64UrlToBuffer(B64Url(bytes)) == bytes
  {
    var letters := Letters(ToSextets(bytes));
    B64UrlIsUnpadded(bytes);
    LettersAreLetters(ToSextets(bytes));
    UrlLettersEach(letters);
    var url := UrlLetters(letters);
    ReplacedEach(url, MINUS, PLUS);
    ReplacedEach(Replaced(url, MINUS, PLUS), UNDERSCORE, SLASH);
    assert Replaced(Replaced(url, MINUS, PLUS), UNDERSCORE, SLASH) == letters by {
      assert forall i :: 0 <= i < |letters| ==> letters[i] in letters;
    }
    NumbersBack(ToSextets(bytes), Padding(|letters|));
    SextetsBack(bytes);
  }

  /** The letter of six bits in the URL alphabet: table 2 of RFC 4648. */
  function UrlLetter(n: Sextet): int {
    if n < 26 then 'A' as int + n
    else if n < 52 then 'a' as int + n - 26
    else if n < 62 then '0' as int + n - 52
    else if n == 62 then '-' as int
    else '_' as int
  }

  lemma {:induction false} LettersOf(s: seq<Sextet>, i: nat)
    requires i < |s|
    ensures |Letters(s)| == |s| && Letters(s)[i] == Letter(s[i])
  {
    if i > 0 { LettersOf(s[1..], i - 1); } else { LettersAreLetters(s); }
  }

  /** Before that, the letters are those of base64: table 1 of RFC 4648. */
  lemma StandardLetters(n: Sextet)
    ensures Letter(n) == if n == 62 then '+' as int else if n == 63 then '/' as int else UrlLetter(n)
  {
  }

  /** The text has one letter for each six bits, that of the URL alphabet. */
  lemma TextIsTheSextets(bytes: seq<Byte>, i: nat)
    ensures |B64Url(bytes)| == |ToSextets(bytes)|
    ensures i < |ToSextets(bytes)| ==> B64Url(bytes)[i] == UrlLetter(ToSextets(bytes)[i])
  {
    var s := ToSextets(bytes);
    B64UrlIsUnpadded(bytes);
    LettersAreLetters(s);
    UrlLettersEach(Letters(s));
    if i < |s| {
      LettersOf(s, i);
    }
  }

  /** Four sextets are the number of twenty-four bits that their three bytes are. */
  lemma GroupIsOneNumber(a: Byte, b: Byte, c: Byte, rest: seq<Byte>)
    ensures var s := ToSextets([a, b, c] + rest);
      && |s| >= 4 && s[4..] == ToSextets(rest)
      && s[0] as int * 262144 + s[1] as int * 4096 + s[2] as int * 64 + s[3] as int == a * 65536 + b * 256 + c
  {
    assert ([a, b, c] + rest)[3..] == rest;
  }

  /** No dot, nor anything else outside the URL alphabet. */
  lemma UrlAlphabet(bytes: seq<Byte>)
    ensures forall c :: c in B64Url(bytes) ==>
      'A' as int <= c <= 'Z' as int || 'a' as int <= c <= 'z' as int || '0' as int <= c <= '9' as int
      || c == '-' as int || c == '_' as int
    ensures '.' as int !in B64Url(bytes) && DOT !in B64Url(bytes)
  {
    var letters := Letters(ToSextets(bytes));
    B64UrlIsUnpadded(bytes);
    LettersAreLetters(ToSextets(bytes));
    UrlLettersEach(letters);
    forall c | c in B64Url(bytes)
      ensures 'A' as int <= c <= 'Z' as int || 'a' as int <= c <= 'z' as int || '0' as int <= c <= '9' as int
        || c == '-' as int || c == '_' as int
    {
      var i :| 0 <= i < |letters| && UrlLetters(letters)[i] == c;
      assert letters[i] in letters;
    }
  }
}
