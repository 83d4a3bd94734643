/**
 The text of a JSON string to the unit, and the marks around the values, told
 apart from the writer: sections 2, 3 and 7 of RFC 8259, and what
 `JSON.stringify` leaves open to them.
 */
module JsonUnits {
  import opened JsonText

  /** ASCII text as code units. */
  function Units(chars: string): Text
    requires forall i :: 0 <= i < |chars| ==> chars[i] as int < 128
  {
    seq(|chars|, i requires 0 <= i < |chars| => Code(chars[i]))
  }

  function Code(c: char): Unit
    requires c as int < 128
  {
    c as int
  }

  const HEX := "0123456789abcdef"

  /** The unit belongs to a high and a low surrogate that stand together. */
  predicate InPair(s: Text, i: nat)
    requires i < |s|
  {
    || (0xD800 <= s[i] <= 0xDBFF && i + 1 < |s| && 0xDC00 <= s[i + 1] <= 0xDFFF)
    || (0xDC00 <= s[i] <= 0xDFFF && i > 0 && 0xD800 <= s[i - 1] <= 0xDBFF)
  }

  /** The text of one unit of a string, as `JSON.stringify` has it. */
  function Image(s: Text, i: nat): Text
    requires i < |s|
  {
    var u := s[i];
    if u == 34 then Units("\\\"")
    else if u == 92 then Units("\\\\")
    else if u == 8 then Units("\\b")
    else if u == 9 then Units("\\t")
    else if u == 10 then Units("\\n")
    else if u == 12 then Units("\\f")
    else if u == 13 then Units("\\r")
    else if u < 32 || (0xD800 <= u <= 0xDFFF && !InPair(s, i)) then
      Units("\\u") + Units([HEX[u / 4096], HEX[u / 256 % 16], HEX[u / 16 % 16], HEX[u % 16]])
    else [u]
  }

  /** The texts of the units from the `i`th on, one after another. */
  function Images(s: Text, i: nat): Text
    requires i <= |s|
    decreases |s| - i
  {
    if i == |s| then [] else Image(s, i) + Images(s, i + 1)
  }

  lemma HexIs(n: int)
    requires 0 <= n < 16
    ensures HexDigit(n) == Code(HEX[n])
  {
  }

  lemma UnitImage(s: Text, i: nat)
    requires i < |s| && !InPair(s, i)
    ensures Escaped(s[i..]) == Image(s, i) + Escaped(s[i + 1..])
  {
    var u := s[i];
    assert s[i..][1..] == s[i + 1..] && s[i..][0] == u && (i + 1 < |s| ==> s[i..][1] == s[i + 1]);
    assert Units("\\\"") == [92, 34] && Units("\\\\") == [92, 92] && Units("\\u") == [92, 117];
    assert Units("\\b") == [92, 98] && Units("\\t") == [92, 116] && Units("\\n") == [92, 110];
    assert Units("\\f") == [92, 102] && Units("\\r") == [92, 114];
    HexIs(u / 4096);
    HexIs(u / 256 % 16);
    HexIs(u / 16 % 16);
    HexIs(u % 16);
    hide HexDigit;
    assert Escape(u) == Units("\\u") + Units([HEX[u / 4096], HEX[u / 256 % 16], HEX[u / 16 % 16], HEX[u % 16]]);
  }

  lemma PairStands(s: Text, i: nat)
    requires i + 1 < |s| && High(s[i]) && Low(s[i + 1])
    ensures Image(s, i) == [s[i]] && Image(s, i + 1) == [s[i + 1]]
  {
  }

  lemma PairImage(s: Text, i: nat)
    requires i + 1 < |s| && High(s[i]) && Low(s[i + 1])
    ensures Escaped(s[i..]) == [s[i], s[i + 1]] + Escaped(s[i + 2..])
    ensures Images(s, i) == [s[i], s[i + 1]] + Images(s, i + 2)
  {
    hide Escape, Short;
    PairStands(s, i);
    assert s[i..][..2] == [s[i], s[i + 1]] && s[i..][2..] == s[i + 2..];
    hide Image;
    assert Images(s, i) == [s[i]] + ([s[i + 1]] + Images(s, i + 2));
  }

  lemma {:induction false} EscapedIsImages(s: Text, i: nat)
    requires i <= |s| && !(0 < i < |s| && High(s[i - 1]) && Low(s[i]))
    ensures Escaped(s[i..]) == Images(s, i)
    decreases |s| - i
  {
    if i < |s| {
      hide Escaped, Image;
      if InPair(s, i) {
        EscapedIsImages(s, i + 2);
        PairImage(s, i);
      } else {
        EscapedIsImages(s, i + 1);
        UnitImage(s, i);
      }
    }
  }

  /**
   A string's text, unit by unit: quotes, backslashes and the five controls with a
   letter become two units; other controls and surrogates that stand alone become
   six, in lower-case hexadecimal; everything else stands as it is.
   */
  lemma QuotedIsImages(s: Text)
    ensures Quoted(s) == Units("\"") + Images(s, 0) + Units("\"")
  {
    EscapedIsImages(s, 0);
    assert s[0..] == s && Units("\"") == [QUOTE];
  }

  /** The marks and names around the values are those of section 2 and 3 of RFC 8259. */
  lemma Punctuation()
    ensures [QUOTE, COMMA, COLON] ==
      Units("\",:") && [OPEN_LIST, CLOSE_LIST, OPEN_OBJECT, CLOSE_OBJECT] == Units("[]{}")
    ensures NULL_TEXT == Units("null") && TRUE_TEXT == Units("true") && FALSE_TEXT == Units("false")
  {
  }

  /** What a number's text is made of. */
  lemma NumberUnitsAre(u: Unit)
    ensures NumberUnit(u) <==> u in Units("0123456789") || u in Units("+-.eE")
  {
    var digits := Units("0123456789");
    assert forall i :: 0 <= i < 10 ==> digits[i] == 48 + i;
    assert 48 <= u <= 57 ==> digits[u - 48] == u;
    assert Units("+-.eE") == [43, 45, 46, 101, 69];
  }
}
