/**
 JSON text, compact: how `JSON.stringify` writes it (strings escaped, lone
 surrogates too) and a parser that reads it back. Sections 4, 5 and 7 of RFC 8259.
 Texts are sequences of UTF-16 code units.
 */
module JsonText {

  type Unit = u: int | 0 <= u < 0x1_0000

  type Text = seq<Unit>

  datatype Option<+T> = None | Some(value: T)

  datatype List<+T> = Nil | Cons(head: T, tail: List<T>)

  datatype Field<+T> = Field(key: Text, value: T)

  /** What a JSON text says, in its order. */
  datatype Doc =
    | NullDoc
    | BoolDoc(b: bool)
    | NumDoc(text: Text)
    | StrDoc(s: Text)
    | ArrDoc(items: List<Doc>)
    | ObjDoc(fields: List<Field<Doc>>)

  const QUOTE: Unit := 34
  const COMMA: Unit := 44
  const COLON: Unit := 58
  const OPEN_LIST: Unit := 91
  const BACKSLASH: Unit := 92
  const CLOSE_LIST: Unit := 93
  const LETTER_U: Unit := 117
  const OPEN_OBJECT: Unit := 123
  const CLOSE_OBJECT: Unit := 125
  const NULL_TEXT: Text := [110, 117, 108, 108]
  const TRUE_TEXT: Text := [116, 114, 117, 101]
  const FALSE_TEXT: Text := [102, 97, 108, 115, 101]

  // ---------------------------------------------------- strings, escaped

  predicate High(u: Unit) { 0xD800 <= u < 0xDC00 }
  predicate Low(u: Unit) { 0xDC00 <= u < 0xE000 }

  function HexDigit(n: int): Unit
    requires 0 <= n < 16
  {
    if n < 10 then 48 + n else 87 + n
  }

  function Escape(u: Unit): Text {
    [BACKSLASH, LETTER_U, HexDigit(u / 4096), HexDigit(u / 256 % 16), HexDigit(u / 16 % 16), HexDigit(u % 16)]
  }

  /** The one-letter escape of a unit that has one. */
  function Short(u: Unit): Option<Unit> {
    if u == 34 || u == 92 then Some(u)
    else if u == 8 then Some(98)
    else if u == 12 then Some(102)
    else if u == 10 then Some(110)
    else if u == 13 then Some(114)
    else if u == 9 then Some(116)
    else None
  }

  /** The inside of a string's text: controls, quotes and lone surrogates escaped. */
  function Escaped(s: Text): Text {
    if s == [] then []
    else if High(s[0]) && |s| > 1 && Low(s[1]) then s[..2] + Escaped(s[2..])
    else if Short(s[0]).Some? then [BACKSLASH, Short(s[0]).value] + Escaped(s[1..])
    else if s[0] < 32 || High(s[0]) || Low(s[0]) then Escape(s[0]) + Escaped(s[1..])
    else [s[0]] + Escaped(s[1..])
  }

  function Quoted(s: Text): Text { [QUOTE] + Escaped(s) + [QUOTE] }

  // ----------------------------------------------------------- the writer

  function WriteItems(items: List<Doc>): Text {
    match items
    case Nil => []
    case Cons(d, Nil) => Write(d)
    case Cons(d, rest) => Write(d) + [COMMA] + WriteItems(rest)
  }

  function WriteFields(fields: List<Field<Doc>>): Text {
    match fields
    case Nil => []
    case Cons(f, Nil) => Quoted(f.key) + [COLON] + Write(f.value)
    case Cons(f, rest) => Quoted(f.key) + [COLON] + Write(f.value) + [COMMA] + WriteFields(rest)
  }

  /** A document's text, as JSON.stringify writes it. */
  function Write(d: Doc): Text {
    match d
    case NullDoc => NULL_TEXT
    case BoolDoc(b) => if b then TRUE_TEXT else FALSE_TEXT
    case NumDoc(text) => text
    case StrDoc(s) => Quoted(s)
    case ArrDoc(items) => [OPEN_LIST] + WriteItems(items) + [CLOSE_LIST]
    case ObjDoc(fields) => [OPEN_OBJECT] + WriteFields(fields) + [CLOSE_OBJECT]
  }

  // ----------------------------------------------------------- the parser

  predicate NumberUnit(u: Unit) { 48 <= u <= 57 || u == 43 || u == 45 || u == 46 || u == 69 || u == 101 }

  function HexValue(u: Unit): (v: Option<int>)
    ensures v.Some? ==> 0 <= v.value < 16
  {
    if 48 <= u <= 57 then Some(u - 48)
    else if 97 <= u <= 102 then Some(u - 87)
    else if 65 <= u <= 70 then Some(u - 55)
    else None
  }

  function ParseHex(t: Text): (u: Option<Unit>)
    requires |t| == 4
  {
    var a, b, c, d := HexValue(t[0]), HexValue(t[1]), HexValue(t[2]), HexValue(t[3]);
    if a.None? || b.None? || c.None? || d.None? then None
    else Some(((a.value * 16 + b.value) * 16 + c.value) * 16 + d.value)
  }

  function Unshort(u: Unit): Option<Unit> {
    if u == 34 || u == 92 || u == 47 then Some(u)
    else if u == 98 then Some(8)
    else if u == 102 then Some(12)
    else if u == 110 then Some(10)
    else if u == 114 then Some(13)
    else if u == 116 then Some(9)
    else None
  }

  datatype Parsed<+T> = Bad | Got(value: T, rest: Text)

  /** The rest of a string, after its opening quote. */
  function ParseChars(t: Text): (r: Parsed<Text>)
    ensures r.Got? ==> |r.rest| < |t|
  {
    if t == [] || t[0] < 32 then Bad
    else if t[0] == QUOTE then Got([], t[1..])
    else if t[0] != BACKSLASH then Prepend(t[0], ParseChars(t[1..]))
    else if |t| >= 2 && Unshort(t[1]).Some? then Prepend(Unshort(t[1]).value, ParseChars(t[2..]))
    else if |t| >= 6 && t[1] == LETTER_U && ParseHex(t[2..6]).Some? then
      Prepend(ParseHex(t[2..6]).value, ParseChars(t[6..]))
    else Bad
  }

  function Prepend(u: Unit, r: Parsed<Text>): Parsed<Text> {
    if r.Bad? then Bad else Got([u] + r.value, r.rest)
  }

  function NumberRun(t: Text): nat
    ensures NumberRun(t) <= |t|
  {
    if t == [] || !NumberUnit(t[0]) then 0 else 1 + NumberRun(t[1..])
  }

  function ParseDoc(t: Text): (r: Parsed<Doc>)
    ensures r.Got? ==> |r.rest| < |t|
    decreases |t|, 0
  {
    if NULL_TEXT <= t then Got(NullDoc, t[4..])
    else if TRUE_TEXT <= t then Got(BoolDoc(true), t[4..])
    else if FALSE_TEXT <= t then Got(BoolDoc(false), t[5..])
    else if t == [] then Bad
    else if t[0] == QUOTE then
      var s := ParseChars(t[1..]);
      if s.Bad? then Bad else Got(StrDoc(s.value), s.rest)
    else if t[0] == OPEN_LIST then
      if |t| > 1 && t[1] == CLOSE_LIST then Got(ArrDoc(Nil), t[2..])
      else
        var items := ParseItems(t[1..]);
        if items.Bad? then Bad else Got(ArrDoc(items.value), items.rest)
    else if t[0] == OPEN_OBJECT then
      if |t| > 1 && t[1] == CLOSE_OBJECT then Got(ObjDoc(Nil), t[2..])
      else
        var fields := ParseFields(t[1..]);
        if fields.Bad? then Bad else Got(ObjDoc(fields.value), fields.rest)
    else if NumberRun(t) > 0 then Got(NumDoc(t[..NumberRun(t)]), t[NumberRun(t)..])
    else Bad
  }

  function ParseItems(t: Text): (r: Parsed<List<Doc>>)
    ensures r.Got? ==> |r.rest| < |t|
    decreases |t|, 1
  {
    var d := ParseDoc(t);
    if d.Bad? || d.rest == [] then Bad
    else if d.rest[0] == CLOSE_LIST then Got(Cons(d.value, Nil), d.rest[1..])
    else if d.rest[0] == COMMA then
      var more := ParseItems(d.rest[1..]);
      if more.Bad? then Bad else Got(Cons(d.value, more.value), more.rest)
    else Bad
  }

  function ParseFields(t: Text): (r: Parsed<List<Field<Doc>>>)
    ensures r.Got? ==> |r.rest| < |t|
    decreases |t|, 1
  {
    if t == [] || t[0] != QUOTE then Bad
    else
      var k := ParseChars(t[1..]);
      if k.Bad? || k.rest == [] || k.rest[0] != COLON then Bad
      else
        var d := ParseDoc(k.rest[1..]);
        if d.Bad? || d.rest == [] then Bad
        else if d.rest[0] == CLOSE_OBJECT then Got(Cons(Field(k.value, d.value), Nil), d.rest[1..])
        else if d.rest[0] == COMMA then
          var more := ParseFields(d.rest[1..]);
          if more.Bad? then Bad else Got(Cons(Field(k.value, d.value), more.value), more.rest)
        else Bad
  }

  // ------------------------------------------- what is written is read back

  lemma HexBack(u: Unit)
    ensures ParseHex(Escape(u)[2..6]) == Some(u)
  {
    var t := Escape(u)[2..6];
    assert t == [HexDigit(u / 4096), HexDigit(u / 256 % 16), HexDigit(u / 16 % 16), HexDigit(u % 16)];
    assert u / 256 == u / 4096 * 16 + u / 256 % 16;
    assert u / 16 == u / 256 * 16 + u / 16 % 16;
  }

  lemma ReadsEnd(rest: Text)
    ensures ParseChars([QUOTE] + rest) == Got([], rest)
  {
  }

  lemma ReadsShort(u: Unit, tail: Text)
    requires Short(u).Some?
    ensures ParseChars([BACKSLASH, Short(u).value] + tail) == Prepend(u, ParseChars(tail))
  {
    assert ([BACKSLASH, Short(u).value] + tail)[2..] == tail;
  }

  lemma ReadsEscape(u: Unit, tail: Text)
    ensures ParseChars(Escape(u) + tail) == Prepend(u, ParseChars(tail))
  {
    var t := Escape(u) + tail;
    assert t[0] == BACKSLASH && t[1] == LETTER_U && t[6..] == tail && t[2..6] == Escape(u)[2..6];
    HexBack(u);
    hide ParseHex;
  }

  lemma Onward(e: Text, inside: Text, rest: Text)
    ensures e + inside + [QUOTE] + rest == e + (inside + [QUOTE] + rest)
  {
  }

  /** One unit, however it is escaped, is read back before the rest. */
  lemma UnitBack(s: Text, rest: Text)
    requires s != [] && !(High(s[0]) && |s| > 1 && Low(s[1]))
    ensures ParseChars(Escaped(s) + [QUOTE] + rest) == Prepend(s[0], ParseChars(Escaped(s[1..]) + [QUOTE] + rest))
  {
    var inside := Escaped(s[1..]);
    var tail := inside + [QUOTE] + rest;
    hide ParseChars, Escape, Short;
    if Short(s[0]).Some? {
      assert Escaped(s) == [BACKSLASH, Short(s[0]).value] + inside;
      Onward([BACKSLASH, Short(s[0]).value], inside, rest);
      ReadsShort(s[0], tail);
    } else if s[0] < 32 || High(s[0]) || Low(s[0]) {
      assert Escaped(s) == Escape(s[0]) + inside;
      Onward(Escape(s[0]), inside, rest);
      ReadsEscape(s[0], tail);
    } else {
      assert Escaped(s) == [s[0]] + inside;
      Onward([s[0]], inside, rest);
      NoShort(s[0]);
    }
  }

  lemma PairBack(s: Text, rest: Text)
    requires |s| > 1 && High(s[0]) && Low(s[1])
    ensures ParseChars(Escaped(s) + [QUOTE] + rest) ==
      Prepend(s[0], Prepend(s[1], ParseChars(Escaped(s[2..]) + [QUOTE] + rest)))
  {
    var inside := Escaped(s[2..]);
    var tail := inside + [QUOTE] + rest;
    assert Escaped(s) == s[..2] + inside;
    hide ParseChars, Escaped;
    Onward(s[..2], inside, rest);
    assert s[..2] + tail == [s[0]] + ([s[1]] + tail);
  }

  lemma {:induction false} CharsBack(s: Text, rest: Text)
    ensures ParseChars(Escaped(s) + [QUOTE] + rest) == Got(s, rest)
  {
    if s == [] {
      assert Escaped(s) + [QUOTE] + rest == [QUOTE] + rest;
      ReadsEnd(rest);
    } else {
      hide ParseChars, Escaped;
      if High(s[0]) && |s| > 1 && Low(s[1]) {
        CharsBack(s[2..], rest);
        PairBack(s, rest);
        assert s == [s[0]] + ([s[1]] + s[2..]);
      } else {
        CharsBack(s[1..], rest);
        UnitBack(s, rest);
        assert s == [s[0]] + s[1..];
      }
    }
  }

  lemma NoShort(u: Unit)
    requires Short(u).None?
    ensures u != QUOTE && u != BACKSLASH
  {
  }

  /** What may follow a value in a text. */
  predicate Ends(rest: Text) { rest == [] || rest[0] == COMMA || rest[0] == CLOSE_LIST || rest[0] == CLOSE_OBJECT }

  predicate NumberText(text: Text) { text != [] && forall i :: 0 <= i < |text| ==> NumberUnit(text[i]) }

  predicate WellFormed(d: Doc) {
    match d
    case NumDoc(text) => NumberText(text)
    case ArrDoc(items) => AllWellFormed(items)
    case ObjDoc(fields) => FieldsWellFormed(fields)
    case _ => true
  }

  predicate AllWellFormed(items: List<Doc>) {
    items.Cons? ==> WellFormed(items.head) && AllWellFormed(items.tail)
  }

  predicate FieldsWellFormed(fields: List<Field<Doc>>) {
    fields.Cons? ==> WellFormed(fields.head.value) && FieldsWellFormed(fields.tail)
  }

  lemma {:induction false} RunBack(text: Text, rest: Text)
    requires (forall i :: 0 <= i < |text| ==> NumberUnit(text[i])) && Ends(rest)
    ensures NumberRun(text + rest) == |text|
  {
    if text != [] {
      RunBack(text[1..], rest);
      assert (text + rest)[1..] == text[1..] + rest;
    } else {
      assert text + rest == rest;
    }
  }

  /** A value's text never begins with the end of a list or an object. */
  lemma BeginsAsValue(d: Doc, rest: Text)
    requires WellFormed(d)
    ensures Write(d) + rest != [] && (Write(d) + rest)[0] != CLOSE_LIST && (Write(d) + rest)[0] != CLOSE_OBJECT
  {
    if d.NumDoc? { assert NumberUnit(d.text[0]); }
  }

  lemma ReadsWord(d: Doc, rest: Text)
    requires d.NullDoc? || d.BoolDoc?
    ensures ParseDoc(Write(d) + rest) == Got(d, rest)
  {
    var t := Write(d) + rest;
    if d.NullDoc? {
      assert NULL_TEXT <= t && t[4..] == rest;
    } else if d.b {
      assert t[0] == TRUE_TEXT[0] && TRUE_TEXT <= t && t[4..] == rest;
    } else {
      assert t[0] == FALSE_TEXT[0] && FALSE_TEXT <= t && t[5..] == rest;
    }
  }

  lemma ReadsNumber(text: Text, rest: Text)
    requires NumberText(text) && Ends(rest)
    ensures ParseDoc(text + rest) == Got(NumDoc(text), rest)
  {
    var t := text + rest;
    RunBack(text, rest);
    assert NumberUnit(t[0]) && t[..|text|] == text && t[|text|..] == rest;
  }

  lemma ReadsString(t: Text)
    ensures ParseDoc([QUOTE] + t) == (var s := ParseChars(t); if s.Bad? then Bad else Got(StrDoc(s.value), s.rest))
  {
    assert ([QUOTE] + t)[0] == QUOTE && ([QUOTE] + t)[1..] == t;
  }

  lemma ReadsEmpty(t: Text)
    ensures ParseDoc([OPEN_LIST, CLOSE_LIST] + t) == Got(ArrDoc(Nil), t)
    ensures ParseDoc([OPEN_OBJECT, CLOSE_OBJECT] + t) == Got(ObjDoc(Nil), t)
  {
    var a, o := [OPEN_LIST, CLOSE_LIST] + t, [OPEN_OBJECT, CLOSE_OBJECT] + t;
    assert a[0] == OPEN_LIST && a[1] == CLOSE_LIST && a[2..] == t;
    assert o[0] == OPEN_OBJECT && o[1] == CLOSE_OBJECT && o[2..] == t;
  }

  lemma ReadsList(t: Text)
    requires t != [] && t[0] != CLOSE_LIST
    ensures ParseDoc([OPEN_LIST] + t) ==
      (var items := ParseItems(t); if items.Bad? then Bad else Got(ArrDoc(items.value), items.rest))
  {
    var a := [OPEN_LIST] + t;
    assert a[0] == OPEN_LIST && a[1] == t[0] && a[1..] == t;
  }

  lemma ReadsObject(t: Text)
    requires t != [] && t[0] != CLOSE_OBJECT
    ensures ParseDoc([OPEN_OBJECT] + t) ==
      (var fields := ParseFields(t); if fields.Bad? then Bad else Got(ObjDoc(fields.value), fields.rest))
  {
    var o := [OPEN_OBJECT] + t;
    assert o[0] == OPEN_OBJECT && o[1] == t[0] && o[1..] == t;
  }

  /** Reading a value's text back gives the value, whatever follows it. */
  lemma {:induction false} DocBack(d: Doc, rest: Text)
    requires WellFormed(d) && Ends(rest)
    ensures ParseDoc(Write(d) + rest) == Got(d, rest)
    decreases d
  {
    hide ParseDoc, ParseChars, ParseItems, ParseFields, Escaped;
    match d
    case NullDoc => ReadsWord(d, rest);
    case BoolDoc(_) => ReadsWord(d, rest);
    case NumDoc(text) => ReadsNumber(text, rest);
    case StrDoc(s) =>
      CharsBack(s, rest);
      assert Write(d) + rest == [QUOTE] + (Escaped(s) + [QUOTE] + rest);
      ReadsString(Escaped(s) + [QUOTE] + rest);
    case ArrDoc(items) =>
      if items.Nil? {
        assert Write(d) + rest == [OPEN_LIST, CLOSE_LIST] + rest;
        ReadsEmpty(rest);
      } else {
        var t := WriteItems(items) + [CLOSE_LIST] + rest;
        ItemsBack(items, rest);
        FirstItem(items, [CLOSE_LIST] + rest);
        assert t == WriteItems(items) + ([CLOSE_LIST] + rest) && Write(d) + rest == [OPEN_LIST] + t;
        ReadsList(t);
      }
    case ObjDoc(fields) =>
      if fields.Nil? {
        assert Write(d) + rest == [OPEN_OBJECT, CLOSE_OBJECT] + rest;
        ReadsEmpty(rest);
      } else {
        var t := WriteFields(fields) + [CLOSE_OBJECT] + rest;
        FieldsBack(fields, rest);
        assert WriteFields(fields)[0] == QUOTE && Write(d) + rest == [OPEN_OBJECT] + t;
        ReadsObject(t);
      }
  }

  lemma FirstItem(items: List<Doc>, rest: Text)
    requires items.Cons? && AllWellFormed(items)
    ensures WriteItems(items) != [] && (WriteItems(items) + rest)[0] != CLOSE_LIST
  {
    BeginsAsValue(items.head, []);
    assert Write(items.head) + [] == Write(items.head);
  }

  lemma ReadsItem(t: Text, d: Doc, after: Text)
    requires ParseDoc(t) == Got(d, after) && after != []
    ensures after[0] == CLOSE_LIST ==> ParseItems(t) == Got(Cons(d, Nil), after[1..])
    ensures after[0] == COMMA ==>
      ParseItems(t) == (var more := ParseItems(after[1..]); if more.Bad? then Bad
                        else Got(Cons(d, more.value), more.rest))
  {
    hide ParseDoc;
  }

  lemma {:induction false} ItemsBack(items: List<Doc>, rest: Text)
    requires items.Cons? && AllWellFormed(items)
    ensures ParseItems(WriteItems(items) + [CLOSE_LIST] + rest) == Got(items, rest)
    decreases items
  {
    hide ParseItems, ParseDoc, Write;
    var t := WriteItems(items) + [CLOSE_LIST] + rest;
    var after := if items.tail.Nil? then [CLOSE_LIST] + rest
      else [COMMA] + (WriteItems(items.tail) + [CLOSE_LIST] + rest);
    assert t == Write(items.head) + after;
    DocBack(items.head, after);
    ReadsItem(t, items.head, after);
    if items.tail.Nil? {
      assert after[1..] == rest;
    } else {
      assert after[1..] == WriteItems(items.tail) + [CLOSE_LIST] + rest;
      ItemsBack(items.tail, rest);
    }
  }

  lemma ReadsField(t: Text, k: Text, value: Text, d: Doc, after: Text)
    requires ParseChars(t) == Got(k, [COLON] + value) && ParseDoc(value) == Got(d, after) && after != []
    ensures after[0] == CLOSE_OBJECT ==> ParseFields([QUOTE] + t) == Got(Cons(Field(k, d), Nil), after[1..])
    ensures after[0] == COMMA ==>
      ParseFields([QUOTE] + t) ==
        (var more := ParseFields(after[1..]); if more.Bad? then Bad else Got(Cons(Field(k, d), more.value), more.rest))
  {
    assert ([QUOTE] + t)[1..] == t && ([COLON] + value)[1..] == value;
    hide ParseDoc, ParseChars;
  }

  lemma {:induction false} FieldsBack(fields: List<Field<Doc>>, rest: Text)
    requires fields.Cons? && FieldsWellFormed(fields)
    ensures ParseFields(WriteFields(fields) + [CLOSE_OBJECT] + rest) == Got(fields, rest)
    decreases fields
  {
    hide ParseFields, ParseDoc, ParseChars, Write, Escaped;
    var f := fields.head;
    var after := if fields.tail.Nil? then [CLOSE_OBJECT] + rest
      else [COMMA] + (WriteFields(fields.tail) + [CLOSE_OBJECT] + rest);
    var value := Write(f.value) + after;
    var t := Escaped(f.key) + [QUOTE] + ([COLON] + value);
    assert WriteFields(fields) + [CLOSE_OBJECT] + rest == [QUOTE] + t;
    CharsBack(f.key, [COLON] + value);
    DocBack(f.value, after);
    ReadsField(t, f.key, value, f.value, after);
    if fields.tail.Nil? {
      assert after[1..] == rest;
    } else {
      assert after[1..] == WriteFields(fields.tail) + [CLOSE_OBJECT] + rest;
      FieldsBack(fields.tail, rest);
    }
  }
}
