/**
 JSON with sorted keys: one text for all the values that agree up to key order.

 `before` stands for `localeCompare(a, b) < 0`, whatever the locale.
 */
module StableStringify {
  import opened JsonText

  /** A value a caller can pass. A number is the text `JSON.stringify` gives it; `None` is an undefined property. */
  datatype Value =
    | Null
    | Bool(b: bool)
    | Num(text: Text)
    | Str(s: Text)
    | Arr(items: List<Value>)
    | Obj(props: List<Field<Option<Value>>>)

  type Before = (Text, Text) -> bool

  // ---------------------------------------------------------------- sorting

  predicate In<T(==)>(f: Field<T>, fs: List<Field<T>>) {
    fs.Cons? && (f == fs.head || In(f, fs.tail))
  }

  predicate HasKey<T>(k: Text, fs: List<Field<T>>) {
    fs.Cons? && (k == fs.head.key || HasKey(k, fs.tail))
  }

  predicate NoKeyTwice<T>(fs: List<Field<T>>) {
    fs.Cons? ==> !HasKey(fs.head.key, fs.tail) && NoKeyTwice(fs.tail)
  }

  function Insert<T>(before: Before, f: Field<T>, fs: List<Field<T>>): List<Field<T>> {
    if fs.Cons? && before(fs.head.key, f.key) then Cons(fs.head, Insert(before, f, fs.tail)) else Cons(f, fs)
  }

  /** The stable sort by key: fields whose keys tie stay as they came. */
  function Sorted<T>(before: Before, fs: List<Field<T>>): List<Field<T>> {
    if fs.Nil? then Nil else Insert(before, fs.head, Sorted(before, fs.tail))
  }

  /** What a comparator must be to sort by. */
  ghost predicate Orders(before: Before) {
    && (forall a :: !before(a, a))
    && (forall a, b, c :: before(a, b) && before(b, c) ==> before(a, c))
    && (forall a, b, c :: before(a, b) ==> before(a, c) || before(c, b))
  }

  predicate Ties(before: Before, a: Text, b: Text) { a != b && !before(a, b) && !before(b, a) }

  lemma {:induction false} InsertHolds<T>(before: Before, f: Field<T>, fs: List<Field<T>>, x: Field<T>)
    ensures In(x, Insert(before, f, fs)) <==> x == f || In(x, fs)
    ensures forall k :: HasKey(k, Insert(before, f, fs)) <==> k == f.key || HasKey(k, fs)
  {
    if fs.Cons? && before(fs.head.key, f.key) { InsertHolds(before, f, fs.tail, x); }
  }

  lemma {:induction false} SortedHolds<T>(before: Before, fs: List<Field<T>>, x: Field<T>)
    ensures In(x, Sorted(before, fs)) <==> In(x, fs)
    ensures forall k :: HasKey(k, Sorted(before, fs)) <==> HasKey(k, fs)
  {
    if fs.Cons? {
      SortedHolds(before, fs.tail, x);
      InsertHolds(before, fs.head, Sorted(before, fs.tail), x);
    }
  }

  // ------------------------------------------------------ the serializer

  function StringifyItems(before: Before, items: List<Value>): List<Text> {
    match items
    case Nil => Nil
    case Cons(v, rest) => Cons(Stringify(before, v), StringifyItems(before, rest))
  }

  /** The defined properties, each with its value's text. */
  function StringifyProps(before: Before, props: List<Field<Option<Value>>>): List<Field<Text>> {
    match props
    case Nil => Nil
    case Cons(p, rest) =>
      if p.value.None? then StringifyProps(before, rest)
      else Cons(Field(p.key, Stringify(before, p.value.value)), StringifyProps(before, rest))
  }

  function JoinItems(texts: List<Text>): Text {
    match texts
    case Nil => []
    case Cons(t, Nil) => t
    case Cons(t, rest) => t + [COMMA] + JoinItems(rest)
  }

  function JoinProps(fields: List<Field<Text>>): Text {
    match fields
    case Nil => []
    case Cons(f, Nil) => Quoted(f.key) + [COLON] + f.value
    case Cons(f, rest) => Quoted(f.key) + [COLON] + f.value + [COMMA] + JoinProps(rest)
  }

  function Stringify(before: Before, v: Value): Text {
    match v
    case Null => NULL_TEXT
    case Bool(b) => if b then TRUE_TEXT else FALSE_TEXT
    case Num(text) => text
    case Str(s) => Quoted(s)
    case Arr(items) => [OPEN_LIST] + JoinItems(StringifyItems(before, items)) + [CLOSE_LIST]
    case Obj(props) => [OPEN_OBJECT] + JoinProps(Sorted(before, StringifyProps(before, props))) + [CLOSE_OBJECT]
  }

  /** A value as it comes from JSON: numbers have a number's text, and no object has a key twice. */
  predicate Proper(v: Value) {
    match v
    case Num(text) => NumberText(text)
    case Arr(items) => AllProper(items)
    case Obj(props) => NoKeyTwice(props) && PropsProper(props)
    case _ => true
  }

  predicate AllProper(items: List<Value>) {
    items.Cons? ==> Proper(items.head) && AllProper(items.tail)
  }

  predicate PropsProper(props: List<Field<Option<Value>>>) {
    props.Cons? ==> (props.head.value.Some? ==> Proper(props.head.value.value)) && PropsProper(props.tail)
  }

  // ------------------------------------------------- the canonical form

  function CanonItems(before: Before, items: List<Value>): List<Doc> {
    match items
    case Nil => Nil
    case Cons(v, rest) => Cons(Canon(before, v), CanonItems(before, rest))
  }

  function CanonProps(before: Before, props: List<Field<Option<Value>>>): List<Field<Doc>> {
    match props
    case Nil => Nil
    case Cons(p, rest) =>
      if p.value.None? then CanonProps(before, rest)
      else Cons(Field(p.key, Canon(before, p.value.value)), CanonProps(before, rest))
  }

  /** The value with its keys sorted and its undefined properties dropped, at every depth. */
  function Canon(before: Before, v: Value): Doc {
    match v
    case Null => NullDoc
    case Bool(b) => BoolDoc(b)
    case Num(text) => NumDoc(text)
    case Str(s) => StrDoc(s)
    case Arr(items) => ArrDoc(CanonItems(before, items))
    case Obj(props) => ObjDoc(Sorted(before, CanonProps(before, props)))
  }

  /** Field by field, the texts are those of the documents. */
  predicate Written(texts: List<Field<Text>>, docs: List<Field<Doc>>) {
    match docs
    case Nil => texts.Nil?
    case Cons(d, rest) => texts.Cons? && texts.head == Field(d.key, Write(d.value)) && Written(texts.tail, rest)
  }

  lemma {:induction false} InsertWritten(before: Before, t: Field<Text>, texts: List<Field<Text>>, d: Field<Doc>,
                                         docs: List<Field<Doc>>)
    requires Written(texts, docs) && t == Field(d.key, Write(d.value))
    ensures Written(Insert(before, t, texts), Insert(before, d, docs))
  {
    if docs.Cons? && before(docs.head.key, d.key) { InsertWritten(before, t, texts.tail, d, docs.tail); }
  }

  lemma {:induction false} SortedWritten(before: Before, texts: List<Field<Text>>, docs: List<Field<Doc>>)
    requires Written(texts, docs)
    ensures Written(Sorted(before, texts), Sorted(before, docs))
  {
    if docs.Cons? {
      SortedWritten(before, texts.tail, docs.tail);
      InsertWritten(before, texts.head, Sorted(before, texts.tail), docs.head, Sorted(before, docs.tail));
    }
  }

  lemma {:induction false} JoinWritten(texts: List<Field<Text>>, docs: List<Field<Doc>>)
    requires Written(texts, docs)
    ensures JoinProps(texts) == WriteFields(docs)
  {
    if docs.Cons? { JoinWritten(texts.tail, docs.tail); }
  }

  /** The text is that of the canonical form. */
  lemma {:induction false} WritesCanon(before: Before, v: Value)
    ensures Stringify(before, v) == Write(Canon(before, v))
    decreases v
  {
    match v
    case Arr(items) => WritesItems(before, items);
    case Obj(props) =>
      WritesProps(before, props);
      SortedWritten(before, StringifyProps(before, props), CanonProps(before, props));
      JoinWritten(Sorted(before, StringifyProps(before, props)), Sorted(before, CanonProps(before, props)));
    case _ =>
  }

  lemma {:induction false} WritesItems(before: Before, items: List<Value>)
    ensures JoinItems(StringifyItems(before, items)) == WriteItems(CanonItems(before, items))
    decreases items
  {
    if items.Cons? {
      WritesCanon(before, items.head);
      WritesItems(before, items.tail);
    }
  }

  lemma {:induction false} WritesProps(before: Before, props: List<Field<Option<Value>>>)
    ensures Written(StringifyProps(before, props), CanonProps(before, props))
    decreases props
  {
    if props.Cons? {
      if props.head.value.Some? { WritesCanon(before, props.head.value.value); }
      WritesProps(before, props.tail);
    }
  }

  lemma {:induction false} InsertWellFormed(before: Before, f: Field<Doc>, fs: List<Field<Doc>>)
    requires WellFormed(f.value) && FieldsWellFormed(fs)
    ensures FieldsWellFormed(Insert(before, f, fs))
  {
    if fs.Cons? && before(fs.head.key, f.key) { InsertWellFormed(before, f, fs.tail); }
  }

  lemma {:induction false} SortedWellFormed(before: Before, fs: List<Field<Doc>>)
    requires FieldsWellFormed(fs)
    ensures FieldsWellFormed(Sorted(before, fs))
  {
    if fs.Cons? {
      SortedWellFormed(before, fs.tail);
      InsertWellFormed(before, fs.head, Sorted(before, fs.tail));
    }
  }

  lemma {:induction false} CanonWellFormed(before: Before, v: Value)
    requires Proper(v)
    ensures WellFormed(Canon(before, v))
    decreases v
  {
    match v
    case Arr(items) => ItemsWellFormed(before, items);
    case Obj(props) =>
      PropsWellFormed(before, props);
      SortedWellFormed(before, CanonProps(before, props));
    case _ =>
  }

  lemma {:induction false} ItemsWellFormed(before: Before, items: List<Value>)
    requires AllProper(items)
    ensures AllWellFormed(CanonItems(before, items))
    decreases items
  {
    if items.Cons? {
      CanonWellFormed(before, items.head);
      ItemsWellFormed(before, items.tail);
    }
  }

  lemma {:induction false} PropsWellFormed(before: Before, props: List<Field<Option<Value>>>)
    requires PropsProper(props)
    ensures FieldsWellFormed(CanonProps(before, props))
    decreases props
  {
    if props.Cons? {
      if props.head.value.Some? { CanonWellFormed(before, props.head.value.value); }
      PropsWellFormed(before, props.tail);
    }
  }

  /** Parsing the text recovers the value with sorted keys and no undefined properties. */
  lemma ParsesToCanon(before: Before, v: Value)
    requires Proper(v)
    ensures ParseDoc(Stringify(before, v)) == Got(Canon(before, v), [])
  {
    WritesCanon(before, v);
    CanonWellFormed(before, v);
    DocBack(Canon(before, v), []);
    assert Write(Canon(before, v)) + [] == Write(Canon(before, v));
  }

  // --------------------------------------------- agreeing up to key order

  function Find(k: Text, props: List<Field<Option<Value>>>): Option<Value> {
    if props.Nil? then None
    else if props.head.key == k && props.head.value.Some? then props.head.value
    else Find(k, props.tail)
  }

  /** Equal but for the order of keys, and undefined properties, at any depth. */
  predicate Agree(v: Value, w: Value)
    decreases v
  {
    match v
    case Arr(items) => w.Arr? && ItemsAgree(items, w.items)
    case Obj(props) => w.Obj? && PropsAgree(props, w.props) && Defines(props, w.props)
    case _ => v == w
  }

  predicate ItemsAgree(vs: List<Value>, ws: List<Value>)
    decreases vs
  {
    match vs
    case Nil => ws.Nil?
    case Cons(v, rest) => ws.Cons? && Agree(v, ws.head) && ItemsAgree(rest, ws.tail)
  }

  /** Every defined property of the one is in the other, and agrees. */
  predicate PropsAgree(ps: List<Field<Option<Value>>>, qs: List<Field<Option<Value>>>)
    decreases ps
  {
    match ps
    case Nil => true
    case Cons(p, rest) =>
      && (p.value.Some? ==> Find(p.key, qs).Some? && Agree(p.value.value, Find(p.key, qs).value))
      && PropsAgree(rest, qs)
  }

  /** The one defines every key the other does. */
  predicate Defines(ps: List<Field<Option<Value>>>, qs: List<Field<Option<Value>>>) {
    qs.Cons? ==> (qs.head.value.Some? ==> Find(qs.head.key, ps).Some?) && Defines(ps, qs.tail)
  }

  lemma {:induction false} FoundIsCanon(before: Before, ps: List<Field<Option<Value>>>, f: Field<Doc>)
    requires NoKeyTwice(ps)
    ensures In(f, CanonProps(before, ps)) <==> Find(f.key, ps).Some? && f.value == Canon(before, Find(f.key, ps).value)
    ensures Find(f.key, ps).Some? ==> HasKey(f.key, ps)
    ensures HasKey(f.key, CanonProps(before, ps)) <==> Find(f.key, ps).Some?
  {
    if ps.Cons? { FoundIsCanon(before, ps.tail, f); }
  }

  lemma {:induction false} FoundIsProper(k: Text, ps: List<Field<Option<Value>>>)
    requires PropsProper(ps) && Find(k, ps).Some?
    ensures Proper(Find(k, ps).value)
  {
    if !(ps.head.key == k && ps.head.value.Some?) { FoundIsProper(k, ps.tail); }
  }

  /** One canonical form, so agreement. */
  lemma {:induction false} SameCanonAgrees(before: Before, v: Value, w: Value)
    requires Proper(v) && Proper(w) && Canon(before, v) == Canon(before, w)
    ensures Agree(v, w)
    decreases v
  {
    match v
    case Arr(items) => SameItemsAgree(before, items, w.items);
    case Obj(props) =>
      forall f ensures In(f, CanonProps(before, props)) <==> In(f, CanonProps(before, w.props)) {
        SortedHolds(before, CanonProps(before, props), f);
        SortedHolds(before, CanonProps(before, w.props), f);
      }
      SamePropsAgree(before, props, w.props);
      forall k ensures Find(k, w.props).Some? ==> Find(k, props).Some? {
        if Find(k, w.props).Some? {
          var f := Field(k, Canon(before, Find(k, w.props).value));
          FoundIsCanon(before, w.props, f);
          FoundIsCanon(before, props, f);
        }
      }
      AllDefined(props, w.props, w.props);
    case _ =>
  }

  lemma {:induction false} SameItemsAgree(before: Before, vs: List<Value>, ws: List<Value>)
    requires AllProper(vs) && AllProper(ws) && CanonItems(before, vs) == CanonItems(before, ws)
    ensures ItemsAgree(vs, ws)
    decreases vs
  {
    if vs.Cons? {
      SameCanonAgrees(before, vs.head, ws.head);
      SameItemsAgree(before, vs.tail, ws.tail);
    }
  }

  lemma {:induction false} SamePropsAgree(before: Before, ps: List<Field<Option<Value>>>,
                                          qs: List<Field<Option<Value>>>)
    requires PropsProper(ps) && PropsProper(qs) && NoKeyTwice(qs)
    requires forall f :: In(f, CanonProps(before, ps)) ==> In(f, CanonProps(before, qs))
    ensures PropsAgree(ps, qs)
    decreases ps
  {
    if ps.Cons? {
      var p := ps.head;
      if p.value.Some? {
        var f := Field(p.key, Canon(before, p.value.value));
        assert In(f, CanonProps(before, ps));
        FoundIsCanon(before, qs, f);
        FoundIsProper(p.key, qs);
        SameCanonAgrees(before, p.value.value, Find(p.key, qs).value);
      }
      assert forall f :: In(f, CanonProps(before, ps.tail)) ==> In(f, CanonProps(before, ps));
      SamePropsAgree(before, ps.tail, qs);
    }
  }

  lemma {:induction false} AllDefined(ps: List<Field<Option<Value>>>, qs: List<Field<Option<Value>>>,
                                      all: List<Field<Option<Value>>>)
    requires NoKeyTwice(all) && forall k :: Find(k, all).Some? ==> Find(k, ps).Some?
    requires forall f :: In(f, qs) ==> In(f, all)
    ensures Defines(ps, qs)
    decreases qs
  {
    if qs.Cons? {
      if qs.head.value.Some? {
        assert In(qs.head, all);
        InIsFound(qs.head, all);
      }
      AllDefined(ps, qs.tail, all);
    }
  }

  lemma {:induction false} InIsFound(f: Field<Option<Value>>, ps: List<Field<Option<Value>>>)
    requires In(f, ps) && f.value.Some?
    ensures Find(f.key, ps).Some?
  {
    if !(ps.head.key == f.key && ps.head.value.Some?) { InIsFound(f, ps.tail); }
  }

  /** Values with equal texts agree, whatever the comparator. */
  lemma EqualTextAgrees(before: Before, v: Value, w: Value)
    requires Proper(v) && Proper(w) && Stringify(before, v) == Stringify(before, w)
    ensures Agree(v, w)
  {
    ParsesToCanon(before, v);
    ParsesToCanon(before, w);
    SameCanonAgrees(before, v, w);
  }

  // ------------------------------------- agreeing values have one text

  /** No two keys of any object in the value tie. */
  ghost predicate Untied(before: Before, v: Value) {
    match v
    case Arr(items) => ItemsUntied(before, items)
    case Obj(props) =>
      && (forall a, b :: Find(a, props).Some? && Find(b, props).Some? ==> !Ties(before, a, b))
      && PropsUntied(before, props)
    case _ => true
  }

  ghost predicate ItemsUntied(before: Before, items: List<Value>) {
    items.Cons? ==> Untied(before, items.head) && ItemsUntied(before, items.tail)
  }

  ghost predicate PropsUntied(before: Before, props: List<Field<Option<Value>>>) {
    props.Cons? ==>
      && (props.head.value.Some? ==> Untied(before, props.head.value.value))
      && PropsUntied(before, props.tail)
  }

  ghost predicate Ascending(before: Before, fs: List<Field<Doc>>) {
    fs.Cons? ==> (forall f :: In(f, fs.tail) ==> before(fs.head.key, f.key)) && Ascending(before, fs.tail)
  }

  lemma {:induction false} InsertAscends(before: Before, f: Field<Doc>, fs: List<Field<Doc>>)
    requires Orders(before) && Ascending(before, fs)
    requires forall x :: In(x, fs) ==> before(f.key, x.key) || before(x.key, f.key)
    ensures Ascending(before, Insert(before, f, fs))
  {
    if fs.Cons? && before(fs.head.key, f.key) {
      InsertAscends(before, f, fs.tail);
      forall x ensures In(x, Insert(before, f, fs.tail)) <==> x == f || In(x, fs.tail) {
        InsertHolds(before, f, fs.tail, x);
      }
    } else if fs.Cons? {
      assert before(f.key, fs.head.key);
    }
  }

  lemma {:induction false} SortedAscends(before: Before, fs: List<Field<Doc>>)
    requires Orders(before) && NoKeyTwice(fs)
    requires forall a, b :: HasKey(a, fs) && HasKey(b, fs) ==> !Ties(before, a, b)
    ensures Ascending(before, Sorted(before, fs))
  {
    if fs.Cons? {
      SortedAscends(before, fs.tail);
      forall x | In(x, Sorted(before, fs.tail)) ensures before(fs.head.key, x.key) || before(x.key, fs.head.key) {
        SortedHolds(before, fs.tail, x);
        InHasKey(x, fs.tail);
        assert !Ties(before, fs.head.key, x.key);
      }
      InsertAscends(before, fs.head, Sorted(before, fs.tail));
    }
  }

  lemma {:induction false} InHasKey(f: Field<Doc>, fs: List<Field<Doc>>)
    requires In(f, fs)
    ensures HasKey(f.key, fs)
  {
    if f != fs.head { InHasKey(f, fs.tail); }
  }

  /** Ascending lists of the same fields are the same list. */
  lemma {:induction false} AscendingIsUnique(before: Before, xs: List<Field<Doc>>, ys: List<Field<Doc>>)
    requires Orders(before) && Ascending(before, xs) && Ascending(before, ys)
    requires forall f :: In(f, xs) <==> In(f, ys)
    ensures xs == ys
  {
    HeadIn(xs);
    HeadIn(ys);
    if xs.Cons? {
      assert !In(xs.head, xs.tail) && !In(ys.head, ys.tail);
      forall f ensures In(f, xs.tail) <==> In(f, ys.tail) {
        assert In(f, xs) <==> In(f, ys);
      }
      AscendingIsUnique(before, xs.tail, ys.tail);
    }
  }

  lemma HeadIn(fs: List<Field<Doc>>)
    ensures fs.Cons? ==> In(fs.head, fs)
  {
  }

  lemma {:induction false} CanonKeysOnce(before: Before, ps: List<Field<Option<Value>>>)
    requires NoKeyTwice(ps)
    ensures NoKeyTwice(CanonProps(before, ps))
    ensures forall k :: HasKey(k, CanonProps(before, ps)) <==> Find(k, ps).Some?
  {
    forall k ensures HasKey(k, CanonProps(before, ps)) <==> Find(k, ps).Some? {
      FoundIsCanon(before, ps, Field(k, NullDoc));
    }
    if ps.Cons? {
      CanonKeysOnce(before, ps.tail);
      FoundIsCanon(before, ps.tail, Field(ps.head.key, NullDoc));
    }
  }

  lemma {:induction false} AgreeingSameCanon(before: Before, v: Value, w: Value)
    requires Orders(before) && Proper(v) && Proper(w) && Agree(v, w) && Untied(before, v)
    ensures Canon(before, v) == Canon(before, w)
    decreases v
  {
    match v
    case Arr(items) => AgreeingItems(before, items, w.items);
    case Obj(props) =>
      var ps, qs := CanonProps(before, props), CanonProps(before, w.props);
      AgreeingProps(before, props, w.props);
      DefinedBack(props, w.props);
      forall f ensures In(f, ps) <==> In(f, qs) {
        FoundIsCanon(before, props, f);
        FoundIsCanon(before, w.props, f);
      }
      forall f ensures In(f, Sorted(before, ps)) <==> In(f, Sorted(before, qs)) {
        SortedHolds(before, ps, f);
        SortedHolds(before, qs, f);
      }
      CanonKeysOnce(before, props);
      CanonKeysOnce(before, w.props);
      SortedAscends(before, ps);
      SortedAscends(before, qs);
      AscendingIsUnique(before, Sorted(before, ps), Sorted(before, qs));
    case _ =>
  }

  lemma {:induction false} AgreeingItems(before: Before, vs: List<Value>, ws: List<Value>)
    requires Orders(before) && AllProper(vs) && AllProper(ws) && ItemsAgree(vs, ws) && ItemsUntied(before, vs)
    ensures CanonItems(before, vs) == CanonItems(before, ws)
    decreases vs
  {
    if vs.Cons? {
      AgreeingSameCanon(before, vs.head, ws.head);
      AgreeingItems(before, vs.tail, ws.tail);
    }
  }

  lemma {:induction false} AgreeingProps(before: Before, ps: List<Field<Option<Value>>>, qs: List<Field<Option<Value>>>)
    requires Orders(before) && PropsProper(ps) && PropsProper(qs) && PropsAgree(ps, qs) && PropsUntied(before, ps)
    ensures forall k :: Find(k, ps).Some? ==>
      Find(k, qs).Some? && Canon(before, Find(k, ps).value) == Canon(before, Find(k, qs).value)
    decreases ps
  {
    if ps.Cons? {
      var p := ps.head;
      if p.value.Some? {
        FoundIsProper(p.key, qs);
        AgreeingSameCanon(before, p.value.value, Find(p.key, qs).value);
      }
      AgreeingProps(before, ps.tail, qs);
    }
  }

  lemma {:induction false} DefinedBack(ps: List<Field<Option<Value>>>, qs: List<Field<Option<Value>>>)
    requires Defines(ps, qs)
    ensures forall k :: Find(k, qs).Some? ==> Find(k, ps).Some?
  {
    if qs.Cons? { DefinedBack(ps, qs.tail); }
  }

  /** Two values have one text exactly when they agree up to key order, where no two keys of an object tie. */
  lemma OneTextExactlyWhenAgreeing(before: Before, v: Value, w: Value)
    requires Orders(before) && Proper(v) && Proper(w) && Untied(before, v)
    ensures Stringify(before, v) == Stringify(before, w) <==> Agree(v, w)
  {
    if Agree(v, w) {
      AgreeingSameCanon(before, v, w);
      WritesCanon(before, v);
      WritesCanon(before, w);
    } else if Stringify(before, v) == Stringify(before, w) {
      EqualTextAgrees(before, v, w);
    }
  }

  /** An object of two keys that map to null. */
  function Pair(a: Text, b: Text): Value { Obj(Cons(Field(a, Some(Null)), Cons(Field(b, Some(Null)), Nil))) }

  lemma PairCanon(before: Before, a: Text, b: Text)
    requires Ties(before, a, b)
    ensures Proper(Pair(a, b))
    ensures Canon(before, Pair(a, b)) == ObjDoc(Cons(Field(a, NullDoc), Cons(Field(b, NullDoc), Nil)))
  {
    var none: List<Field<Option<Value>>> := Nil;
    var last := Cons(Field(b, Some(Null)), none);
    assert NoKeyTwice(last) && PropsProper(last) && !HasKey(a, last);
    assert CanonProps(before, none) == Nil && CanonProps(before, last) == Cons(Field(b, NullDoc), Nil);
    var d, e: List<Field<Doc>> := Field(a, NullDoc), Cons(Field(b, NullDoc), Nil);
    assert CanonProps(before, Pair(a, b).props) == Cons(d, e);
    assert Sorted(before, e.tail) == Nil && Sorted(before, e) == e;
    assert Insert(before, d, e) == Cons(d, e);
  }

  lemma PairsAgree(a: Text, b: Text)
    requires a != b
    ensures Agree(Pair(a, b), Pair(b, a))
  {
    var ps, qs := Pair(a, b).props, Pair(b, a).props;
    assert Find(b, qs) == Some(Null) && Find(a, ps) == Some(Null);
    assert Find(a, qs.tail) == Some(Null) && Find(b, ps.tail) == Some(Null);
    assert PropsAgree(ps.tail.tail, qs) && PropsAgree(ps.tail, qs) && PropsAgree(ps, qs);
    assert Defines(ps, qs.tail.tail) && Defines(ps, qs.tail) && Defines(ps, qs);
  }

  /** Keys that tie come out in the order they came in: two texts for objects that agree. */
  lemma TiedKeysGiveTwoTexts(before: Before, a: Text, b: Text)
    requires Ties(before, a, b)
    ensures Proper(Pair(a, b)) && Proper(Pair(b, a)) && Agree(Pair(a, b), Pair(b, a))
    ensures Stringify(before, Pair(a, b)) != Stringify(before, Pair(b, a))
  {
    PairCanon(before, a, b);
    PairCanon(before, b, a);
    PairsAgree(a, b);
    ParsesToCanon(before, Pair(a, b));
    ParsesToCanon(before, Pair(b, a));
  }

  ghost predicate Canonical(before: Before) {
    forall v, w :: Proper(v) && Proper(w) ==> (Stringify(before, v) == Stringify(before, w) <==> Agree(v, w))
  }

  lemma {:induction false} UntiedThroughout(before: Before, v: Value)
    requires forall a, b :: !Ties(before, a, b)
    ensures Untied(before, v)
    decreases v
  {
    match v
    case Arr(items) => UntiedItems(before, items);
    case Obj(props) => UntiedProps(before, props);
    case _ =>
  }

  lemma {:induction false} UntiedItems(before: Before, items: List<Value>)
    requires forall a, b :: !Ties(before, a, b)
    ensures ItemsUntied(before, items)
    decreases items
  {
    if items.Cons? {
      UntiedThroughout(before, items.head);
      UntiedItems(before, items.tail);
    }
  }

  lemma {:induction false} UntiedProps(before: Before, props: List<Field<Option<Value>>>)
    requires forall a, b :: !Ties(before, a, b)
    ensures PropsUntied(before, props)
    decreases props
  {
    if props.Cons? {
      if props.head.value.Some? { UntiedThroughout(before, props.head.value.value); }
      UntiedProps(before, props.tail);
    }
  }

  /** The text is canonical for all values exactly when the comparator tells any two keys apart. */
  lemma CanonicalExactly(before: Before)
    requires Orders(before)
    ensures Canonical(before) <==> forall a, b :: !Ties(before, a, b)
  {
    if a, b :| Ties(before, a, b) {
      TiedKeysGiveTwoTexts(before, a, b);
    } else {
      forall v, w | Proper(v) && Proper(w) ensures Stringify(before, v) == Stringify(before, w) <==> Agree(v, w) {
        UntiedThroughout(before, v);
        OneTextExactlyWhenAgreeing(before, v, w);
      }
    }
  }
}
