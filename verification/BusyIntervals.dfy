/**
 Busy intervals as the calendars report them: two texts each, cut down to a
 window and listed once.

 `parse` stands for `Date.parse`: the instant a text names, or nothing.
 */
module BusyIntervals {

  datatype Option<+T> = None | Some(value: T)

  datatype Interval = Interval(startUtc: string, endUtc: string)

  datatype Span = Span(from: int, to: int)

  type Parse = string -> Option<int>

  predicate Contains(outer: Span, inner: Span) {
    outer.from <= inner.from && outer.to >= inner.to
  }

  /** When both bounds parse, the interval's place in time. */
  function Bounds(parse: Parse, b: Interval): Option<(int, int)> {
    if parse(b.startUtc).Some? && parse(b.endUtc).Some?
    then Some((parse(b.startUtc).value, parse(b.endUtc).value)) else None
  }

  /** An interval whose bounds do not parse is taken to touch every window. */
  predicate Touches(parse: Parse, b: Interval, w: Span) {
    Bounds(parse, b).Some? ==> Bounds(parse, b).value.0 < w.to && Bounds(parse, b).value.1 > w.from
  }

  function Id(b: Interval): string { b.startUtc + "|" + b.endUtc }

  function Ids(xs: seq<Interval>): set<string> { set x | x in xs :: Id(x) }

  /** The intervals of `xs` that touch `w`, each id once and none of `seen`. */
  function ClipFrom(parse: Parse, xs: seq<Interval>, w: Span, seen: set<string>): seq<Interval> {
    if xs == [] then []
    else if !Touches(parse, xs[0], w) || Id(xs[0]) in seen then ClipFrom(parse, xs[1..], w, seen)
    else [xs[0]] + ClipFrom(parse, xs[1..], w, seen + {Id(xs[0])})
  }

  function Clip(parse: Parse, xs: seq<Interval>, w: Span): seq<Interval> {
    ClipFrom(parse, xs, w, {})
  }

  /** The loop over `out` and `seen`. */
  method ClipLoop(parse: Parse, intervals: seq<Interval>, w: Span) returns (out: seq<Interval>)
    ensures out == Clip(parse, intervals, w)
  {
    out := [];
    var seen: set<string> := {};
    var i := 0;
    while i < |intervals|
      invariant 0 <= i <= |intervals|
      invariant out + ClipFrom(parse, intervals[i..], w, seen) == Clip(parse, intervals, w)
    {
      var b := intervals[i];
      assert intervals[i..][1..] == intervals[i + 1..];
      if Touches(parse, b, w) && Id(b) !in seen {
        assert out + ([b] + ClipFrom(parse, intervals[i + 1..], w, seen + {Id(b)}))
            == out + [b] + ClipFrom(parse, intervals[i + 1..], w, seen + {Id(b)});
        seen := seen + {Id(b)};
        out := out + [b];
      }
      i := i + 1;
    }
  }

  /** What a clip holds: only touching intervals of `xs`, every touching id, no id twice. */
  lemma {:induction false} ClipFromHolds(parse: Parse, xs: seq<Interval>, w: Span, seen: set<string>)
    ensures forall x :: x in ClipFrom(parse, xs, w, seen) ==> x in xs && Touches(parse, x, w) && Id(x) !in seen
    ensures forall x :: x in xs && Touches(parse, x, w) && Id(x) !in seen ==> Id(x) in Ids(ClipFrom(parse, xs, w, seen))
    ensures forall i, j :: 0 <= i < j < |ClipFrom(parse, xs, w, seen)| ==>
      Id(ClipFrom(parse, xs, w, seen)[i]) != Id(ClipFrom(parse, xs, w, seen)[j])
  {
    if xs != [] {
      var b := xs[0];
      if !Touches(parse, b, w) || Id(b) in seen {
        ClipFromHolds(parse, xs[1..], w, seen);
      } else {
        ClipFromHolds(parse, xs[1..], w, seen + {Id(b)});
        var rest := ClipFrom(parse, xs[1..], w, seen + {Id(b)});
        assert ClipFrom(parse, xs, w, seen) == [b] + rest;
        assert Ids([b] + rest) == {Id(b)} + Ids(rest) by {
          assert forall x :: x in [b] + rest <==> x == b || x in rest;
        }
      }
    }
  }

  /** Two intervals listed under one id stand at the same place in time. */
  ghost predicate IdsTellBounds(parse: Parse) {
    forall x, y :: Id(x) == Id(y) ==> Bounds(parse, x) == Bounds(parse, y)
  }

  /** Clipping a clip, when ids already seen in the outer window are ones the inner clip would drop or has seen too. */
  lemma {:induction false} NestedClipFrom(parse: Parse, xs: seq<Interval>, outer: Span, inner: Span,
                                          seen: set<string>, kept: set<string>)
    requires IdsTellBounds(parse) && Contains(outer, inner) && kept <= seen
    requires forall x :: x in xs && Id(x) in seen && Touches(parse, x, inner) ==> Id(x) in kept
    ensures ClipFrom(parse, ClipFrom(parse, xs, outer, seen), inner, kept) == ClipFrom(parse, xs, inner, kept)
  {
    if xs != [] {
      var b := xs[0];
      assert forall x :: x in xs[1..] ==> x in xs;
      if !Touches(parse, b, outer) || Id(b) in seen {
        NestedClipFrom(parse, xs[1..], outer, inner, seen, kept);
      } else {
        var rest := ClipFrom(parse, xs[1..], outer, seen + {Id(b)});
        assert ([b] + rest)[1..] == rest;
        if Touches(parse, b, inner) {
          NestedClipFrom(parse, xs[1..], outer, inner, seen + {Id(b)}, kept + {Id(b)});
        } else {
          NestedClipFrom(parse, xs[1..], outer, inner, seen + {Id(b)}, kept);
        }
      }
    }
  }

  /** Clipping to a window and then to one inside it is clipping to the inner one. */
  lemma NestedClip(parse: Parse, xs: seq<Interval>, outer: Span, inner: Span)
    requires IdsTellBounds(parse) && Contains(outer, inner)
    ensures Clip(parse, Clip(parse, xs, outer), inner) == Clip(parse, xs, inner)
  {
    NestedClipFrom(parse, xs, outer, inner, {}, {});
  }

  ghost predicate ClipsNest(parse: Parse) {
    forall xs, outer, inner :: Contains(outer, inner) ==>
      Clip(parse, Clip(parse, xs, outer), inner) == Clip(parse, xs, inner)
  }

  /** Of two intervals with one id, a clip keeps the first that touches. */
  lemma ClipPair(parse: Parse, first: Interval, second: Interval, outer: Span, inner: Span)
    requires Id(first) == Id(second) && Touches(parse, first, outer)
    requires !Touches(parse, first, inner) && Touches(parse, second, inner)
    ensures Clip(parse, [first, second], outer) == [first]
    ensures Clip(parse, [first], inner) == [] && Clip(parse, [first, second], inner) == [second]
  {
    assert [first, second][1..] == [second] && [second][1..] == [] && [first][1..] == [];
    assert ClipFrom(parse, [second], outer, {} + {Id(first)}) == [];
    assert ClipFrom(parse, [second], inner, {}) == [second];
    assert ClipFrom(parse, [first], inner, {}) == ClipFrom(parse, [], inner, {}) == [];
  }

  /** One id at two places in time is enough to lose a busy interval. */
  lemma NestedClipLoses(parse: Parse, x: Interval, y: Interval)
    requires Id(x) == Id(y) && Bounds(parse, x).Some? && Bounds(parse, y) != Bounds(parse, x)
    ensures !ClipsNest(parse)
  {
    var (s, e) := Bounds(parse, x).value;
    var outer, inner, first, second;
    if Bounds(parse, y).None? {
      outer, inner, first, second := Span(e - 1, if s >= e then s + 1 else e), Span(e, e), x, y;
    } else {
      var (s', e') := Bounds(parse, y).value;
      var low := (if e < e' then e else e') - 1;
      var high := (if s < s' then s' else s) + 1;
      outer := Span(low, high);
      if s != s' {
        inner := Span(low, if s < s' then s' else s);
        first, second := if s < s' then y else x, if s < s' then x else y;
      } else {
        inner := Span(if e < e' then e else e', high);
        first, second := if e < e' then x else y, if e < e' then y else x;
      }
    }
    assert Contains(outer, inner);
    ClipPair(parse, first, second, outer, inner);
    assert Clip(parse, Clip(parse, [first, second], outer), inner) != Clip(parse, [first, second], inner);
  }

  /** Exactly when a held window answers a narrower request as a read of that request would. */
  lemma ClipsNestExactly(parse: Parse)
    ensures ClipsNest(parse) <==> IdsTellBounds(parse)
  {
    if IdsTellBounds(parse) {
      forall xs, outer, inner | Contains(outer, inner)
        ensures Clip(parse, Clip(parse, xs, outer), inner) == Clip(parse, xs, inner)
      {
        NestedClip(parse, xs, outer, inner);
      }
    } else {
      var x, y :| Id(x) == Id(y) && Bounds(parse, x) != Bounds(parse, y);
      if Bounds(parse, x).Some? { NestedClipLoses(parse, x, y); } else { NestedClipLoses(parse, y, x); }
    }
  }

  /** No text with a bar in it is a date. */
  ghost predicate BarsDoNotParse(parse: Parse) {
    forall t :: '|' in t ==> parse(t).None?
  }

  /** Two pairs of texts with one id: the longer start and the longer end each hold a bar. */
  lemma IdSplits(x: Interval, y: Interval)
    requires Id(x) == Id(y) && |x.startUtc| < |y.startUtc|
    ensures '|' in y.startUtc && '|' in x.endUtc
  {
    var n, m := |x.startUtc|, |y.startUtc|;
    assert y.startUtc[n] == Id(y)[n] == Id(x)[n] == '|';
    assert x.endUtc[m - n - 1] == Id(x)[m] == Id(y)[m] == '|';
  }

  lemma IdDecides(x: Interval, y: Interval)
    requires Id(x) == Id(y) && |x.startUtc| == |y.startUtc|
    ensures x == y
  {
    var n := |x.startUtc|;
    assert x.startUtc == Id(x)[..n] == Id(y)[..n] == y.startUtc;
    assert x.endUtc == Id(x)[n + 1..] == Id(y)[n + 1..] == y.endUtc;
  }

  lemma BarsDoNotParseSuffices(parse: Parse)
    requires BarsDoNotParse(parse)
    ensures IdsTellBounds(parse)
  {
    forall x, y | Id(x) == Id(y) ensures Bounds(parse, x) == Bounds(parse, y) {
      if |x.startUtc| < |y.startUtc| { IdSplits(x, y); }
      else if |x.startUtc| > |y.startUtc| { IdSplits(y, x); }
      else { IdDecides(x, y); }
    }
  }

  predicate BarFree(xs: seq<Interval>) {
    forall x :: x in xs ==> '|' !in x.startUtc
  }

  /** With no bar in the texts, a clip is the set of intervals touching the window, each once. */
  lemma ClipIsTheTouchingSet(parse: Parse, xs: seq<Interval>, w: Span)
    requires BarFree(xs)
    ensures forall x :: x in Clip(parse, xs, w) <==> x in xs && Touches(parse, x, w)
    ensures forall i, j :: 0 <= i < j < |Clip(parse, xs, w)| ==> Clip(parse, xs, w)[i] != Clip(parse, xs, w)[j]
  {
    ClipFromHolds(parse, xs, w, {});
    forall x | x in xs && Touches(parse, x, w) ensures x in Clip(parse, xs, w) {
      assert Id(x) in Ids(Clip(parse, xs, w));
      var y :| y in Clip(parse, xs, w) && Id(y) == Id(x);
      if |x.startUtc| < |y.startUtc| { IdSplits(x, y); }
      else if |x.startUtc| > |y.startUtc| { IdSplits(y, x); }
      else { IdDecides(x, y); }
    }
  }

  /** A provider's answer for a window: the calendar's events that touch it, in any order. */
  ghost predicate Reports(parse: Parse, raw: seq<Interval>, events: set<Interval>, w: Span) {
    forall x :: x in raw <==> x in events && Touches(parse, x, w)
  }

  ghost predicate NoBars(events: set<Interval>) {
    forall x :: x in events ==> '|' !in x.startUtc
  }

  const DAY_MS: int := 86_400_000

  /** A window widened to whole UTC days. */
  function Widen(w: Span): Span {
    Span(w.from / DAY_MS * DAY_MS, -((-w.to) / DAY_MS) * DAY_MS)
  }

  /** The widened window is the smallest one of whole days around the request. */
  lemma WidenIsTight(w: Span, days: Span)
    ensures Contains(Widen(w), w)
    ensures Widen(w).from % 86_400_000 == 0 && Widen(w).to % 86_400_000 == 0
    ensures days.from % 86_400_000 == 0 && days.to % 86_400_000 == 0 && Contains(days, w) ==> Contains(days, Widen(w))
  {
    if days.from % DAY_MS == 0 && days.to % DAY_MS == 0 && Contains(days, w) {
      assert days.from == days.from / DAY_MS * DAY_MS && days.to == days.to / DAY_MS * DAY_MS;
    }
  }
}
