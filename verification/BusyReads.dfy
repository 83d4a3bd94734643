/**
 The provider's own `listBusy`: the range cut into windows, each (connection,
 window) read by a pool of workers that give up together, and the answers put
 together with each interval once.
 */
module BusyReads {
  import opened BusyIntervals

  // -------------------------------------------------------- the windows

  predicate Splits(from: int, to: int, span: int) { to > from && span > 0 }

  /** The windows follow on from one another, from `from` to `to`, none empty or longer than `span`. */
  ghost predicate Tiles(ws: seq<Span>, from: int, to: int, span: int) {
    && ws != [] && ws[0].from == from && ws[|ws| - 1].to == to
    && (forall i :: 0 <= i < |ws| ==> ws[i].from < ws[i].to <= ws[i].from + span)
    && (forall i :: 0 <= i < |ws| - 1 ==> ws[i].to == ws[i + 1].from && ws[i].to == ws[i].from + span)
  }

  method SplitBusyWindow(from: int, to: int, span: int) returns (windows: seq<Span>)
    ensures Splits(from, to, span) ==> Tiles(windows, from, to, span)
    ensures !Splits(from, to, span) ==> windows == [Span(from, to)]
  {
    if !(to > from) || !(span > 0) {
      return [Span(from, to)];
    }
    windows := [];
    var start := from;
    while start < to
      invariant start == from <==> windows == []
      invariant start >= from
      invariant windows != [] ==>
        windows[0].from == from && windows[|windows| - 1].to == if start < to then start else to
      invariant windows != [] ==> windows[|windows| - 1].from + span == start && start - span < to
      invariant forall i :: 0 <= i < |windows| ==> windows[i].from < windows[i].to <= windows[i].from + span
      invariant forall i :: 0 <= i < |windows| - 1 ==> windows[i].to == windows[i + 1].from
      invariant forall i :: 0 <= i < |windows| - 1 ==> windows[i].to == windows[i].from + span
      decreases -start + to
    {
      windows := windows + [Span(start, if start + span < to then start + span else to)];
      start := start + span;
    }
  }

  predicate Meets(s: int, e: int, w: Span) { s < w.to && e > w.from }

  /** The first window that ends after `s`. */
  lemma {:induction false} FirstAfter(ws: seq<Span>, s: int) returns (k: nat)
    requires ws != [] && s < ws[|ws| - 1].to
    ensures k < |ws| && s < ws[k].to && forall i :: 0 <= i < k ==> ws[i].to <= s
  {
    k := 0;
    while s >= ws[k].to
      invariant k < |ws| && forall i :: 0 <= i < k ==> ws[i].to <= s
      decreases |ws| - k
    {
      k := k + 1;
    }
  }

  lemma {:induction false} Ascending(ws: seq<Span>, from: int, to: int, span: int, k: nat)
    requires Tiles(ws, from, to, span) && k < |ws|
    ensures from <= ws[k].from && ws[k].to <= to
    ensures forall i :: 0 <= i < k ==> ws[i].to <= ws[k].from
    decreases k
  {
    if k > 0 {
      Ascending(ws, from, to, span, k - 1);
      assert ws[k - 1].to == ws[k].from;
    }
    BelowTop(ws, from, to, span, k);
  }

  lemma {:induction false} BelowTop(ws: seq<Span>, from: int, to: int, span: int, k: nat)
    requires Tiles(ws, from, to, span) && k < |ws|
    ensures ws[k].to <= to
    decreases |ws| - k
  {
    if k + 1 < |ws| {
      BelowTop(ws, from, to, span, k + 1);
      assert ws[k].to == ws[k + 1].from;
    }
  }

  /** No gap and no overlap: every instant of the range lies in one window, and no other instant in any. */
  lemma TilesPartition(ws: seq<Span>, from: int, to: int, span: int, t: int)
    requires Tiles(ws, from, to, span)
    ensures from <= t < to <==> exists k :: 0 <= k < |ws| && ws[k].from <= t < ws[k].to
    ensures forall j, k ::
      0 <= j < |ws| && 0 <= k < |ws| && ws[j].from <= t < ws[j].to && ws[k].from <= t < ws[k].to ==> j == k
  {
    forall k | 0 <= k < |ws|
      ensures from <= ws[k].from && ws[k].to <= to && forall i :: 0 <= i < k ==> ws[i].to <= ws[k].from
    {
      Ascending(ws, from, to, span, k);
    }
    if from <= t < to {
      var k := FirstAfter(ws, t);
      if k > 0 { assert ws[k - 1].to == ws[k].from; }
      assert ws[k].from <= t < ws[k].to;
    }
  }

  /** A seam between two windows lies at or after the event's end and at or before its start. */
  predicate OnASeam(ws: seq<Span>, s: int, e: int) {
    exists k :: 0 <= k < |ws| - 1 && e <= ws[k].to <= s
  }

  /**
   Exactly which events are read: those that meet the range, but for one whose
   start is not before its end with a seam between.
   */
  lemma EventsReadExactly(ws: seq<Span>, from: int, to: int, span: int, s: int, e: int)
    requires Tiles(ws, from, to, span)
    ensures (exists k :: 0 <= k < |ws| && Meets(s, e, ws[k])) <==> Meets(s, e, Span(from, to)) && !OnASeam(ws, s, e)
  {
    if Meets(s, e, Span(from, to)) && !OnASeam(ws, s, e) {
      var k := FirstAfter(ws, s);
      if k > 0 { assert ws[k - 1].to == ws[k].from; }
      assert Meets(s, e, ws[k]);
    }
    forall k | 0 <= k < |ws| && Meets(s, e, ws[k]) ensures Meets(s, e, Span(from, to)) && !OnASeam(ws, s, e) {
      Ascending(ws, from, to, span, k);
      forall j | 0 <= j < |ws| - 1 ensures !(e <= ws[j].to <= s) {
        Ascending(ws, from, to, span, j);
        if j >= k { AscendingEnds(ws, from, to, span, k, j); }
      }
    }
  }

  lemma AscendingEnds(ws: seq<Span>, from: int, to: int, span: int, k: nat, j: nat)
    requires Tiles(ws, from, to, span) && k <= j < |ws|
    ensures ws[k].to <= ws[j].to
  {
    Ascending(ws, from, to, span, j);
  }

  /** So every event with a length that meets the range is read, and no other. */
  lemma EveryEventIsRead(ws: seq<Span>, from: int, to: int, span: int, s: int, e: int)
    requires Tiles(ws, from, to, span) && s < e
    ensures Meets(s, e, Span(from, to)) <==> exists k :: 0 <= k < |ws| && Meets(s, e, ws[k])
  {
    EventsReadExactly(ws, from, to, span, s, e);
  }

  /** And an event of no length that meets the range is missed exactly on a seam. */
  lemma InstantOnASeamIsMissed(ws: seq<Span>, from: int, to: int, span: int, t: int)
    requires Tiles(ws, from, to, span) && Meets(t, t, Span(from, to))
    ensures (forall k :: 0 <= k < |ws| ==> !Meets(t, t, ws[k])) <==>
      exists seam :: 0 <= seam < |ws| - 1 && ws[seam].to == t
  {
    EventsReadExactly(ws, from, to, span, t, t);
  }

  // ------------------------------------------------------------ the pool

  const CONCURRENCY: nat := 4
  const ATTEMPTS: nat := 3

  datatype Worker = Free | Asking(i: nat, attempt: nat) | Pausing(i: nat, attempt: nat) | Ended | Threw

  predicate On(w: Worker, i: nat) { (w.Asking? || w.Pausing?) && w.i == i }

  type Results = seq<Option<seq<Interval>>>

  /** What worker `k` is at: a read nobody else is on and that has no answer yet, sent `attempt` times. */
  predicate WorkerOk(k: nat, w: Worker, total: nat, next: nat, failed: bool, results: Results, sent: seq<nat>,
                     taker: seq<nat>) {
    match w
    case Free => true
    case Asking(i, attempt) =>
      i < next && i < |results| && i < |sent| && i < |taker| &&
      results[i].None? && taker[i] == k && sent[i] == attempt <= ATTEMPTS
    case Pausing(i, attempt) =>
      i < next && i < |results| && i < |sent| && i < |taker| &&
      results[i].None? && taker[i] == k && sent[i] == attempt < ATTEMPTS
    case Ended => failed || next == total
    case Threw => failed
  }

  /** A read not taken was not sent; one taken has its answer, or a worker on it, unless all is lost. */
  predicate ReadOk(i: nat, next: nat, failed: bool, results: Results, workers: seq<Worker>, sent: seq<nat>,
                   taker: seq<nat>)
    requires i < |results| && i < |sent| && i < |taker|
  {
    && sent[i] <= ATTEMPTS
    && (i >= next <==> sent[i] == 0)
    && (i >= next ==> results[i].None?)
    && (i < next && results[i].None? && !failed ==> taker[i] < |workers| && On(workers[taker[i]], i))
  }

  /** One read of several windows, `total` in all. One turn of the event loop is one method call. */
  class Pool {
    const total: nat
    var next: nat
    var failed: bool
    var results: Results
    var workers: seq<Worker>
    /** How often each read was sent, who took it, and a worker that threw once one has. */
    ghost var sent: seq<nat>
    ghost var taker: seq<nat>
    ghost var thrower: nat

    ghost predicate Valid()
      reads this
    {
      && next <= total && |results| == |sent| == |taker| == total
      && |workers| == (if total < CONCURRENCY then total else CONCURRENCY)
      && (failed ==> thrower < |workers| && workers[thrower].Threw?)
      && Consistent()
    }

    ghost predicate Consistent()
      requires |results| == |sent| == |taker| == total
      reads this
    {
      && (forall k {:trigger workers[k]} :: 0 <= k < |workers| ==>
          WorkerOk(k, workers[k], total, next, failed, results, sent, taker))
      && (forall i {:trigger results[i]} {:trigger sent[i]} :: 0 <= i < total ==>
          ReadOk(i, next, failed, results, workers, sent, taker))
    }

    lemma IsConsistent()
      requires |results| == |sent| == |taker| == total
      requires forall k :: 0 <= k < |workers| ==> WorkerOk(k, workers[k], total, next, failed, results, sent, taker)
      requires forall i :: 0 <= i < total ==> ReadOk(i, next, failed, results, workers, sent, taker)
      ensures Consistent()
    {
    }

    constructor (total: nat)
      ensures Valid() && this.total == total && next == 0 && !failed
      ensures |workers| == (if total < 4 then total else 4) && forall k :: 0 <= k < |workers| ==> workers[k].Free?
    {
      this.total, next, failed := total, 0, false;
      results := seq(total, i => None);
      sent, taker, thrower := seq(total, i => 0), seq(total, i => 0), 0;
      workers := seq(if total < CONCURRENCY then total else CONCURRENCY, i => Free);
      new;
      IsConsistent();
    }

    /** A free worker takes the next read, or ends: nothing more is begun once a read is lost. */
    method Take(k: nat)
      requires Valid() && k < |workers| && workers[k].Free?
      modifies `next, `workers, `sent, `taker
      ensures Valid()
      ensures old(failed || next == total) ==>
        workers == old(workers)[k := Ended] && next == old(next) && sent == old(sent)
      ensures !old(failed || next == total) ==>
        workers == old(workers)[k := Asking(old(next), 1)] && next == old(next) + 1 && sent == old(sent)[old(next) := 1]
    {
      if !failed && next < total {
        sent, taker := sent[next := 1], taker[next := k];
        workers := workers[k := Asking(next, 1)];
        next := next + 1;
        IsConsistent();
      } else {
        workers := workers[k := Ended];
        IsConsistent();
      }
    }

    /** The calendar answered. */
    method Answer(k: nat, intervals: seq<Interval>)
      requires Valid() && k < |workers| && workers[k].Asking?
      modifies `results, `workers
      ensures Valid() && workers == old(workers)[k := Free]
      ensures results == old(results)[old(workers[k].i) := Some(intervals)]
    {
      results := results[workers[k].i := Some(intervals)];
      workers := workers[k := Free];
      IsConsistent();
    }

    /** The request failed: asked again after a pause if it is worth it, else the whole read is lost. */
    method Fail(k: nat, retryable: bool)
      requires Valid() && k < |workers| && workers[k].Asking?
      modifies `failed, `workers, `thrower
      ensures Valid()
      ensures retryable && old(workers[k].attempt) < ATTEMPTS && !old(failed) ==>
        !failed && workers == old(workers)[k := Pausing(old(workers[k].i), old(workers[k].attempt))]
      ensures !(retryable && old(workers[k].attempt) < ATTEMPTS && !old(failed)) ==>
        failed && workers == old(workers)[k := Threw]
    {
      if !retryable || workers[k].attempt >= ATTEMPTS || failed {
        Throw(k);
      } else {
        workers := workers[k := Pausing(workers[k].i, workers[k].attempt)];
        IsConsistent();
      }
    }

    method Throw(k: nat)
      requires Valid() && k < |workers| && !workers[k].Threw?
      modifies `failed, `workers, `thrower
      ensures Valid() && failed && workers == old(workers)[k := Threw]
    {
      failed, thrower := true, k;
      workers := workers[k := Threw];
      IsConsistent();
    }

    /** The pause is over: asked again, unless another window was lost meanwhile. */
    method Wake(k: nat)
      requires Valid() && k < |workers| && workers[k].Pausing?
      modifies `failed, `workers, `thrower, `sent
      ensures Valid() && failed == old(failed)
      ensures failed ==> workers == old(workers)[k := Threw] && sent == old(sent)
      ensures var w := old(workers[k]);
        !failed ==> workers == old(workers)[k := Asking(w.i, w.attempt + 1)] && sent == old(sent)[w.i := w.attempt + 1]
    {
      if failed {
        Throw(k);
      } else {
        var i, attempt := workers[k].i, workers[k].attempt;
        sent := sent[i := attempt + 1];
        workers := workers[k := Asking(i, attempt + 1)];
        IsConsistent();
      }
    }

    /** The read returns once every worker has ended: then every window was answered, each within three requests. */
    lemma AllAnswered()
      requires Valid() && forall k :: 0 <= k < |workers| ==> workers[k].Ended?
      ensures !failed && next == total
      ensures forall i :: 0 <= i < total ==> results[i].Some? && 1 <= sent[i] <= 3
    {
      if total > 0 {
        assert WorkerOk(0, workers[0], total, next, failed, results, sent, taker);
      }
      forall i | 0 <= i < total ensures results[i].Some? && 1 <= sent[i] <= 3 {
        assert ReadOk(i, next, failed, results, workers, sent, taker);
      }
    }

    /** One lost window loses the whole read: nobody ends as if it had not been. */
    lemma OneLossLosesAll()
      requires Valid() && failed
      ensures exists k :: 0 <= k < |workers| && workers[k].Threw?
    {
    }
  }

  // ------------------------------------------------ putting it together

  const UNPARSED: Parse := t => None

  /** Each interval once: a clip that drops nothing else. */
  function EachOnce(xs: seq<Interval>): seq<Interval> { Clip(UNPARSED, xs, Span(0, 0)) }

  function Flat(results: Results): seq<Interval> {
    if results == [] then []
    else Flat(results[..|results| - 1]) + (if results[|results| - 1].Some? then results[|results| - 1].value else [])
  }

  lemma {:induction false} FlatHolds(results: Results)
    ensures forall x :: x in Flat(results) <==>
      exists i :: 0 <= i < |results| && results[i].Some? && x in results[i].value
  {
    if results != [] {
      FlatHolds(results[..|results| - 1]);
    }
  }

  method MergeLoop(reported: seq<Interval>) returns (out: seq<Interval>)
    ensures out == EachOnce(reported)
  {
    out := [];
    var seen: set<string> := {};
    for i := 0 to |reported|
      invariant out + ClipFrom(UNPARSED, reported[i..], Span(0, 0), seen) == EachOnce(reported)
    {
      var b := reported[i];
      assert reported[i..][1..] == reported[i + 1..];
      if Id(b) !in seen {
        assert out + ([b] + ClipFrom(UNPARSED, reported[i + 1..], Span(0, 0), seen + {Id(b)}))
            == out + [b] + ClipFrom(UNPARSED, reported[i + 1..], Span(0, 0), seen + {Id(b)});
        seen := seen + {Id(b)};
        out := out + [b];
      }
    }
  }

  /** Whatever was reported, by any window of any connection, is listed, and nothing twice. */
  lemma ListsEachReportedOnce(results: Results)
    requires forall i :: 0 <= i < |results| ==> results[i].Some? && BarFree(results[i].value)
    ensures forall x :: x in EachOnce(Flat(results)) <==> exists i :: 0 <= i < |results| && x in results[i].value
    ensures forall i, j :: 0 <= i < j < |EachOnce(Flat(results))| ==>
      EachOnce(Flat(results))[i] != EachOnce(Flat(results))[j]
  {
    FlatHolds(results);
    ClipIsTheTouchingSet(UNPARSED, Flat(results), Span(0, 0));
  }

  /** Falls between two windows: its bounds parse, and it touches the range on a seam only. */
  predicate FallsBetween(parse: Parse, ws: seq<Span>, x: Interval) {
    Bounds(parse, x).Some? && OnASeam(ws, Bounds(parse, x).value.0, Bounds(parse, x).value.1)
  }

  lemma TouchesSomeWindow(parse: Parse, ws: seq<Span>, from: int, to: int, span: int, x: Interval)
    requires Tiles(ws, from, to, span)
    ensures (exists k :: 0 <= k < |ws| && Touches(parse, x, ws[k])) <==>
      Touches(parse, x, Span(from, to)) && !FallsBetween(parse, ws, x)
  {
    if Bounds(parse, x).Some? {
      var (s, e) := Bounds(parse, x).value;
      EventsReadExactly(ws, from, to, span, s, e);
      assert forall w :: Touches(parse, x, w) <==> Meets(s, e, w);
    } else {
      assert Touches(parse, x, ws[0]);
    }
  }

  /** The reads of one call, connection by connection and window by window: (connection, window). */
  function Row(a: nat, n: nat): (r: seq<(nat, nat)>)
    ensures forall p :: p in r <==> p.0 == a && p.1 < n
  {
    if n == 0 then [] else Row(a, n - 1) + [(a, n - 1)]
  }

  function Reads(m: nat, n: nat): (r: seq<(nat, nat)>)
    ensures forall p :: p in r <==> p.0 < m && p.1 < n
  {
    if m == 0 then [] else Reads(m - 1, n) + Row(m - 1, n)
  }

  method RowLoop(a: nat, n: nat) returns (row: seq<(nat, nat)>)
    ensures row == Row(a, n)
  {
    row := [];
    for b := 0 to n
      invariant row == Row(a, b)
    {
      row := row + [(a, b)];
    }
  }

  method ReadsLoop(m: nat, n: nat) returns (all: seq<(nat, nat)>)
    ensures all == Reads(m, n)
  {
    all := [];
    for a := 0 to m
      invariant all == Reads(a, n)
    {
      var row := RowLoop(a, n);
      all := all + row;
    }
  }

  /** Each connection's each window is read once. */
  lemma {:induction false} RowOnce(a: nat, n: nat)
    ensures forall i, j :: 0 <= i < j < |Row(a, n)| ==> Row(a, n)[i] != Row(a, n)[j]
  {
    if n > 0 { RowOnce(a, n - 1); }
  }

  lemma OnceBoth(s: seq<(nat, nat)>, t: seq<(nat, nat)>)
    requires forall i, j :: 0 <= i < j < |s| ==> s[i] != s[j]
    requires forall i, j :: 0 <= i < j < |t| ==> t[i] != t[j]
    requires forall p :: p in s ==> p !in t
    ensures forall i, j :: 0 <= i < j < |s + t| ==> (s + t)[i] != (s + t)[j]
  {
    forall i, j | 0 <= i < j < |s + t| ensures (s + t)[i] != (s + t)[j] {
      if i < |s| <= j {
        assert (s + t)[i] in s && (s + t)[j] in t;
      }
    }
  }

  lemma {:induction false} ReadOnce(m: nat, n: nat)
    ensures forall i, j :: 0 <= i < j < |Reads(m, n)| ==> Reads(m, n)[i] != Reads(m, n)[j]
  {
    if m > 0 {
      ReadOnce(m - 1, n);
      RowOnce(m - 1, n);
      OnceBoth(Reads(m - 1, n), Row(m - 1, n));
    }
  }

  /**
   What a whole read lists, when every window answered with the events that
   touch it: exactly the events of its connections that touch the range, but
   for those that fall between two windows.
   */
  lemma ListsWhatTouchesTheRange(parse: Parse, refs: seq<string>, ws: seq<Span>, from: int, to: int, span: int,
                                 results: Results, events: string -> set<Interval>)
    requires Tiles(ws, from, to, span) && |results| == |Reads(|refs|, |ws|)|
    requires forall i :: 0 <= i < |results| ==> Answers(parse, results[i], Reads(|refs|, |ws|)[i], refs, ws, events)
    requires forall r, x :: r in refs && x in events(r) ==> '|' !in x.startUtc
    ensures forall x :: x in EachOnce(Flat(results)) <==>
      && !FallsBetween(parse, ws, x)
      && exists a :: 0 <= a < |refs| && x in events(refs[a]) && Touches(parse, x, Span(from, to))
  {
    var all := Reads(|refs|, |ws|);
    forall i | 0 <= i < |results| ensures results[i].Some? && BarFree(results[i].value) {
      assert all[i] in all && Answers(parse, results[i], all[i], refs, ws, events);
      assert refs[all[i].0] in refs;
    }
    ListsEachReportedOnce(results);
    forall x ensures (exists i :: 0 <= i < |results| && x in results[i].value) <==>
      && !FallsBetween(parse, ws, x)
      && exists a :: 0 <= a < |refs| && x in events(refs[a]) && Touches(parse, x, Span(from, to))
    {
      if i :| 0 <= i < |results| && x in results[i].value {
        ReportedTouches(parse, refs, ws, from, to, span, results, events, i, x);
      }
      if a :| 0 <= a < |refs| && x in events(refs[a]) && Touches(parse, x, Span(from, to)) &&
              !FallsBetween(parse, ws, x)
      {
        var i := TouchingIsReported(parse, refs, ws, from, to, span, results, events, a, x);
      }
    }
  }

  /** A read was answered with exactly its connection's events that touch its window. */
  ghost predicate Answers(parse: Parse, result: Option<seq<Interval>>, at: (nat, nat), refs: seq<string>, ws: seq<Span>,
                          events: string -> set<Interval>)
  {
    at.0 < |refs| && at.1 < |ws| && result.Some? && Reports(parse, result.value, events(refs[at.0]), ws[at.1])
  }

  lemma ReportedTouches(parse: Parse, refs: seq<string>, ws: seq<Span>, from: int, to: int, span: int,
                        results: Results, events: string -> set<Interval>, i: nat, x: Interval)
    requires Tiles(ws, from, to, span) && |results| == |Reads(|refs|, |ws|)| && i < |results|
    requires Answers(parse, results[i], Reads(|refs|, |ws|)[i], refs, ws, events) && x in results[i].value
    ensures !FallsBetween(parse, ws, x)
    ensures exists a :: 0 <= a < |refs| && x in events(refs[a]) && Touches(parse, x, Span(from, to))
  {
    var at := Reads(|refs|, |ws|)[i];
    assert refs[at.0] in refs && x in events(refs[at.0]);
    TouchesSomeWindow(parse, ws, from, to, span, x);
  }

  lemma TouchingIsReported(parse: Parse, refs: seq<string>, ws: seq<Span>, from: int, to: int, span: int,
                           results: Results, events: string -> set<Interval>, a: nat, x: Interval) returns (i: nat)
    requires Tiles(ws, from, to, span) && |results| == |Reads(|refs|, |ws|)|
    requires forall i :: 0 <= i < |results| ==> Answers(parse, results[i], Reads(|refs|, |ws|)[i], refs, ws, events)
    requires a < |refs| && x in events(refs[a]) && Touches(parse, x, Span(from, to)) && !FallsBetween(parse, ws, x)
    ensures i < |results| && results[i].Some? && x in results[i].value
  {
    TouchesSomeWindow(parse, ws, from, to, span, x);
    var b :| 0 <= b < |ws| && Touches(parse, x, ws[b]);
    assert (a, b) in Reads(|refs|, |ws|);
    i :| 0 <= i < |Reads(|refs|, |ws|)| && Reads(|refs|, |ws|)[i] == (a, b);
    assert Answers(parse, results[i], Reads(|refs|, |ws|)[i], refs, ws, events);
  }

  // ------------------------------------------- other people's busy times

  type Email = string

  /** One window's answer: busy times by normalised address, `None` for a person the calendar does not know. */
  type WindowAnswer = map<Email, Option<seq<Interval>>>

  predicate KnownIn(answer: WindowAnswer, who: Email) { who in answer && answer[who].Some? }

  /** Unknown in any of the first `n` windows is unknown; else busy whenever any of them says so. */
  ghost predicate SumsUp(busy: Option<seq<Interval>>, answers: seq<WindowAnswer>, n: nat, who: Email)
    requires n <= |answers|
  {
    && (busy.None? <==> exists w :: 0 <= w < n && !KnownIn(answers[w], who))
    && (busy.Some? ==> forall x :: x in busy.value <==>
        exists w :: 0 <= w < n && KnownIn(answers[w], who) && x in answers[w][who].value)
  }

  /** A person's busy times after one more window, whether or not it was already counted for the address. */
  lemma SumsUpOneMore(busy: Option<seq<Interval>>, answers: seq<WindowAnswer>, w: nat, who: Email)
    requires w < |answers| && (SumsUp(busy, answers, w, who) || SumsUp(busy, answers, w + 1, who))
    ensures busy.None? ==> SumsUp(None, answers, w + 1, who)
    ensures !KnownIn(answers[w], who) ==> SumsUp(None, answers, w + 1, who)
    ensures busy.Some? && KnownIn(answers[w], who) ==>
      SumsUp(Some(busy.value + answers[w][who].value), answers, w + 1, who)
  {
  }

  function Everyone(emails: seq<Email>): set<Email> { set email | email in emails }

  /** What each person's merged entry says after the first `n` windows. */
  ghost predicate SumUp(merged: map<Email, Option<seq<Interval>>>, who: set<Email>, normal: Email -> Email,
                        answers: seq<WindowAnswer>, n: nat)
    requires n <= |answers|
  {
    forall email :: email in who ==> email in merged && SumsUp(merged[email], answers, n, normal(email))
  }

  method AddWindow(emails: seq<Email>, normal: Email -> Email, answers: seq<WindowAnswer>, w: nat,
                   was: map<Email, Option<seq<Interval>>>) returns (merged: map<Email, Option<seq<Interval>>>)
    requires w < |answers| && SumUp(was, Everyone(emails), normal, answers, w)
    ensures SumUp(merged, Everyone(emails), normal, answers, w + 1)
  {
    merged := was;
    hide SumsUp;
    ghost var done: set<Email>, left := {}, Everyone(emails);
    for j := 0 to |emails|
      invariant SumUp(merged, left, normal, answers, w) && SumUp(merged, done, normal, answers, w + 1)
      invariant done + left == Everyone(emails)
      invariant forall email :: email in left ==> exists i :: j <= i < |emails| && emails[i] == email
    {
      var email, who := emails[j], normal(emails[j]);
      assert email in done + left;
      SumsUpOneMore(merged[email], answers, w, who);
      done, left := done + {email}, left - {email};
      if merged[email].Some? {
        merged := merged[email := if KnownIn(answers[w], who) then Some(merged[email].value + answers[w][who].value)
                                  else None];
      }
    }
    assert left == {};
  }

  /** One window after another, for everyone asked about. */
  method ListAttendeeBusy(emails: seq<Email>, normal: Email -> Email, answers: seq<WindowAnswer>)
    returns (out: seq<Option<seq<Interval>>>)
    ensures |out| == |emails|
    ensures forall k :: 0 <= k < |emails| ==> SumsUp(out[k], answers, |answers|, normal(emails[k]))
  {
    var merged: map<Email, Option<seq<Interval>>> := map email | email in emails :: Some([]);
    for w := 0 to |answers|
      invariant SumUp(merged, Everyone(emails), normal, answers, w)
    {
      merged := AddWindow(emails, normal, answers, w, merged);
    }
    out := seq(|emails|, k requires 0 <= k < |emails| => merged[emails[k]]);
  }
}
