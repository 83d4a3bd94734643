/**
 Open slots of the calendars asked about: one calendar's grid of slots against
 its busy list, and the any/all combinations over the calendars read.
 */
module OpenSlots {

  datatype Option<+T> = None | Some(value: T)

  /** Instants in milliseconds; the four lengths in minutes, as the request gives them. */
  datatype Query = Query(from: int, to: int, duration: nat, interval: nat, before: nat, after: nat)

  /** A busy interval; a bound that is no date is `None`. */
  datatype Busy = Busy(start: Option<int>, end: Option<int>)

  datatype Slot = Slot(start: int, end: int)

  const MINUTE: int := 60_000

  /** What the request schema lets through. */
  predicate Wellformed(q: Query) { q.duration >= 1 && q.interval >= 1 }

  /** The window `[s, e)` meets the interval; one with a bound that is no date meets nothing. */
  predicate Meets(b: Busy, s: int, e: int) {
    b.start.Some? && b.end.Some? && s < b.end.value && e > b.start.value
  }

  /** The slot from `s` fits the range, and with its buffers meets no busy interval. */
  predicate Open(q: Query, busy: seq<Busy>, s: int) {
    && s + q.duration * MINUTE <= q.to
    && forall b :: b in busy ==> !Meets(b, s - q.before * MINUTE, s + q.duration * MINUTE + q.after * MINUTE)
  }

  function GridStart(q: Query, k: nat): int { q.from + k * (q.interval * MINUTE) }

  /** On one of the starts the interval lays out from the beginning of the range. */
  ghost predicate OnGrid(q: Query, s: int) { exists k: nat :: s == GridStart(q, k) }

  lemma {:induction false} GridAscends(q: Query, k: nat, n: nat)
    requires k <= n
    ensures GridStart(q, k) <= GridStart(q, n)
    ensures Wellformed(q) && k < n ==> GridStart(q, k) < GridStart(q, n)
    decreases n - k
  {
    if k < n {
      GridAscends(q, k, n - 1);
    }
  }

  ghost predicate Ascending(slots: seq<Slot>) {
    forall i, j :: 0 <= i < j < |slots| ==> slots[i].start < slots[j].start
  }

  function SlotAt(q: Query, s: int): Slot { Slot(s, s + q.duration * MINUTE) }

  /** The open ones of the first `k` slots of the grid. */
  function OpenUpTo(q: Query, busy: seq<Busy>, k: nat): seq<Slot> {
    if k == 0 then []
    else OpenUpTo(q, busy, k - 1) + if Open(q, busy, GridStart(q, k - 1)) then [SlotAt(q, GridStart(q, k - 1))] else []
  }

  lemma {:induction false} OpenUpToHolds(q: Query, busy: seq<Busy>, k: nat)
    requires Wellformed(q)
    ensures forall x :: x in OpenUpTo(q, busy, k) <==>
      exists n: nat :: n < k && x == SlotAt(q, GridStart(q, n)) && Open(q, busy, GridStart(q, n))
    ensures Ascending(OpenUpTo(q, busy, k))
  {
    if k > 0 {
      OpenUpToHolds(q, busy, k - 1);
      hide GridStart, Open;
      var before := OpenUpTo(q, busy, k - 1);
      forall i | 0 <= i < |before| ensures before[i].start < GridStart(q, k - 1) {
        assert before[i] in before;
        var n: nat :| n < k - 1 && before[i] == SlotAt(q, GridStart(q, n));
        GridAscends(q, n, k - 1);
      }
    }
  }

  /** Exactly the grid's open slots, in order. */
  method ComputeOpenSlots(q: Query, busy: seq<Busy>) returns (slots: seq<Slot>)
    requires Wellformed(q)
    ensures forall x :: x in slots <==> OnGrid(q, x.start) && Open(q, busy, x.start) && x == SlotAt(q, x.start)
    ensures Ascending(slots)
  {
    var durationMs, intervalMs := q.duration * MINUTE, q.interval * MINUTE;
    slots := [];
    var start := q.from;
    ghost var k: nat := 0;
    while start + durationMs <= q.to
      invariant start == GridStart(q, k) && slots == OpenUpTo(q, busy, k)
      decreases q.to - start
    {
      var end := start + durationMs;
      if !(exists b :: b in busy && Meets(b, start - q.before * MINUTE, end + q.after * MINUTE)) {
        slots := slots + [Slot(start, end)];
      }
      start := start + intervalMs;
      k := k + 1;
    }
    OpenUpToHolds(q, busy, k);
    forall x: Slot | OnGrid(q, x.start) && Open(q, busy, x.start) && x == SlotAt(q, x.start) ensures x in slots {
      var n: nat :| x.start == GridStart(q, n);
      if n >= k { GridAscends(q, k, n); }
    }
  }

  // ------------------------------------------------------ the busy list

  /** More busy time only ever closes slots. */
  lemma MoreBusyFewerOpen(q: Query, busy: seq<Busy>, more: seq<Busy>, s: int)
    requires (forall b :: b in busy ==> b in more) && Open(q, more, s)
    ensures Open(q, busy, s)
  {
  }

  /**
   A slot is open exactly when it ends within the range and every busy interval
   of known bounds ends at least `before` minutes before the slot begins, or
   begins at least `after` minutes after the slot has ended.
   */
  lemma OpenExactly(q: Query, busy: seq<Busy>, s: int)
    ensures Open(q, busy, s) <==>
      && s + q.duration * 60_000 <= q.to
      && (forall b :: b in busy && b.start.Some? && b.end.Some? ==>
            b.end.value + q.before * 60_000 <= s || b.start.value >= s + q.duration * 60_000 + q.after * 60_000)
  {
  }

  /** Sorted by start, with no bound missing. */
  predicate Sorted(busy: seq<Busy>) {
    busy != [] ==>
      && busy[0].start.Some? && busy[0].end.Some? && busy[0].start.value <= busy[0].end.value
      && Sorted(busy[1..])
      && (|busy| > 1 ==> busy[1].start.Some? && busy[0].start.value <= busy[1].start.value)
  }

  /** Neighbours that overlap or touch, made one. */
  function Coalesced(busy: seq<Busy>): seq<Busy>
    requires Sorted(busy)
    decreases |busy|
  {
    if |busy| < 2 then busy
    else
      assert Sorted(busy[1..]) && busy[1..][0] == busy[1];
      if busy[1].start.value <= busy[0].end.value then
        var one := Busy(busy[0].start, if busy[0].end.value >= busy[1].end.value then busy[0].end else busy[1].end);
        Coalesced([one] + busy[2..])
      else [busy[0]] + Coalesced(busy[1..])
  }

  predicate MeetsAny(busy: seq<Busy>, s: int, e: int) {
    busy != [] && (Meets(busy[0], s, e) || MeetsAny(busy[1..], s, e))
  }

  lemma {:induction false} MeetsAnyMember(busy: seq<Busy>, s: int, e: int)
    ensures MeetsAny(busy, s, e) <==> exists b :: b in busy && Meets(b, s, e)
  {
    if busy != [] {
      MeetsAnyMember(busy[1..], s, e);
      assert forall b :: b in busy <==> b == busy[0] || b in busy[1..];
    }
  }

  lemma {:induction false} CoalescedMeets(busy: seq<Busy>, s: int, e: int)
    requires Sorted(busy) && s < e
    ensures MeetsAny(Coalesced(busy), s, e) <==> MeetsAny(busy, s, e)
    decreases |busy|
  {
    if |busy| >= 2 {
      var a, b, rest := busy[0], busy[1], busy[2..];
      assert busy[1..][0] == b && busy[1..][1..] == rest && Sorted(busy[1..]);
      if b.start.value <= a.end.value {
        var one := Busy(a.start, if a.end.value >= b.end.value then a.end else b.end);
        CoalescedMeets([one] + rest, s, e);
        assert ([one] + rest)[1..] == rest;
      } else {
        CoalescedMeets(busy[1..], s, e);
        assert ([a] + Coalesced(busy[1..]))[1..] == Coalesced(busy[1..]);
      }
    }
  }

  /** What is left is in order, and no two of it overlap or touch. */
  lemma {:induction false} CoalescedIsApart(busy: seq<Busy>)
    requires Sorted(busy)
    ensures var out := Coalesced(busy);
      && (busy != [] ==> out != [] && out[0].start == busy[0].start)
      && (forall i :: 0 <= i < |out| ==>
          out[i].start.Some? && out[i].end.Some? && out[i].start.value <= out[i].end.value)
      && (forall i :: 0 <= i < |out| - 1 ==> out[i].end.value < out[i + 1].start.value)
    decreases |busy|
  {
    if |busy| >= 2 {
      assert Sorted(busy[1..]) && busy[1..][0] == busy[1];
      if busy[1].start.value <= busy[0].end.value {
        var one := Busy(busy[0].start, if busy[0].end.value >= busy[1].end.value then busy[0].end else busy[1].end);
        assert Sorted([one] + busy[2..]) by {
          assert ([one] + busy[2..])[1..] == busy[2..] && busy[1..][1..] == busy[2..];
          assert |busy| > 2 ==> busy[1..][1] == busy[2] && ([one] + busy[2..])[1] == busy[2];
        }
        CoalescedIsApart([one] + busy[2..]);
      } else {
        CoalescedIsApart(busy[1..]);
      }
    }
  }

  /** Coalescing the busy list opens and closes nothing. */
  lemma CoalescingChangesNothing(q: Query, busy: seq<Busy>, s: int)
    requires Wellformed(q) && Sorted(busy)
    ensures Open(q, Coalesced(busy), s) <==> Open(q, busy, s)
  {
    var from, to := s - q.before * MINUTE, s + q.duration * MINUTE + q.after * MINUTE;
    CoalescedMeets(busy, from, to);
    MeetsAnyMember(busy, from, to);
    MeetsAnyMember(Coalesced(busy), from, to);
  }

  // ------------------------------------------------------- the two modes

  function Insert(x: Slot, slots: seq<Slot>): seq<Slot> {
    if slots == [] || x.start <= slots[0].start then [x] + slots else [slots[0]] + Insert(x, slots[1..])
  }

  function SortedByStart(slots: seq<Slot>): seq<Slot> {
    if slots == [] then [] else Insert(slots[0], SortedByStart(slots[1..]))
  }

  predicate HasStart(slots: seq<Slot>, s: int) { exists x :: x in slots && x.start == s }

  lemma {:induction false} InsertHolds(x: Slot, slots: seq<Slot>)
    ensures forall y :: y in Insert(x, slots) <==> y == x || y in slots
    ensures Ascending(slots) && !HasStart(slots, x.start) ==> Ascending(Insert(x, slots))
  {
    if !(slots == [] || x.start <= slots[0].start) {
      InsertHolds(x, slots[1..]);
      assert forall y :: y in slots <==> y == slots[0] || y in slots[1..];
      if Ascending(slots) && !HasStart(slots, x.start) {
        assert Ascending(slots[1..]);
        var rest := Insert(x, slots[1..]);
        forall j | 0 <= j < |rest| ensures slots[0].start < rest[j].start {
          assert rest[j] in rest;
          assert rest[j] != x ==> rest[j] in slots[1..];
        }
      }
    } else if slots != [] && Ascending(slots) && !HasStart(slots, x.start) {
      assert slots[0] in slots && slots[0].start != x.start;
    }
  }

  /** No two with the same start. */
  ghost predicate DistinctStarts(slots: seq<Slot>) {
    forall i, j :: 0 <= i < j < |slots| ==> slots[i].start != slots[j].start
  }

  lemma {:induction false} SortedHolds(slots: seq<Slot>)
    requires DistinctStarts(slots)
    ensures forall y :: y in SortedByStart(slots) <==> y in slots
    ensures Ascending(SortedByStart(slots))
  {
    if slots != [] {
      SortedHolds(slots[1..]);
      InsertHolds(slots[0], SortedByStart(slots[1..]));
    }
  }

  /** How many of the calendars have an open slot at `s`. */
  function CountAt(calendars: seq<seq<Slot>>, s: int): nat {
    if calendars == [] then 0
    else CountAt(calendars[..|calendars| - 1], s) + if HasStart(calendars[|calendars| - 1], s) then 1 else 0
  }

  lemma {:induction false} CountIsAll(calendars: seq<seq<Slot>>, s: int)
    ensures CountAt(calendars, s) <= |calendars|
    ensures CountAt(calendars, s) == |calendars| <==> forall c :: c in calendars ==> HasStart(c, s)
  {
    if calendars != [] {
      var before, last := calendars[..|calendars| - 1], calendars[|calendars| - 1];
      CountIsAll(before, s);
      assert forall c :: c in calendars <==> c in before || c == last;
    }
  }

  /** Lists as they come from one request: each in order, every slot as long as the others. */
  ghost predicate OneLength(calendars: seq<seq<Slot>>, length: int) {
    forall c :: c in calendars ==> Ascending(c) && forall x :: x in c ==> x.end == x.start + length
  }

  function Count(counts: map<int, nat>, s: int): nat { if s in counts then counts[s] else 0 }

  /** One calendar's slots, added to those listed and counted so far. */
  method AddCalendar(listed: seq<Slot>, counted: map<int, nat>, calendar: seq<Slot>, length: int)
    returns (byStart: seq<Slot>, counts: map<int, nat>)
    requires DistinctStarts(listed) && forall x :: x in listed ==> x.end == x.start + length
    requires Ascending(calendar) && forall x :: x in calendar ==> x.end == x.start + length
    ensures DistinctStarts(byStart) && forall x :: x in byStart <==> x in listed || x in calendar
    ensures forall s :: Count(counts, s) == Count(counted, s) + if HasStart(calendar, s) then 1 else 0
  {
    byStart, counts := listed, counted;
    for j := 0 to |calendar|
      invariant DistinctStarts(byStart) && forall x :: x in byStart ==> x.end == x.start + length
      invariant forall x :: x in byStart <==> x in listed || x in calendar[..j]
      invariant forall s :: Count(counts, s) == Count(counted, s) + if HasStart(calendar[..j], s) then 1 else 0
    {
      var slot := calendar[j];
      assert calendar[..j + 1] == calendar[..j] + [slot];
      assert slot in calendar;
      if !HasStart(byStart, slot.start) {
        byStart := byStart + [slot];
      }
      counts := counts[slot.start := Count(counts, slot.start) + 1];
    }
    assert calendar[..|calendar|] == calendar;
  }

  /** The slots by start, in the order a map would list them, and how often each start came up. */
  method Tally(calendars: seq<seq<Slot>>, length: int) returns (byStart: seq<Slot>, counts: map<int, nat>)
    requires OneLength(calendars, length)
    ensures DistinctStarts(byStart)
    ensures forall x :: x in byStart <==> exists c :: c in calendars && x in c
    ensures forall s :: Count(counts, s) == CountAt(calendars, s)
  {
    byStart, counts := [], map[];
    for i := 0 to |calendars|
      invariant DistinctStarts(byStart) && forall x :: x in byStart ==> x.end == x.start + length
      invariant forall x :: x in byStart <==> exists c :: c in calendars[..i] && x in c
      invariant forall s :: Count(counts, s) == CountAt(calendars[..i], s)
    {
      assert calendars[i] in calendars;
      assert calendars[..i + 1] == calendars[..i] + [calendars[i]] && calendars[..i + 1][..i] == calendars[..i];
      byStart, counts := AddCalendar(byStart, counts, calendars[i], length);
    }
    assert calendars[..|calendars|] == calendars;
  }

  /** The union of the calendars' open slots, in order. */
  method AnyAvailable(calendars: seq<seq<Slot>>, length: int) returns (slots: seq<Slot>)
    requires OneLength(calendars, length)
    ensures Ascending(slots) && forall x :: x in slots <==> exists c :: c in calendars && x in c
  {
    var byStart, _ := Tally(calendars, length);
    SortedHolds(byStart);
    slots := SortedByStart(byStart);
  }

  /** Their intersection, in order: at least one calendar was read. */
  method AllAvailable(calendars: seq<seq<Slot>>, length: int) returns (slots: seq<Slot>)
    requires OneLength(calendars, length) && calendars != []
    ensures Ascending(slots) && forall x :: x in slots <==> forall c :: c in calendars ==> x in c
  {
    var byStart, counts := Tally(calendars, length);
    var kept: seq<Slot> := [];
    for i := 0 to |byStart|
      invariant DistinctStarts(kept)
      invariant forall x :: x in kept <==> x in byStart[..i] && Count(counts, x.start) == |calendars|
    {
      assert byStart[..i + 1] == byStart[..i] + [byStart[i]];
      if Count(counts, byStart[i].start) == |calendars| {
        kept := kept + [byStart[i]];
      }
    }
    assert byStart[..|byStart|] == byStart;
    SortedHolds(kept);
    slots := SortedByStart(kept);
    forall x ensures x in kept <==> forall c :: c in calendars ==> x in c {
      CountIsAll(calendars, x.start);
      assert calendars[0] in calendars;
    }
  }

  // -------------------------------------------------- the whole answer

  /** How one calendar's read went: it may not be allowed, or may fail. */
  datatype CalendarRead = Slots(slots: seq<Slot>) | Forbidden | Unreadable

  datatype Mode = PerCalendar | AllAvailableMode | AnyAvailableMode

  datatype Answer =
    | AllForbidden
    | NoneReadable
    | Combined(slots: seq<Slot>, partial: bool)
    | Separate(lists: seq<seq<Slot>>, partial: bool)

  /** The lists of the calendars that were read. */
  function Successful(calendars: seq<CalendarRead>): seq<seq<Slot>> {
    if calendars == [] then []
    else
      var before, last := Successful(calendars[..|calendars| - 1]), calendars[|calendars| - 1];
      if last.Slots? then before + [last.slots] else before
  }

  lemma {:induction false} SuccessfulHolds(calendars: seq<CalendarRead>)
    ensures forall c :: c in Successful(calendars) <==> Slots(c) in calendars
    ensures |Successful(calendars)| <= |calendars|
    ensures |Successful(calendars)| == |calendars| <==> forall r :: r in calendars ==> r.Slots?
  {
    if calendars != [] {
      var before, last := calendars[..|calendars| - 1], calendars[|calendars| - 1];
      SuccessfulHolds(before);
      assert forall r :: r in calendars <==> r in before || r == last;
    }
  }

  /** The modes combine whatever calendars could be read; with none, the answer is an error that says why. */
  method Availability(calendars: seq<CalendarRead>, mode: Mode, length: int) returns (answer: Answer)
    requires OneLength(Successful(calendars), length)
    ensures answer.AllForbidden? <==> forall r :: r in calendars ==> r.Forbidden?
    ensures answer.NoneReadable? <==> (forall r :: r in calendars ==> !r.Slots?) && Unreadable in calendars
    ensures answer.Combined? ==> mode != PerCalendar && Ascending(answer.slots)
    ensures answer.Combined? && mode == AnyAvailableMode ==>
      forall x :: x in answer.slots <==> exists c :: Slots(c) in calendars && x in c
    ensures answer.Combined? && mode == AllAvailableMode ==>
      forall x :: x in answer.slots <==> forall c :: Slots(c) in calendars ==> x in c
    ensures answer.Separate? ==> mode == PerCalendar && answer.lists == Successful(calendars)
    ensures answer.Combined? || answer.Separate? ==> (answer.partial <==> exists r :: r in calendars && !r.Slots?)
  {
    SuccessfulHolds(calendars);
    var successful := Successful(calendars);
    if successful == [] {
      return if forall r :: r in calendars ==> r.Forbidden? then AllForbidden else NoneReadable;
    }
    var partial := |calendars| - |successful| > 0;
    assert successful[0] in successful;
    match mode
    case PerCalendar => answer := Separate(successful, partial);
    case AnyAvailableMode =>
      var slots := AnyAvailable(successful, length);
      answer := Combined(slots, partial);
    case AllAvailableMode =>
      var slots := AllAvailable(successful, length);
      answer := Combined(slots, partial);
  }
}
