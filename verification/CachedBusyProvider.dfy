/** `listBusy` through the cache, one connection at a time, put together for the host. */
module CachedBusyProvider {
  import opened BusyIntervals
  import opened KeyIndex
  import opened BusyCache

  /** How one connection's read ended. */
  datatype ReadEnd = Fulfilled(intervals: seq<Interval>) | Rejected

  datatype Result = Listed(intervals: seq<Interval>) | BusyUnknown(unknown: nat, connections: nat)

  /** Requests the cache cannot reason about go to the provider as they came. */
  predicate PassesThrough(enabled: bool, refs: seq<string>, from: Option<int>, to: Option<int>) {
    !enabled || refs == [] || !(from.Some? && to.Some? && to.value > from.value)
  }

  /** Each ref once, in order of first appearance. */
  function Unique(refs: seq<string>): (out: seq<string>)
    ensures forall r :: r in out <==> r in refs
  {
    if refs == [] then []
    else
      var before, last := Unique(refs[..|refs| - 1]), refs[|refs| - 1];
      if last in before then before else before + [last]
  }

  lemma {:induction false} UniqueIsDistinct(refs: seq<string>)
    ensures Distinct(Unique(refs))
  {
    if refs != [] {
      UniqueIsDistinct(refs[..|refs| - 1]);
    }
  }

  /** Which of the connections' reads were rejected. */
  function RejectedOnes(ends: seq<ReadEnd>): set<nat> { set k: nat | k < |ends| && ends[k].Rejected? }

  function Rejections(ends: seq<ReadEnd>): (n: nat)
    ensures n == 0 <==> forall k :: 0 <= k < |ends| ==> ends[k].Fulfilled?
    ensures n <= |ends|
    ensures n == |RejectedOnes(ends)|
  {
    assert ends != [] ==>
      RejectedOnes(ends) == RejectedOnes(ends[..|ends| - 1]) + if ends[|ends| - 1].Rejected? then {|ends| - 1} else {};
    if ends == [] then 0
    else Rejections(ends[..|ends| - 1]) + if ends[|ends| - 1].Rejected? then 1 else 0
  }

  function Merged(ends: seq<ReadEnd>): seq<Interval> {
    if ends == [] then []
    else Merged(ends[..|ends| - 1]) + (if ends[|ends| - 1].Fulfilled? then ends[|ends| - 1].intervals else [])
  }

  /** One unknown connection makes the whole answer unknown; else all the intervals, each once. */
  method Combine(parse: Parse, ends: seq<ReadEnd>, want: Span) returns (r: Result)
    ensures r.BusyUnknown? <==> exists k :: 0 <= k < |ends| && ends[k].Rejected?
    ensures r.BusyUnknown? ==> r.unknown == Rejections(ends) && r.connections == |ends|
    ensures r.Listed? ==> r.intervals == Clip(parse, Merged(ends), want)
  {
    var unknown, merged := 0, [];
    for i := 0 to |ends|
      invariant unknown == Rejections(ends[..i]) && merged == Merged(ends[..i])
    {
      assert ends[..i + 1][..i] == ends[..i];
      if ends[i].Rejected? { unknown := unknown + 1; } else { merged := merged + ends[i].intervals; }
    }
    assert ends[..|ends|] == ends;
    if unknown > 0 {
      return BusyUnknown(unknown, |ends|);
    }
    var listed := ClipLoop(parse, merged, want);
    r := Listed(listed);
  }

  /**
   The whole request. `read` is how the cache's read of each ref ends, `direct`
   what the provider itself answers.
   */
  method ListBusy(parse: Parse, enabled: bool, refs: seq<string>, from: Option<int>, to: Option<int>,
                  read: string -> ReadEnd, direct: Result) returns (r: Result)
    ensures !enabled || refs == [] || from.None? || to.None? || to.value <= from.value ==> r == direct
    ensures enabled && refs != [] && from.Some? && to.Some? && from.value < to.value ==>
      !PassesThrough(enabled, refs, from, to)
    ensures !PassesThrough(enabled, refs, from, to) ==>
      (r.Listed? <==> forall ref :: ref in refs ==> read(ref).Fulfilled?)
    ensures !PassesThrough(enabled, refs, from, to) && r.Listed? ==>
      r.intervals == Clip(parse, Merged(Ends(Unique(refs), read)), Span(from.value, to.value))
    ensures !PassesThrough(enabled, refs, from, to) && r.BusyUnknown? ==>
      r.connections == |Unique(refs)| && r.unknown == Rejections(Ends(Unique(refs), read)) > 0
  {
    if PassesThrough(enabled, refs, from, to) {
      return direct;
    }
    var unique := Unique(refs);
    var ends := Ends(unique, read);
    r := Combine(parse, ends, Span(from.value, to.value));
    assert forall ref :: ref in refs ==> ref in unique;
    assert forall k :: 0 <= k < |ends| ==> unique[k] in refs && ends[k] == read(unique[k]);
    assert (exists k :: 0 <= k < |ends| && ends[k].Rejected?) <==> exists ref :: ref in refs && read(ref).Rejected? by {
      if ref :| ref in refs && read(ref).Rejected? {
        var k :| 0 <= k < |unique| && unique[k] == ref;
        assert ends[k].Rejected?;
      }
    }
  }

  function Ends(refs: seq<string>, read: string -> ReadEnd): seq<ReadEnd> {
    seq(|refs|, i requires 0 <= i < |refs| => read(refs[i]))
  }

  // ------------------------------------ calendars that do not change

  /** Every read of the cache's whole life was of one and the same set of events a connection. */
  ghost predicate Unchanging(parse: Parse, history: seq<ProviderRead>, events: Conn -> set<Interval>) {
    forall i :: 0 <= i < |history| && history[i].outcome.Answered? ==>
      Reports(parse, history[i].outcome.raw, events(history[i].key.conn), history[i].key.span)
  }

  /** A backed answer is the set of the connection's events that touch the request. */
  lemma AnswerIsWhatTouches(parse: Parse, history: seq<ProviderRead>, from: nat, conn: Conn, want: Span,
                            answer: seq<Interval>, events: Conn -> set<Interval>)
    requires BackedBy(parse, history, from, conn, want, answer) && Unchanging(parse, history, events)
    requires IdsTellBounds(parse) && NoBars(events(conn))
    ensures Reports(parse, answer, events(conn), want)
  {
    ClipIsTheTouchingSet(parse, history[from].outcome.raw, want);
  }

  lemma {:induction false} MergedHolds(ends: seq<ReadEnd>)
    ensures forall x :: x in Merged(ends) <==>
      exists k :: 0 <= k < |ends| && ends[k].Fulfilled? && x in ends[k].intervals
  {
    if ends != [] {
      var before, last := ends[..|ends| - 1], ends[|ends| - 1];
      MergedHolds(before);
      assert forall k :: 0 <= k < |before| ==> before[k] == ends[k];
    }
  }

  /**
   On calendars that do not change, what the cache lists is what the provider
   would list, after any reads, invalidations and evictions: `direct` is its
   own answer to the request, over all the connections at once.
   */
  lemma ListsWhatTheProviderLists(parse: Parse, history: seq<ProviderRead>, conns: seq<Conn>, froms: seq<nat>,
                                  ends: seq<ReadEnd>, want: Span, events: Conn -> set<Interval>, direct: seq<Interval>)
    requires IdsTellBounds(parse) && Unchanging(parse, history, events)
    requires |conns| == |froms| == |ends|
    requires forall k :: 0 <= k < |ends| ==>
      ends[k].Fulfilled? && NoBars(events(conns[k]))
        && BackedBy(parse, history, froms[k], conns[k], want, ends[k].intervals)
    requires forall x :: x in direct <==>
      exists k :: 0 <= k < |conns| && x in events(conns[k]) && Touches(parse, x, want)
    ensures forall x :: x in Clip(parse, Merged(ends), want) <==> x in direct
    ensures Distinct(Clip(parse, Merged(ends), want))
  {
    forall k | 0 <= k < |ends| ensures Reports(parse, ends[k].intervals, events(conns[k]), want) {
      AnswerIsWhatTouches(parse, history, froms[k], conns[k], want, ends[k].intervals, events);
    }
    MergedHolds(ends);
    forall x | x in Merged(ends) ensures '|' !in x.startUtc && Touches(parse, x, want) && x in direct {
      var k :| 0 <= k < |ends| && x in ends[k].intervals;
      assert NoBars(events(conns[k])) && x in events(conns[k]);
    }
    forall x | x in direct ensures x in Merged(ends) {
      var k :| 0 <= k < |conns| && x in events(conns[k]) && Touches(parse, x, want);
      assert x in ends[k].intervals;
    }
    ClipIsTheTouchingSet(parse, Merged(ends), want);
  }

  // ------------------------------------------- a whole request, driven

  /** Someone who asks for the busy times of one connection. */
  datatype Asker = Asker(conn: Conn, want: Span)

  /**
   What may happen while a request waits, `after` some time: a booking change
   invalidates, somebody else asks, the provider answers a read or fails it, a
   read's promise settles, or a wait ends (settled, or out of time).
   */
  datatype Event =
    | Invalidates(refs: set<string>)
    | Asks(asker: Asker)
    | Answers(read: nat)
    | Settles(read: nat)
    | Resumes(k: nat)

  datatype Turn = Turn(after: nat, event: Event)

  /** What a read begun for a connection, around a window, comes to: `None` if the provider fails it. */
  type Calendar = (Conn, Span, nat) -> Option<seq<Interval>>

  /** What the provider answers, when it can, is the connection's events that touch the window. */
  ghost predicate Serves(parse: Parse, calendar: Calendar, events: Conn -> set<Interval>) {
    forall conn, w, read: nat :: calendar(conn, w, read).Some? ==>
      Reports(parse, calendar(conn, w, read).value, events(conn), w)
  }

  /** A caller waits on read `w.read`, begun for its connection around its window. */
  ghost predicate WaitsFor(history: seq<ProviderRead>, clock: nat, timeout: nat, w: Waiter, asker: Asker) {
    && w.read < |history| && w.want == asker.want
    && history[w.read].key.conn == asker.conn && Contains(history[w.read].key.span, w.want)
    && w.joined <= clock && w.deadline == Max(w.joined, history[w.read].startedAt + timeout)
  }

  /** How an asker stands: unknown, answered with what is backed, or waiting on a read. */
  ghost predicate Stands(parse: Parse, history: seq<ProviderRead>, clock: nat, timeout: nat,
                         asker: Asker, reply: Reply, from: nat)
  {
    && (reply.Answer? ==> BackedBy(parse, history, from, asker.conn, asker.want, reply.intervals))
    && (reply.Wait? ==> WaitsFor(history, clock, timeout, reply.waiter, asker))
  }

  ghost predicate AllStand(parse: Parse, history: seq<ProviderRead>, clock: nat, timeout: nat,
                           askers: seq<Asker>, replies: seq<Reply>, froms: seq<nat>)
  {
    && |askers| == |replies| == |froms|
    && forall k :: 0 <= k < |askers| ==> Stands(parse, history, clock, timeout, askers[k], replies[k], froms[k])
  }

  lemma GoesOnStanding(parse: Parse, history: seq<ProviderRead>, later: seq<ProviderRead>, clock: nat, now: nat,
                       timeout: nat,
                       asker: Asker, reply: Reply, from: nat)
    requires Stands(parse, history, clock, timeout, asker, reply, from) && Grown(history, later) && clock <= now
    ensures Stands(parse, later, now, timeout, asker, reply, from)
  {
    if reply.Answer? {
      BackedForGood(parse, history, later, from, asker.conn, asker.want, reply.intervals);
    }
  }

  /** Whatever the cache goes through, an asker stands as before. */
  lemma AllGoOnStanding(parse: Parse, history: seq<ProviderRead>, later: seq<ProviderRead>, clock: nat, now: nat,
                        timeout: nat,
                        askers: seq<Asker>, replies: seq<Reply>, froms: seq<nat>)
    requires AllStand(parse, history, clock, timeout, askers, replies, froms) && Grown(history, later) && clock <= now
    ensures AllStand(parse, later, now, timeout, askers, replies, froms)
  {
    hide Stands, Grown;
    forall k | 0 <= k < |askers| ensures Stands(parse, later, now, timeout, askers[k], replies[k], froms[k]) {
      GoesOnStanding(parse, history, later, clock, now, timeout, askers[k], replies[k], froms[k]);
    }
  }

  /** The cache is sound, its calendars have not changed, and its askers stand. */
  ghost predicate InOrder(cache: BusyCache, events: Conn -> set<Interval>, askers: seq<Asker>, replies: seq<Reply>,
                          froms: seq<nat>)
    reads cache
  {
    && cache.Valid() && Unchanging(cache.parse, cache.history, events)
    && AllStand(cache.parse, cache.history, cache.clock, cache.timeout, askers, replies, froms)
  }

  /** One more asks. */
  method Ask(cache: BusyCache, asker: Asker, now: nat, ghost events: Conn -> set<Interval>)
    returns (reply: Reply, ghost from: nat)
    requires cache.Valid() && cache.clock <= now && Unchanging(cache.parse, cache.history, events)
    modifies cache
    ensures cache.Valid() && cache.clock == now && Grown(old(cache.history), cache.history)
    ensures Unchanging(cache.parse, cache.history, events)
    ensures Stands(cache.parse, cache.history, cache.clock, cache.timeout, asker, reply, from)
  {
    hide BusyCache.Valid, HasFresh, Covered, Cooling, NoStandIn, OnlyDropsOld, BackedBy, Widen;
    reply, from := cache.Read(asker.conn, asker.want, now);
  }

  method AskNext(cache: BusyCache, asker: Asker, now: nat, ghost events: Conn -> set<Interval>,
                 ghost askers: seq<Asker>, before: seq<Reply>, ghost asked: seq<nat>)
    returns (replies: seq<Reply>, ghost froms: seq<nat>)
    requires cache.clock <= now && InOrder(cache, events, askers, before, asked)
    modifies cache
    ensures cache.clock <= now && InOrder(cache, events, askers + [asker], replies, froms)
    ensures before <= replies && |replies| == |before| + 1
  {
    ghost var history, clock := cache.history, cache.clock;
    var reply, from := Ask(cache, asker, now, events);
    AllGoOnStanding(cache.parse, history, cache.history, clock, cache.clock, cache.timeout, askers, before, asked);
    replies, froms := before + [reply], asked + [from];
  }

  /** Every connection is asked before any of them is waited on. */
  method AskAll(cache: BusyCache, asking: seq<Asker>, now: nat, ghost events: Conn -> set<Interval>)
    returns (replies: seq<Reply>, ghost froms: seq<nat>)
    requires cache.clock <= now && InOrder(cache, events, [], [], [])
    modifies cache
    ensures cache.clock <= now && InOrder(cache, events, asking, replies, froms)
  {
    replies, froms := [], [];
    for k := 0 to |asking|
      invariant cache.clock <= now && InOrder(cache, events, asking[..k], replies, froms)
    {
      hide InOrder;
      replies, froms := AskNext(cache, asking[k], now, events, asking[..k], replies, froms);
      assert asking[..k] + [asking[k]] == asking[..k + 1];
    }
    assert asking[..|asking|] == asking;
  }

  /** The provider answers read `read`, or fails it. */
  method Conclude(cache: BusyCache, read: nat, now: nat, calendar: Calendar, ghost events: Conn -> set<Interval>)
    requires cache.Valid() && cache.clock <= now && read < |cache.history| && cache.history[read].outcome == Pending
    requires Unchanging(cache.parse, cache.history, events) && Serves(cache.parse, calendar, events)
    modifies cache
    ensures cache.Valid() && old(cache.clock) <= cache.clock <= now && Grown(old(cache.history), cache.history)
    ensures Unchanging(cache.parse, cache.history, events)
    ensures cache.history[read].outcome ==
      match calendar(old(cache.history)[read].key.conn, old(cache.history)[read].key.span, read)
      case Some(raw) => Answered(raw)
      case None => Outcome.Rejected
  {
    hide BusyCache.Valid;
    var raw := calendar(cache.history[read].key.conn, cache.history[read].key.span, read);
    if raw.Some? {
      cache.Land(read, raw.value);
    } else {
      cache.Reject(read, now);
    }
  }

  /** A wait ends: its read has settled, or its time is up. */
  method Resume(cache: BusyCache, ghost asker: Asker, w: Waiter, now: nat, ghost events: Conn -> set<Interval>)
    returns (reply: Reply, ghost from: nat)
    requires cache.Valid() && cache.clock <= now && Unchanging(cache.parse, cache.history, events)
    requires WaitsFor(cache.history, cache.clock, cache.timeout, w, asker)
    requires cache.history[w.read].finished || w.deadline <= now
    modifies cache
    ensures cache.Valid() && cache.clock == now && cache.history == old(cache.history) && !reply.Wait?
    ensures Stands(cache.parse, cache.history, cache.clock, cache.timeout, asker, reply, from)
  {
    hide BusyCache.Valid, NoStandIn, OnlyDropsOld, BackedBy;
    if cache.history[w.read].finished {
      reply, from := cache.Settle(w, now);
    } else {
      reply, from := cache.TimeOut(w, now);
    }
  }

  /** Asker `k`'s wait ends, if it can. */
  method ResumeAt(cache: BusyCache, k: nat, now: nat, ghost events: Conn -> set<Interval>,
                  ghost askers: seq<Asker>, before: seq<Reply>, ghost asked: seq<nat>)
    returns (replies: seq<Reply>, ghost froms: seq<nat>)
    requires cache.clock <= now && InOrder(cache, events, askers, before, asked) && k < |before|
    modifies cache
    ensures cache.clock <= now && InOrder(cache, events, askers, replies, froms) && |replies| == |before|
    ensures forall j :: 0 <= j < |before| && !before[j].Wait? ==> !replies[j].Wait?
    ensures before[k].Wait? && before[k].waiter.deadline <= now ==> !replies[k].Wait?
  {
    hide BusyCache.Valid, BackedBy, Unchanging;
    replies, froms := before, asked;
    if before[k].Wait? {
      assert Stands(cache.parse, cache.history, cache.clock, cache.timeout, askers[k], before[k], asked[k]);
      var w := before[k].waiter;
      if cache.history[w.read].finished || w.deadline <= now {
        ghost var history, clock := cache.history, cache.clock;
        var reply, from := Resume(cache, askers[k], w, now, events);
        hide Stands;
        AllGoOnStanding(cache.parse, history, cache.history, clock, cache.clock, cache.timeout, askers, before, asked);
        replies, froms := before[k := reply], asked[k := from];
      }
    }
  }

  /** One turn of the event loop; one that cannot happen now does nothing. */
  method TakeTurn(cache: BusyCache, event: Event, now: nat, calendar: Calendar, ghost events: Conn -> set<Interval>,
              ghost before: seq<Asker>, answered: seq<Reply>, ghost asked: seq<nat>)
    returns (ghost askers: seq<Asker>, replies: seq<Reply>, ghost froms: seq<nat>)
    requires cache.clock <= now && InOrder(cache, events, before, answered, asked)
      && Serves(cache.parse, calendar, events)
    modifies cache
    ensures cache.clock <= now && before <= askers && InOrder(cache, events, askers, replies, froms)
    ensures match event
      case Invalidates(_) => replies == answered
      case Asks(asker) => askers == before + [asker] && answered <= replies
      case Answers(read) =>
        && replies == answered && |old(cache.history)| <= |cache.history|
        && (read < |old(cache.history)| ==> cache.history[read].outcome != Pending)
      case Settles(read) =>
        && replies == answered && |old(cache.history)| <= |cache.history|
        && (read < |old(cache.history)| && old(cache.history)[read].outcome != Pending ==> cache.history[read].finished)
      case Resumes(k) =>
        k < |answered| && answered[k].Wait? && answered[k].waiter.deadline <= now ==> k < |replies| && !replies[k].Wait?
  {
    hide BusyCache.Valid, Stands, AllStand, Unchanging, Serves;
    askers, replies, froms := before, answered, asked;
    ghost var history, clock := cache.history, cache.clock;
    match event
    case Invalidates(refs) =>
      cache.Invalidate(refs);
      AllGoOnStanding(cache.parse, history, cache.history, clock, cache.clock, cache.timeout, before, answered, asked);
    case Asks(asker) =>
      replies, froms := AskNext(cache, asker, now, events, before, answered, asked);
      askers := before + [asker];
    case Answers(read) =>
      if read < |cache.history| && cache.history[read].outcome == Pending {
        Conclude(cache, read, now, calendar, events);
        AllGoOnStanding(cache.parse, history, cache.history, clock, cache.clock, cache.timeout, before, answered,
                        asked);
      }
    case Settles(read) =>
      if read < |cache.history| && cache.history[read].outcome != Pending && !cache.history[read].finished {
        Finish(cache, read, events);
        AllGoOnStanding(cache.parse, history, cache.history, clock, cache.clock, cache.timeout, before, answered,
                        asked);
      }
    case Resumes(k) =>
      if k < |answered| {
        replies, froms := ResumeAt(cache, k, now, events, before, answered, asked);
      }
  }

  /** The promise of a read settles. */
  method Finish(cache: BusyCache, read: nat, ghost events: Conn -> set<Interval>)
    requires cache.Valid() && Unchanging(cache.parse, cache.history, events)
    requires read < |cache.history| && cache.history[read].outcome != Pending && !cache.history[read].finished
    modifies cache
    ensures cache.Valid() && cache.clock == old(cache.clock) && Grown(old(cache.history), cache.history)
    ensures Unchanging(cache.parse, cache.history, events)
    ensures cache.history[read].finished
  {
    hide BusyCache.Valid;
    cache.Finish(read);
  }

  /** Whoever still waits runs out of time, one after the other. */
  method EndAll(cache: BusyCache, n: nat, now: nat, ghost events: Conn -> set<Interval>,
                ghost askers: seq<Asker>, before: seq<Reply>, ghost asked: seq<nat>)
    returns (replies: seq<Reply>, ghost froms: seq<nat>)
    requires cache.clock <= now && InOrder(cache, events, askers, before, asked) && n <= |before|
    modifies cache
    ensures InOrder(cache, events, askers, replies, froms)
    ensures n <= |replies| && forall k :: 0 <= k < n ==> !replies[k].Wait?
  {
    replies, froms := before, asked;
    var later := now;
    hide InOrder;
    for k := 0 to n
      invariant cache.clock <= later && InOrder(cache, events, askers, replies, froms) && n <= |replies|
      invariant forall j :: 0 <= j < k ==> !replies[j].Wait?
    {
      if replies[k].Wait? && replies[k].waiter.deadline > later {
        later := replies[k].waiter.deadline;
      }
      replies, froms := ResumeAt(cache, k, later, events, askers, replies, froms);
    }
  }

  function Asking(refs: seq<string>, calendars: seq<string>, want: Span): (askers: seq<Asker>)
    ensures |askers| == |refs| && forall k :: 0 <= k < |refs| ==> askers[k] == Asker(Conn(refs[k], calendars), want)
  {
    seq(|refs|, k requires 0 <= k < |refs| => Asker(Conn(refs[k], calendars), want))
  }

  function EndsOf(replies: seq<Reply>): (ends: seq<ReadEnd>)
    ensures |ends| == |replies|
    ensures forall k :: 0 <= k < |ends| ==>
      ends[k] == if replies[k].Answer? then Fulfilled(replies[k].intervals) else ReadEnd.Rejected
  {
    seq(|replies|, k requires 0 <= k < |replies| =>
      if replies[k].Answer? then Fulfilled(replies[k].intervals) else ReadEnd.Rejected)
  }

  /**
   A whole request through one cache, whatever it holds and however old, while
   anything in `turns` happens: what is listed is exactly the connections'
   events that touch the range.
   */
  method ListThrough(cache: BusyCache, refs: seq<string>, calendars: seq<string>, want: Span, start: nat,
                     turns: seq<Turn>, calendar: Calendar, ghost events: Conn -> set<Interval>)
    returns (r: Result)
    requires cache.Valid() && cache.clock <= start && refs != [] && IdsTellBounds(cache.parse)
    requires Unchanging(cache.parse, cache.history, events) && Serves(cache.parse, calendar, events)
    requires forall conn :: NoBars(events(conn))
    modifies cache
    ensures cache.Valid() && Unchanging(cache.parse, cache.history, events)
    ensures r.Listed? ==> forall x :: x in r.intervals <==>
      exists ref :: ref in refs && x in events(Conn(ref, calendars)) && Touches(cache.parse, x, want)
    ensures r.BusyUnknown? ==> 0 < r.unknown <= r.connections == |Unique(refs)|
  {
    var own, now := Asking(Unique(refs), calendars, want), start;
    hide BusyCache.Valid, Serves, Unchanging, NoBars, Touches;
    ghost var froms, askers := [], own;
    var replies;
    replies, froms := AskAll(cache, own, now, events);
    for i := 0 to |turns|
      invariant cache.clock <= now && own <= askers && InOrder(cache, events, askers, replies, froms)
    {
      now := now + turns[i].after;
      askers, replies, froms := TakeTurn(cache, turns[i].event, now, calendar, events, askers, replies, froms);
    }
    replies, froms := EndAll(cache, |own|, now, events, askers, replies, froms);
    var ends := EndsOf(replies[..|own|]);
    r := Combine(cache.parse, ends, want);
    if r.Listed? {
      DirectList(cache.parse, cache.history, refs, calendars, ends, froms[..|own|], want, events);
    }
  }

  ghost predicate AllBacked(parse: Parse, history: seq<ProviderRead>, own: seq<Asker>, ends: seq<ReadEnd>,
                            froms: seq<nat>) {
    |ends| == |froms| == |own| && forall k :: 0 <= k < |ends| && ends[k].Fulfilled? ==>
      BackedBy(parse, history, froms[k], own[k].conn, own[k].want, ends[k].intervals)
  }

  lemma DirectList(parse: Parse, history: seq<ProviderRead>, refs: seq<string>, calendars: seq<string>,
                   ends: seq<ReadEnd>,
                   froms: seq<nat>, want: Span, events: Conn -> set<Interval>)
    requires IdsTellBounds(parse) && Unchanging(parse, history, events) && forall conn :: NoBars(events(conn))
    requires AllBacked(parse, history, Asking(Unique(refs), calendars, want), ends, froms)
    requires forall k :: 0 <= k < |ends| ==> ends[k].Fulfilled?
    ensures forall x :: x in Clip(parse, Merged(ends), want) <==>
      exists ref :: ref in refs && x in events(Conn(ref, calendars)) && Touches(parse, x, want)
  {
    var unique := Unique(refs);
    var own := Asking(unique, calendars, want);
    forall k | 0 <= k < |ends| ensures Reports(parse, ends[k].intervals, events(own[k].conn), want) {
      AnswerIsWhatTouches(parse, history, froms[k], own[k].conn, want, ends[k].intervals, events);
    }
    MergedHolds(ends);
    forall x | x in Merged(ends)
      ensures '|' !in x.startUtc && Touches(parse, x, want)
      ensures exists ref :: ref in refs && x in events(Conn(ref, calendars)) && Touches(parse, x, want)
    {
      var k :| 0 <= k < |ends| && x in ends[k].intervals;
      assert NoBars(events(own[k].conn)) && unique[k] in refs && x in events(Conn(unique[k], calendars));
    }
    forall x, ref | ref in refs && x in events(Conn(ref, calendars)) && Touches(parse, x, want)
      ensures x in Merged(ends)
    {
      var k :| 0 <= k < |unique| && unique[k] == ref;
      assert x in ends[k].intervals;
    }
    ClipIsTheTouchingSet(parse, Merged(ends), want);
  }
}
