/**
 The busy cache: held reads with a freshness limit and an age limit, one
 provider read at a time per window, and invalidation by generation.

 Each turn of the event loop is one method call. A provider read answers
 (`Land`) and its promise settles (`Finish`) in two turns, and a caller who had
 to wait comes back in a third (`Settle` or `TimeOut`), so any other call may
 come in between. The clock is a parameter and does not run backwards.
 */
module BusyCache {
  import opened BusyIntervals
  import opened KeyIndex

  datatype Entry = Entry(intervals: seq<Interval>, fetchedAt: nat, freshUntil: nat)

  datatype Outcome = Pending | Answered(raw: seq<Interval>) | Rejected

  /** The promise of one provider read: `finished` once it has settled and its flight is gone. */
  datatype ProviderRead = ProviderRead(key: Key, startedAt: nat, outcome: Outcome, finished: bool)

  datatype Flight = Flight(read: nat, gen: nat)

  datatype Waiter = Waiter(read: nat, want: Span, joined: nat, deadline: nat)

  datatype Reply = Answer(intervals: seq<Interval>) | Unknown | Wait(waiter: Waiter)

  function Max(a: nat, b: nat): nat { if a >= b then a else b }

  function CountOf(counts: map<string, nat>, ref: string): nat { if ref in counts then counts[ref] else 0 }

  predicate Fresh(e: Entry, now: nat) { now < e.freshUntil }

  /** `best` prefers a fresh window, then the one read last. */
  predicate Better(a: Entry, b: Entry, now: nat) {
    (Fresh(a, now) && !Fresh(b, now)) || (Fresh(a, now) == Fresh(b, now) && a.fetchedAt > b.fetchedAt)
  }

  predicate Covers(k: Key, conn: Conn, want: Span) { k.conn == conn && Contains(k.span, want) }

  /** No later flight of a connection lies inside an earlier one. */
  ghost predicate NoneInsideEarlier(index: Index) {
    forall c, i, j :: c in index && 0 <= i < j < |index[c]| ==> !Contains(index[c][i].span, index[c][j].span)
  }

  /** What a read was asked, and once it answered its answer, never change. */
  ghost predicate Grown(before: seq<ProviderRead>, after: seq<ProviderRead>) {
    && |before| <= |after|
    && (forall i :: 0 <= i < |before| ==>
        && after[i].key == before[i].key && after[i].startedAt == before[i].startedAt
        && (before[i].outcome != Pending ==> after[i].outcome == before[i].outcome)
        && (before[i].finished ==> after[i].finished))
  }

  /** Held as read: cut from one answer to its own window; fresh only if not invalidated since that read began. */
  ghost predicate EntryHonest(parse: Parse, ttl: nat, k: Key, e: Entry, from: nat, history: seq<ProviderRead>,
                              born: seq<nat>, bumps: map<string, nat>)
  {
    && from < |history| && from < |born|
    && history[from].key == k && history[from].outcome.Answered?
    && e.intervals == Clip(parse, history[from].outcome.raw, k.span)
    && e.fetchedAt == history[from].startedAt
    && (e.freshUntil != 0 ==> e.freshUntil == e.fetchedAt + ttl && born[from] == CountOf(bumps, k.conn.ref))
  }

  ghost predicate Held(parse: Parse, ttl: nat, entries: map<Key, Entry>, source: map<Key, nat>,
                       history: seq<ProviderRead>, born: seq<nat>, bumps: map<string, nat>)
  {
    forall k {:trigger entries[k]} {:trigger source[k]} :: k in entries ==>
      k in source && EntryHonest(parse, ttl, k, entries[k], source[k], history, born, bumps)
  }

  /** The generation a flight noted tells how often its ref was invalidated since it began. */
  ghost predicate Flying(flights: map<Key, Flight>, history: seq<ProviderRead>, born: seq<nat>,
                         generation: map<string, nat>, bumps: map<string, nat>)
  {
    forall k {:trigger flights[k]} :: k in flights ==>
      && flights[k].read < |history| && flights[k].read < |born|
      && history[flights[k].read].key == k && !history[flights[k].read].finished
      && CountOf(generation, k.conn.ref) - flights[k].gen == CountOf(bumps, k.conn.ref) - born[flights[k].read]
  }

  /** Every read that has not settled is a live flight. */
  ghost predicate Recorded(history: seq<ProviderRead>, flights: map<Key, Flight>, clock: nat) {
    forall i :: 0 <= i < |history| ==>
      && history[i].startedAt <= clock
      && (history[i].outcome == Pending ==> !history[i].finished)
      && (!history[i].finished ==> history[i].key in flights && flights[history[i].key].read == i)
  }

  // ---------------------------------------------- choosing a held window

  predicate TooOld(e: Entry, now: nat, limit: nat) { now - e.fetchedAt > limit }

  /** The entries left once the too old of `gone` are dropped. */
  function Surviving(es: map<Key, Entry>, gone: seq<Key>, now: nat, limit: nat): map<Key, Entry> {
    map k | k in es && !(k in gone && TooOld(es[k], now, limit)) :: es[k]
  }

  lemma SurvivingOneMore(es: map<Key, Entry>, keys: seq<Key>, i: nat, now: nat, limit: nat)
    requires i < |keys| && Distinct(keys) && keys[i] in es
    ensures keys[i] in Surviving(es, keys[..i], now, limit)
    ensures Surviving(es, keys[..i + 1], now, limit) ==
      Surviving(es, keys[..i], now, limit) - (if TooOld(es[keys[i]], now, limit) then {keys[i]} else {})
  {
    assert keys[..i + 1] == keys[..i] + [keys[i]];
    assert keys[i] !in keys[..i];
  }

  /** Nothing is lost but windows too old to be of use, and nothing changed. */
  ghost predicate OnlyDropsOld(before: map<Key, Entry>, after: map<Key, Entry>, now: nat, limit: nat) {
    && (forall k :: k in after ==> k in before && after[k] == before[k])
    && (forall k :: k in before && k !in after ==> TooOld(before[k], now, limit))
  }

  lemma SurvivingOnlyDropsOld(es: map<Key, Entry>, gone: seq<Key>, now: nat, limit: nat)
    ensures OnlyDropsOld(es, Surviving(es, gone, now, limit), now, limit)
  {
  }

  lemma DropsOldTwice(a: map<Key, Entry>, b: map<Key, Entry>, c: map<Key, Entry>, now: nat, limit: nat)
    requires OnlyDropsOld(a, b, now, limit) && OnlyDropsOld(b, c, now, limit)
    ensures OnlyDropsOld(a, c, now, limit)
  {
  }

  predicate Usable(es: map<Key, Entry>, k: Key, want: Span, now: nat, limit: nat) {
    k in es && !TooOld(es[k], now, limit) && Contains(k.span, want)
  }

  /** The window picked among `keys`, in their order. */
  function Picked(es: map<Key, Entry>, keys: seq<Key>, want: Span, now: nat, limit: nat): (pick: Option<Key>)
    ensures pick.Some? ==> pick.value in keys && Usable(es, pick.value, want, now, limit)
  {
    if keys == [] then None
    else
      var k, before := keys[|keys| - 1], Picked(es, keys[..|keys| - 1], want, now, limit);
      if Usable(es, k, want, now, limit) && (before.None? || Better(es[k], es[before.value], now)) then Some(k)
        else before
  }

  lemma NoneTried(es: map<Key, Entry>, want: Span, now: nat, limit: nat)
    ensures Surviving(es, [], now, limit) == es && Picked(es, [], want, now, limit) == None
  {
  }

  lemma PickedOneMore(es: map<Key, Entry>, keys: seq<Key>, i: nat, want: Span, now: nat, limit: nat)
    requires i < |keys| && keys[i] in es
    ensures Picked(es, keys[..i + 1], want, now, limit) ==
      var k, before := keys[i], Picked(es, keys[..i], want, now, limit);
      if !TooOld(es[k], now, limit) && Contains(k.span, want) && (before.None? || Better(es[k], es[before.value], now))
      then Some(k) else before
  {
    assert keys[..i + 1][..i] == keys[..i];
  }

  /** The window picked is not among those dropped. */
  lemma PickSurvives(es: map<Key, Entry>, keys: seq<Key>, want: Span, now: nat, limit: nat)
    ensures var pick, left := Picked(es, keys, want, now, limit), Surviving(es, keys, now, limit);
      pick.Some? ==>
        && pick.value in keys && Contains(pick.value.span, want)
        && pick.value in left && left[pick.value] == es[pick.value]
  {
  }

  lemma {:induction false} PickedIsBest(es: map<Key, Entry>, keys: seq<Key>, want: Span, now: nat, limit: nat)
    ensures Picked(es, keys, want, now, limit).None? ==> forall k :: k in keys ==> !Usable(es, k, want, now, limit)
    ensures Picked(es, keys, want, now, limit).Some? ==> forall k :: k in keys && Usable(es, k, want, now, limit) ==>
      !Better(es[k], es[Picked(es, keys, want, now, limit).value], now)
  {
    if keys != [] {
      PickedIsBest(es, keys[..|keys| - 1], want, now, limit);
      assert keys == keys[..|keys| - 1] + [keys[|keys| - 1]];
    }
  }

  /** When a failed read has no stand-in: all that is held is too old, or a fresh window hides it and is. */
  ghost predicate NoStandIn(es: map<Key, Entry>, conn: Conn, want: Span, now: nat, maxStale: nat) {
    || (forall k :: k in es && Covers(k, conn, want) ==> now - es[k].fetchedAt > maxStale)
    || (&& (exists k :: k in es && Covers(k, conn, want) && Fresh(es[k], now))
        && (forall k :: k in es && Covers(k, conn, want) && Fresh(es[k], now) ==> now - es[k].fetchedAt > maxStale))
  }

  /** With a freshness limit no longer than the stale limit, only age keeps a window from standing in. */
  lemma OnlyAgeKeepsFromStandingIn(es: map<Key, Entry>, conn: Conn, want: Span, now: nat, maxStale: nat, ttl: nat)
    requires ttl <= maxStale && forall k :: k in es && Fresh(es[k], now) ==> es[k].freshUntil == es[k].fetchedAt + ttl
    ensures NoStandIn(es, conn, want, now, maxStale) <==>
      forall k :: k in es && Covers(k, conn, want) ==> now - es[k].fetchedAt > maxStale
  {
  }

  /** With a longer one, a fresh window past the stale limit hides an invalidated one within it. */
  lemma FreshHidesYounger(conn: Conn, day: int, maxStale: nat, ttl: nat)
    returns (es: map<Key, Entry>, want: Span, now: nat, young: Key)
    requires ttl > maxStale + 1
    ensures forall k :: k in es && Fresh(es[k], now) ==> es[k].freshUntil == es[k].fetchedAt + ttl
    ensures young in es && Covers(young, conn, want) && now - es[young].fetchedAt <= maxStale
    ensures NoStandIn(es, conn, want, now, maxStale)
  {
    want, now := Span(day, day + 1), maxStale + 1;
    young := Key(conn, want);
    var older := Key(conn, Span(day, day + 2));
    es := map[young := Entry([], 1, 0), older := Entry([], 0, ttl)];
    assert Covers(older, conn, want) && Fresh(es[older], now);
  }

  lemma PickedStandsIn(es: map<Key, Entry>, keys: seq<Key>, conn: Conn, want: Span, now: nat, maxStale: nat, ttl: nat)
    requires forall k :: k in keys <==> k in es && k.conn == conn
    requires forall k :: k in es && Fresh(es[k], now) ==> es[k].freshUntil == es[k].fetchedAt + ttl
    ensures var pick := Picked(es, keys, want, now, Max(maxStale, ttl));
      NoStandIn(es, conn, want, now, maxStale) <==> pick.None? || now - es[pick.value].fetchedAt > maxStale
  {
    var limit := Max(maxStale, ttl);
    PickedIsBest(es, keys, want, now, limit);
    var pick := Picked(es, keys, want, now, limit);
    assert forall k :: k in es && Covers(k, conn, want) && Fresh(es[k], now) ==> Usable(es, k, want, now, limit);
    if pick.Some? {
      assert Covers(pick.value, conn, want);
    }
  }

  /** A window read within the freshness limit and not invalidated since is held. */
  ghost predicate HasFresh(es: map<Key, Entry>, conn: Conn, want: Span, now: nat) {
    exists k :: k in es && Covers(k, conn, want) && Fresh(es[k], now)
  }

  lemma PickedIsFresh(es: map<Key, Entry>, keys: seq<Key>, conn: Conn, want: Span, now: nat, limit: nat, ttl: nat)
    requires limit >= ttl && forall k :: k in keys <==> k in es && k.conn == conn
    requires forall k :: k in es && Fresh(es[k], now) ==> es[k].freshUntil == es[k].fetchedAt + ttl
    ensures var pick := Picked(es, keys, want, now, limit);
      HasFresh(es, conn, want, now) <==> pick.Some? && Fresh(es[pick.value], now)
  {
    PickedIsBest(es, keys, want, now, limit);
    var pick := Picked(es, keys, want, now, limit);
    if HasFresh(es, conn, want, now) {
      var k :| k in es && Covers(k, conn, want) && Fresh(es[k], now);
      assert Usable(es, k, want, now, limit);
    }
    if pick.Some? {
      assert Covers(pick.value, conn, want);
    }
  }

  lemma HeldIsDated(parse: Parse, ttl: nat, es: map<Key, Entry>, source: map<Key, nat>,
                    history: seq<ProviderRead>, born: seq<nat>, bumps: map<string, nat>)
    requires Held(parse, ttl, es, source, history, born, bumps)
    ensures forall k :: k in es && es[k].freshUntil != 0 ==> es[k].freshUntil == es[k].fetchedAt + ttl
  {
  }

  lemma FreshIsYoung(parse: Parse, ttl: nat, k: Key, e: Entry, from: nat, history: seq<ProviderRead>,
                     born: seq<nat>, bumps: map<string, nat>, now: nat)
    requires EntryHonest(parse, ttl, k, e, from, history, born, bumps) && Fresh(e, now)
    ensures from < |history| && from < |born|
    ensures now - history[from].startedAt < ttl && born[from] == CountOf(bumps, k.conn.ref)
  {
  }

  /** Windows dropped as too old would not have stood in, nor been fresh. */
  lemma DroppedStandInForNothing(es: map<Key, Entry>, gone: seq<Key>, conn: Conn, want: Span, now: nat,
                                 maxStale: nat, ttl: nat)
    requires forall k :: k in es && Fresh(es[k], now) ==> es[k].freshUntil == es[k].fetchedAt + ttl
    ensures NoStandIn(Surviving(es, gone, now, Max(maxStale, ttl)), conn, want, now, maxStale) <==>
      NoStandIn(es, conn, want, now, maxStale)
  {
    var left := Surviving(es, gone, now, Max(maxStale, ttl));
    assert forall k :: k in es && k !in left ==> now - es[k].fetchedAt > maxStale && !Fresh(es[k], now);
    if k :| k in es && Covers(k, conn, want) && Fresh(es[k], now) {
      assert k in left;
    }
  }

  lemma HeldFewer(parse: Parse, ttl: nat, es: map<Key, Entry>, gone: seq<Key>, now: nat, limit: nat,
                  source: map<Key, nat>,
                  history: seq<ProviderRead>, born: seq<nat>, bumps: map<string, nat>)
    requires Held(parse, ttl, es, source, history, born, bumps)
    ensures Held(parse, ttl, Surviving(es, gone, now, limit), source, history, born, bumps)
  {
  }

  lemma LandedIsHonest(parse: Parse, ttl: nat, k: Key, e: Entry, history: seq<ProviderRead>, born: seq<nat>,
                       bumps: map<string, nat>, i: nat)
    requires i < |history| && i < |born| && history[i].key == k && history[i].outcome.Answered?
    requires e == Entry(Clip(parse, history[i].outcome.raw, k.span), history[i].startedAt,
      if born[i] == CountOf(bumps, k.conn.ref) then history[i].startedAt + ttl else 0)
    ensures EntryHonest(parse, ttl, k, e, i, history, born, bumps)
  {
  }

  lemma HeldOneMore(parse: Parse, ttl: nat, es: map<Key, Entry>, more: map<Key, Entry>, source: map<Key, nat>,
                    history: seq<ProviderRead>, born: seq<nat>, bumps: map<string, nat>, k: Key, from: nat)
    requires Held(parse, ttl, es, source, history, born, bumps)
    requires forall x :: x in more && x != k ==> x in es && more[x] == es[x]
    requires k in more && EntryHonest(parse, ttl, k, more[k], from, history, born, bumps)
    ensures Held(parse, ttl, more, source[k := from], history, born, bumps)
  {
    forall x | x in more
      ensures x in source[k := from] && EntryHonest(parse, ttl, x, more[x], source[k := from][x], history, born, bumps)
    {
      if x != k {
        assert EntryHonest(parse, ttl, x, es[x], source[x], history, born, bumps);
      }
    }
  }

  /** An entry whose ref is bumped loses its freshness; the others keep their account. */
  lemma HeldInvalidated(parse: Parse, ttl: nat, es: map<Key, Entry>, es': map<Key, Entry>, source: map<Key, nat>,
                        history: seq<ProviderRead>, born: seq<nat>, bumps: map<string, nat>, bumps': map<string, nat>)
    requires Held(parse, ttl, es, source, history, born, bumps)
    requires forall k :: k in es' ==> k in es
    requires forall k :: k in es' ==>
      (es'[k] == es[k] && CountOf(bumps', k.conn.ref) == CountOf(bumps, k.conn.ref))
        || es'[k] == es[k].(freshUntil := 0)
    ensures Held(parse, ttl, es', source, history, born, bumps')
  {
    forall k | k in es'
      ensures k in source && EntryHonest(parse, ttl, k, es'[k], source[k], history, born, bumps')
    {
      assert EntryHonest(parse, ttl, k, es[k], source[k], history, born, bumps);
    }
  }

  lemma HeldLater(parse: Parse, ttl: nat, es: map<Key, Entry>, source: map<Key, nat>, history: seq<ProviderRead>,
                  later: seq<ProviderRead>, born: seq<nat>, bornLater: seq<nat>, bumps: map<string, nat>)
    requires Held(parse, ttl, es, source, history, born, bumps)
    requires Grown(history, later) && born <= bornLater
    ensures Held(parse, ttl, es, source, later, bornLater, bumps)
  {
    forall k | k in es
      ensures k in source && EntryHonest(parse, ttl, k, es[k], source[k], later, bornLater, bumps)
    {
      assert EntryHonest(parse, ttl, k, es[k], source[k], history, born, bumps);
    }
  }

  lemma HeldAnswers(parse: Parse, ttl: nat, es: map<Key, Entry>, source: map<Key, nat>, history: seq<ProviderRead>,
                    born: seq<nat>, bumps: map<string, nat>, k: Key, want: Span)
    requires Held(parse, ttl, es, source, history, born, bumps) && k in es && Contains(k.span, want)
    ensures k in source && EntryHonest(parse, ttl, k, es[k], source[k], history, born, bumps)
    ensures source[k] < |history| && history[source[k]].key == k && history[source[k]].outcome.Answered?
    ensures es[k].fetchedAt == history[source[k]].startedAt
    ensures IdsTellBounds(parse) ==>
      Clip(parse, es[k].intervals, want) == Clip(parse, history[source[k]].outcome.raw, want)
  {
    assert EntryHonest(parse, ttl, k, es[k], source[k], history, born, bumps);
    if IdsTellBounds(parse) {
      NestedClip(parse, history[source[k]].outcome.raw, k.span, want);
    }
  }

  // ------------------------------------------------------------- flights

  predicate Covered(flights: map<Key, Flight>, conn: Conn, want: Span) {
    exists k :: k in flights && Covers(k, conn, want)
  }

  predicate Cooling(failedAt: map<Conn, nat>, conn: Conn, now: nat, cooldown: nat) {
    conn in failedAt && now - failedAt[conn] < cooldown
  }

  lemma FlightBegins(flights: map<Key, Flight>, history: seq<ProviderRead>, born: seq<nat>,
                     generation: map<string, nat>, bumps: map<string, nat>, clock: nat, k: Key)
    requires Flying(flights, history, born, generation, bumps) && Recorded(history, flights, clock)
    requires k !in flights && |born| == |history|
    ensures var flights' := flights[k := Flight(|history|, CountOf(generation, k.conn.ref))];
      var history' := history + [ProviderRead(k, clock, Pending, false)];
      && Flying(flights', history', born + [CountOf(bumps, k.conn.ref)], generation, bumps)
      && Recorded(history', flights', clock) && Grown(history, history')
  {
    var history' := history + [ProviderRead(k, clock, Pending, false)];
    assert forall i :: 0 <= i < |history| ==> history'[i] == history[i];
  }

  lemma FlightNames(flights: map<Key, Flight>, history: seq<ProviderRead>, born: seq<nat>,
                    generation: map<string, nat>, bumps: map<string, nat>, k: Key)
    requires Flying(flights, history, born, generation, bumps) && k in flights
    ensures flights[k].read < |history| && history[flights[k].read].key == k
  {
  }

  lemma RecordedLater(history: seq<ProviderRead>, flights: map<Key, Flight>, clock: nat, now: nat)
    requires Recorded(history, flights, clock) && clock <= now
    ensures Recorded(history, flights, now)
  {
  }

  lemma WidenedCovers(flights: map<Key, Flight>, conn: Conn, want: Span)
    requires !Covered(flights, conn, want)
    ensures !Covered(flights, conn, Widen(want)) && Contains(Widen(want), want)
  {
    WidenIsTight(want, want);
    forall k | k in flights ensures !Covers(k, conn, Widen(want)) {
      assert !Covers(k, conn, want);
    }
  }

  /** A provider read answers or fails: its flight stays until the promise settles. */
  lemma FlightLands(flights: map<Key, Flight>, history: seq<ProviderRead>, born: seq<nat>, generation: map<string, nat>,
                    bumps: map<string, nat>, clock: nat, i: nat, outcome: Outcome)
    requires Flying(flights, history, born, generation, bumps) && Recorded(history, flights, clock)
    requires i < |history| && history[i].outcome == Pending && outcome != Pending
    ensures var history' := history[i := history[i].(outcome := outcome)];
      && Flying(flights, history', born, generation, bumps) && Recorded(history', flights, clock)
      && Grown(history, history')
    ensures history[i].key in flights && flights[history[i].key].read == i
    ensures i < |born| ==>
      (CountOf(generation, history[i].key.conn.ref) == flights[history[i].key].gen <==>
       born[i] == CountOf(bumps, history[i].key.conn.ref))
  {
  }

  lemma FlightEnds(flights: map<Key, Flight>, history: seq<ProviderRead>, born: seq<nat>, generation: map<string, nat>,
                   bumps: map<string, nat>, clock: nat, i: nat)
    requires Flying(flights, history, born, generation, bumps) && Recorded(history, flights, clock)
    requires i < |history| && history[i].outcome != Pending && !history[i].finished
    ensures var history' := history[i := history[i].(finished := true)];
      && Flying(flights - {history[i].key}, history', born, generation, bumps)
      && Recorded(history', flights - {history[i].key}, clock) && Grown(history, history')
  {
  }

  /** A ref counted on in both maps alike keeps every flight's account. */
  lemma FlightsRecount(flights: map<Key, Flight>, history: seq<ProviderRead>, born: seq<nat>,
                       generation: map<string, nat>,
                       bumps: map<string, nat>, generation': map<string, nat>, bumps': map<string, nat>)
    requires Flying(flights, history, born, generation, bumps)
    requires forall k {:trigger flights[k]} :: k in flights ==>
      CountOf(generation', k.conn.ref) - CountOf(generation, k.conn.ref) ==
        CountOf(bumps', k.conn.ref) - CountOf(bumps, k.conn.ref)
    ensures Flying(flights, history, born, generation', bumps')
  {
  }

  lemma NoneInsideBegins(index: Index, flights: map<Key, Flight>, k: Key)
    requires NoneInsideEarlier(index) && Inverse(index, flights.Keys) && !Covered(flights, k.conn, k.span)
    ensures NoneInsideEarlier(Added(index, k)) && k !in flights
  {
    FiledUnder(index, flights.Keys, k.conn);
    assert Covers(k, k.conn, k.span);
    assert forall x :: x in KeysOf(index, k.conn) ==> Covers(x, k.conn, k.span) || !Contains(x.span, k.span);
  }

  lemma {:induction false} WithoutKeepsOutside(keys: seq<Key>, k: Key)
    requires forall i, j :: 0 <= i < j < |keys| ==> !Contains(keys[i].span, keys[j].span)
    ensures forall i, j :: 0 <= i < j < |Without(keys, k)| ==>
      !Contains(Without(keys, k)[i].span, Without(keys, k)[j].span)
  {
    if keys != [] {
      WithoutKeepsOutside(keys[1..], k);
      assert forall x :: x in keys[1..] ==> !Contains(keys[0].span, x.span);
    }
  }

  lemma NoneInsideEnds(index: Index, k: Key)
    requires NoneInsideEarlier(index)
    ensures NoneInsideEarlier(Removed(index, k))
  {
    if k.conn in index {
      WithoutKeepsOutside(index[k.conn], k);
    }
  }

  /** Of the entries listed, those of `refs` are fresh no longer. */
  function Staled(es: map<Key, Entry>, listed: seq<Key>, refs: set<string>): map<Key, Entry> {
    map k | k in es :: if k in listed && k.conn.ref in refs then es[k].(freshUntil := 0) else es[k]
  }

  lemma StaledOneMore(es: map<Key, Entry>, listed: seq<Key>, i: nat, refs: set<string>)
    requires i < |listed| && listed[i] in es
    ensures var before := Staled(es, listed[..i], refs);
      && listed[i] in before && before.Keys == es.Keys
      && Staled(es, listed[..i + 1], refs) ==
        (if listed[i].conn.ref in refs then before[listed[i] := before[listed[i]].(freshUntil := 0)] else before)
  {
    assert listed[..i + 1] == listed[..i] + [listed[i]];
  }

  lemma StaledAll(es: map<Key, Entry>, listed: seq<Key>, refs: set<string>)
    requires forall k :: k in es ==> k in listed
    ensures Staled(es, [], refs) == es && Staled(es, listed, refs).Keys == es.Keys
    ensures forall k :: k in es ==>
      Staled(es, listed, refs)[k] == (if k.conn.ref in refs then es[k].(freshUntil := 0) else es[k])
  {
  }

  predicate InUse(es: map<Key, Entry>, flights: map<Key, Flight>, ref: string) {
    (exists k :: k in es && k.conn.ref == ref) || (exists k :: k in flights && k.conn.ref == ref)
  }

  /** Each of `refs` counted once more. */
  function CountUp(counts: map<string, nat>, refs: set<string>): map<string, nat> {
    map r | r in counts.Keys + refs :: CountOf(counts, r) + if r in refs then 1 else 0
  }

  lemma CountedUp(counts: map<string, nat>, refs: set<string>)
    ensures forall r :: CountOf(CountUp(counts, refs), r) == CountOf(counts, r) + if r in refs then 1 else 0
  {
  }

  /** The answer is what one provider read, of a window around the request, says of the request. */
  ghost predicate BackedBy(parse: Parse, history: seq<ProviderRead>, from: nat, conn: Conn, want: Span,
                           answer: seq<Interval>) {
    && from < |history| && history[from].key.conn == conn && Contains(history[from].key.span, want)
    && history[from].outcome.Answered?
    && (IdsTellBounds(parse) ==> answer == Clip(parse, history[from].outcome.raw, want))
  }

  /** The failures remembered at `now`: all of them, or past twice the limit those that may still cool down. */
  function Remembered(failedAt: map<Conn, nat>, maxEntries: nat, cooldown: nat, now: nat): map<Conn, nat> {
    map c | c in failedAt && (|failedAt| <= 2 * maxEntries || now - failedAt[c] <= cooldown) :: failedAt[c]
  }

  /** What backed an answer backs it for good, whatever the cache does next. */
  lemma BackedForGood(parse: Parse, history: seq<ProviderRead>, later: seq<ProviderRead>, from: nat, conn: Conn,
                      want: Span, answer: seq<Interval>)
    requires BackedBy(parse, history, from, conn, want, answer) && Grown(history, later)
    ensures BackedBy(parse, later, from, conn, want, answer)
  {
  }

  class BusyCache {
    const parse: Parse
    const ttl: nat
    const maxStale: nat
    const maxEntries: nat
    const timeout: nat
    const cooldown: nat

    var entries: map<Key, Entry>
    var order: seq<Key>
    var entriesByConn: Index
    var flights: map<Key, Flight>
    var flightsByConn: Index
    var generation: map<string, nat>
    var failedAt: map<Conn, nat>
    var history: seq<ProviderRead>

    /** What the invariant speaks of: every invalidation ever, and which read each entry came from. */
    ghost var bumps: map<string, nat>
    ghost var born: seq<nat>
    ghost var source: map<Key, nat>
    ghost var usedAt: map<Key, nat>
    ghost var tick: nat
    ghost var clock: nat

    /** The windows held are filed by connection and by use. */
    ghost predicate Shelved()
      reads `entries, `order, `entriesByConn, `usedAt, `tick
    {
      Shelf(entries.Keys, order, entriesByConn, usedAt, tick)
    }

    ghost predicate Valid()
      reads this
    {
      && maxEntries >= 1 && timeout >= 1 && |born| == |history|
      && Shelved() && |order| <= maxEntries
      && Inverse(flightsByConn, flights.Keys)
      && NoneInsideEarlier(flightsByConn)
      && Held(parse, ttl, entries, source, history, born, bumps)
      && Flying(flights, history, born, generation, bumps)
      && Recorded(history, flights, clock)
    }

    ghost predicate Backed(from: nat, conn: Conn, want: Span, answer: seq<Interval>)
      reads `history
    {
      BackedBy(parse, history, from, conn, want, answer)
    }

    /** The window that read `from` filled is the one used last. */
    ghost predicate UsedLast(from: nat)
      reads `order, `source
    {
      order != [] && order[|order| - 1] in source && source[order[|order| - 1]] == from
    }

    /** A caller waiting on a read under way, or just settled. */
    ghost predicate Waiting(w: Waiter)
      reads `history, `clock
    {
      && w.read < |history| && Contains(history[w.read].key.span, w.want)
      && w.joined <= clock && w.deadline == Max(w.joined, history[w.read].startedAt + timeout)
    }

    constructor (parse: Parse, ttl: int, maxStale: int, maxEntries: int, timeout: int, cooldown: int)
      ensures Valid() && entries == map[] && flights == map[] && history == [] && bumps == map[] && clock == 0
      ensures this.parse == parse && this.ttl == (if ttl > 0 then ttl else 0)
      ensures this.maxEntries == (if maxEntries > 1 then maxEntries else 1)
      ensures this.maxStale == (if maxStale > 0 then maxStale else 0)
      ensures this.timeout == (if timeout > 1 then timeout else 1)
      ensures this.cooldown == (if cooldown > 0 then cooldown else 0)
    {
      this.parse := parse;
      this.ttl := if ttl > 0 then ttl else 0;
      this.maxStale := if maxStale > 0 then maxStale else 0;
      this.maxEntries := if maxEntries > 1 then maxEntries else 1;
      this.timeout := if timeout > 1 then timeout else 1;
      this.cooldown := if cooldown > 0 then cooldown else 0;
      entries, order, entriesByConn := map[], [], map[];
      flights, flightsByConn, generation, failedAt, history := map[], map[], map[], map[], [];
      bumps, born, source, usedAt, tick, clock := map[], [], map[], map[], 0, 0;
    }

    // ------------------------------------------------------ what is held

    method Drop(k: Key)
      requires Shelved() && k in entries
      modifies `entries, `order, `entriesByConn
      ensures Shelved()
      ensures entries == old(entries) - {k} && order == Without(old(order), k)
    {
      ShelfDrops(entries.Keys, order, entriesByConn, usedAt, tick, k);
      ghost var was := entries;
      entries := entries - {k};
      assert entries.Keys == was.Keys - {k};
      order := Without(order, k);
      entriesByConn := Removed(entriesByConn, k);
    }

    /** The best held window that covers `want`; windows of the connection that are too old are dropped. */
    method Best(conn: Conn, want: Span, now: nat) returns (pick: Option<Key>)
      requires Shelved()
      modifies `entries, `order, `entriesByConn
      ensures Shelved() && |order| <= |old(order)|
      ensures entries == Surviving(old(entries), old(KeysOf(entriesByConn, conn)), now, Max(maxStale, ttl))
      ensures pick == Picked(old(entries), old(KeysOf(entriesByConn, conn)), want, now, Max(maxStale, ttl))
      ensures pick.Some? ==>
        pick.value in entries && entries[pick.value] == old(entries[pick.value]) && Covers(pick.value, conn, want)
    {
      pick := None;
      FiledUnder(entriesByConn, entries.Keys, conn);
      hide Shelf, Inverse, Surviving, Picked;
      var keys, limit := KeysOf(entriesByConn, conn), Max(maxStale, ttl);
      ghost var held := entries;
      assert forall k :: 0 <= k < |keys| ==> keys[k] in held && keys[k].conn == conn;
      hide KeysOf, Max, Contains, Distinct;
      var i := 0;
      NoneTried(held, want, now, limit);
      while i < |keys|
        invariant 0 <= i <= |keys| && Shelved() && |order| <= |old(order)|
        invariant entries == Surviving(held, keys[..i], now, limit)
        invariant pick == Picked(held, keys[..i], want, now, limit)
      {
        pick := Weigh(held, keys, i, want, now, limit, pick);
        i := i + 1;
      }
      assert keys[..i] == keys;
      PickSurvives(held, keys, want, now, limit);
    }

    /** One window of the connection: dropped if it is too old, else picked if it is better. */
    method Weigh(ghost held: map<Key, Entry>, keys: seq<Key>, i: nat, want: Span, now: nat, limit: nat,
                 before: Option<Key>)
      returns (pick: Option<Key>)
      requires Shelved() && i < |keys| && Distinct(keys) && keys[i] in held
      requires entries == Surviving(held, keys[..i], now, limit) && before == Picked(held, keys[..i], want, now, limit)
      modifies `entries, `order, `entriesByConn
      ensures Shelved() && |order| <= |old(order)|
      ensures entries == Surviving(held, keys[..i + 1], now, limit)
        && pick == Picked(held, keys[..i + 1], want, now, limit)
    {
      var k := keys[i];
      PickSurvives(held, keys[..i], want, now, limit);
      SurvivingOneMore(held, keys, i, now, limit);
      PickedOneMore(held, keys, i, want, now, limit);
      hide Shelf, Inverse, Picked;
      pick := before;
      if TooOld(entries[k], now, limit) {
        Drop(k);
      } else if Contains(k.span, want) && (pick.None? || Better(entries[k], entries[pick.value], now)) {
        pick := Some(k);
      }
    }

    method Touch(k: Key)
      requires Shelved() && k in entries
      modifies `order, `usedAt, `tick
      ensures Shelved() && order == Without(old(order), k) + [k] && |order| == |old(order)|
    {
      hide Shelf;
      ShelfCounts(entries.Keys, order, entriesByConn, usedAt, tick);
      ShelfTouches(entries.Keys, order, entriesByConn, usedAt, tick, k);
      order := Without(order, k) + [k];
      usedAt, tick := usedAt[k := tick], tick + 1;
      ShelfCounts(entries.Keys, order, entriesByConn, usedAt, tick);
    }

    /** Puts a window in last place, over any held for its key. */
    method Insert(k: Key, e: Entry)
      requires Shelved()
      modifies `entries, `order, `entriesByConn, `usedAt, `tick
      ensures Shelved() && entries == old(entries)[k := e]
      ensures order == Without(old(order), k) + [k]
      ensures usedAt == old(usedAt)[k := old(tick)] && tick == old(tick) + 1
    {
      hide Shelf;
      if k in entries {
        Drop(k);
      }
      ghost var kept := entries;
      ShelfTakes(entries.Keys, order, entriesByConn, usedAt, tick, k);
      entries := entries[k := e];
      assert entries.Keys == kept.Keys + {k};
      order := order + [k];
      usedAt, tick := usedAt[k := tick], tick + 1;
      entriesByConn := Added(entriesByConn, k);
    }

    /** Over the limit, the windows used longest ago go. */
    method Evict()
      requires Shelved() && |order| <= maxEntries + 1
      modifies `entries, `order, `entriesByConn
      ensures Shelved()
      ensures |old(order)| <= maxEntries ==> entries == old(entries) && order == old(order)
      ensures |old(order)| > maxEntries ==> order == old(order)[1..] && entries == old(entries) - {old(order)[0]}
    {
      while |order| > maxEntries
        invariant Shelved()
        invariant (entries == old(entries) && order == old(order)) ||
          (|old(order)| > maxEntries && order == old(order)[1..] && entries == old(entries) - {old(order)[0]})
      {
        ShelfOldest(entries.Keys, order, entriesByConn, usedAt, tick);
        Drop(order[0]);
      }
    }

    /** Holds a window. Over the limit, the one used longest ago goes, never the one just stored. */
    method Store(k: Key, e: Entry)
      requires Shelved() && |order| <= maxEntries && maxEntries >= 1
      modifies `entries, `order, `entriesByConn, `usedAt, `tick
      ensures Shelved() && |order| <= maxEntries
      ensures k in entries && entries[k] == e
      ensures forall x :: x in entries && x != k ==> x in old(entries) && entries[x] == old(entries)[x]
      ensures forall v :: v in old(entries) && v !in entries ==>
        v in usedAt && forall x :: x in entries ==> x in usedAt && usedAt[v] < usedAt[x]
      ensures (exists v :: v in old(entries) && v !in entries) ==> |entries| == maxEntries
      ensures usedAt == old(usedAt)[k := old(tick)] && tick == old(tick) + 1
    {
      hide Shelf;
      Insert(k, e);
      ShelfOldest(entries.Keys, order, entriesByConn, usedAt, tick);
      assert |order| > maxEntries ==> order[0] != k;
      Evict();
      ShelfCounts(entries.Keys, order, entriesByConn, usedAt, tick);
    }

    // -------------------------------------------------- reads in flight

    /** A read of this connection under way whose window covers `want`. */
    method FlightFor(conn: Conn, want: Span) returns (found: Option<Key>)
      requires Inverse(flightsByConn, flights.Keys)
      ensures found.Some? ==> found.value in flights && Covers(found.value, conn, want)
      ensures found.None? <==> !Covered(flights, conn, want)
    {
      FiledUnder(flightsByConn, flights.Keys, conn);
      var keys := KeysOf(flightsByConn, conn);
      for i := 0 to |keys|
        invariant forall j :: 0 <= j < i ==> !Contains(keys[j].span, want)
      {
        if keys[i] in flights && Contains(keys[i].span, want) {
          return Some(keys[i]);
        }
      }
      found := None;
    }

    /** Asks the calendar for a window no read under way covers. */
    method Start(k: Key, now: nat)
      requires Valid() && now == clock && !Covered(flights, k.conn, k.span)
      modifies `flights, `flightsByConn, `history, `born
      ensures Valid() && Grown(old(history), history) && old(born) <= born
      ensures history == old(history) + [ProviderRead(k, now, Pending, false)]
      ensures k in flights && flights[k].read == |old(history)|
    {
      hide Shelf, Flying, Recorded, Held, Inverse, NoneInsideEarlier, Grown;
      NoneInsideBegins(flightsByConn, flights, k);
      FlightBegins(flights, history, born, generation, bumps, clock, k);
      AddedIsInverse(flightsByConn, flights.Keys, k);
      ghost var was, read, since := flights, ProviderRead(k, clock, Pending, false), CountOf(bumps, k.conn.ref);
      HeldLater(parse, ttl, entries, source, history, history + [read], born, born + [since], bumps);
      flights := flights[k := Flight(|history|, CountOf(generation, k.conn.ref))];
      assert flights.Keys == was.Keys + {k};
      flightsByConn := Added(flightsByConn, k);
      history := history + [ProviderRead(k, now, Pending, false)];
      born := born + [since];
    }

    /** The last good read when it is young enough, else unknown. */
    method Fallback(conn: Conn, want: Span, now: nat) returns (r: Reply, ghost from: nat)
      requires Valid()
      modifies `entries, `order, `entriesByConn, `usedAt, `tick
      ensures Valid() && !r.Wait? && OnlyDropsOld(old(entries), entries, now, Max(maxStale, ttl))
      ensures r.Answer? ==>
        Backed(from, conn, want, r.intervals) && now - history[from].startedAt <= maxStale && UsedLast(from)
      ensures r.Unknown? <==> NoStandIn(old(entries), conn, want, now, maxStale)
    {
      hide Shelf, Flying, Recorded, Inverse, NoneInsideEarlier, NoStandIn, Held, EntryHonest, OnlyDropsOld, Surviving;
      SurvivingOnlyDropsOld(entries, KeysOf(entriesByConn, conn), now, Max(maxStale, ttl));
      FiledHere(conn);
      HeldIsDated(parse, ttl, entries, source, history, born, bumps);
      PickedStandsIn(entries, KeysOf(entriesByConn, conn), conn, want, now, maxStale, ttl);
      HeldFewer(parse, ttl, entries, KeysOf(entriesByConn, conn), now, Max(maxStale, ttl), source, history, born,
                bumps);
      var held := Best(conn, want, now);
      r, from := Unknown, 0;
      if held.Some? && now - entries[held.value].fetchedAt <= maxStale {
        r, from := Served(held.value, want);
      }
    }

    /** A held window serves a request inside it. */
    method Served(k: Key, want: Span) returns (r: Reply, ghost from: nat)
      requires Valid() && k in entries && Contains(k.span, want)
      modifies `order, `usedAt, `tick
      ensures Valid() && r.Answer? && Backed(from, k.conn, want, r.intervals) && UsedLast(from)
      ensures entries[k].fetchedAt == history[from].startedAt
      ensures EntryHonest(parse, ttl, k, entries[k], from, history, born, bumps)
    {
      hide Shelf, Flying, Recorded, Inverse, NoneInsideEarlier, Held, EntryHonest, Contains, Clip, IdsTellBounds;
      HeldAnswers(parse, ttl, entries, source, history, born, bumps, k, want);
      from := source[k];
      Touch(k);
      var answer := ClipLoop(parse, entries[k].intervals, want);
      r := Answer(answer);
    }

    lemma FiledHere(conn: Conn)
      requires Shelved()
      ensures forall k :: k in KeysOf(entriesByConn, conn) <==> k in entries && k.conn == conn
    {
      FiledUnder(entriesByConn, entries.Keys, conn);
    }

    /** Read less than `ttl` ago, and its ref not invalidated since before the read began. */
    ghost predicate Current(from: nat, conn: Conn, now: nat)
      reads `history, `born, `bumps
    {
      && from < |history| && from < |born|
      && now - history[from].startedAt < ttl && born[from] == CountOf(bumps, conn.ref)
    }

    /** The answer from a fresh window, if one is held. */
    method FromMemory(conn: Conn, want: Span, now: nat) returns (r: Reply, ghost from: nat)
      requires Valid()
      modifies `entries, `order, `entriesByConn, `usedAt, `tick
      ensures Valid() && !r.Wait? && OnlyDropsOld(old(entries), entries, now, Max(maxStale, ttl))
      ensures r.Answer? <==> old(HasFresh(entries, conn, want, now))
      ensures r.Answer? ==> Backed(from, conn, want, r.intervals) && Current(from, conn, now) && UsedLast(from)
      ensures NoStandIn(entries, conn, want, now, maxStale) == old(NoStandIn(entries, conn, want, now, maxStale))
    {
      hide Shelf, Flying, Inverse, NoneInsideEarlier, NoStandIn, Held, EntryHonest, HasFresh, Picked, IdsTellBounds,
        Recorded, Covers, Surviving, OnlyDropsOld;
      SurvivingOnlyDropsOld(entries, KeysOf(entriesByConn, conn), now, Max(maxStale, ttl));
      FiledHere(conn);
      HeldIsDated(parse, ttl, entries, source, history, born, bumps);
      PickedIsFresh(entries, KeysOf(entriesByConn, conn), conn, want, now, Max(maxStale, ttl), ttl);
      DroppedStandInForNothing(entries, KeysOf(entriesByConn, conn), conn, want, now, maxStale, ttl);
      HeldFewer(parse, ttl, entries, KeysOf(entriesByConn, conn), now, Max(maxStale, ttl), source, history, born,
                bumps);
      r, from := Unknown, 0;
      var held := Best(conn, want, now);
      if held.Some? && Fresh(entries[held.value], now) {
        assert Covers(held.value, conn, want);
        r, from := Served(held.value, want);
        FreshIsYoung(parse, ttl, held.value, entries[held.value], from, history, born, bumps, now);
      }
    }

    /**
     The busy intervals of one connection: from memory when fresh, else from a
     read that the caller waits on, else, while a failure cools down, from what
     is held or not at all.
     */
    method Read(conn: Conn, want: Span, now: nat) returns (r: Reply, ghost from: nat)
      requires Valid() && clock <= now
      modifies this
      ensures Valid() && clock == now && bumps == old(bumps)
      ensures OnlyDropsOld(old(entries), entries, now, Max(maxStale, ttl))
      ensures Grown(old(history), history) && old(born) <= born
      ensures var hit := old(HasFresh(entries, conn, want, now));
        var stuck := old(Cooling(failedAt, conn, now, cooldown) && !Covered(flights, conn, want));
        && (hit ==> r.Answer? && Current(from, conn, now))
        && (!hit && stuck ==> !r.Wait? && (r.Unknown? <==> old(NoStandIn(entries, conn, want, now, maxStale))))
        && (!hit && stuck && r.Answer? ==>
            Backed(from, conn, want, r.intervals) && now - history[from].startedAt <= maxStale)
        && (!hit && !stuck ==> r.Wait?)
        && (history != old(history) <==> !hit && !stuck && !old(Covered(flights, conn, want)))
      ensures r.Answer? ==> Backed(from, conn, want, r.intervals) && UsedLast(from)
      ensures r.Wait? ==> Waiting(r.waiter) && r.waiter.want == want && history[r.waiter.read].key.conn == conn
      ensures r.Wait? ==> r.waiter.joined == now
      ensures history != old(history) ==>
        history == old(history) + [ProviderRead(Key(conn, Widen(want)), now, Pending, false)]
    {
      hide Shelf, Flying, Inverse, NoneInsideEarlier, NoStandIn, Held, HasFresh, IdsTellBounds, Recorded, Covered,
        Widen, OnlyDropsOld;
      RecordedLater(history, flights, clock, now);
      clock := now;
      r, from := FromMemory(conn, want, now);
      if r.Answer? {
        return;
      }
      ghost var kept := entries;
      var found := FlightFor(conn, want);
      if conn in failedAt && now - failedAt[conn] < cooldown && found.None? {
        r, from := Fallback(conn, want, now);
        DropsOldTwice(old(entries), kept, entries, now, Max(maxStale, ttl));
        return;
      }
      if found.None? {
        WidenedCovers(flights, conn, want);
        found := Some(Key(conn, Widen(want)));
        Start(found.value, now);
      }
      FlightNames(flights, history, born, generation, bumps, found.value);
      var read := flights[found.value].read;
      var left := history[read].startedAt + timeout - now;
      r := Wait(Waiter(read, want, now, now + if left > 0 then left else 0));
    }

    /** The read a caller waits on settled first: its answer, young when in time, or a stand-in if it failed. */
    method Settle(w: Waiter, now: nat) returns (r: Reply, ghost from: nat)
      requires Valid() && clock <= now && Waiting(w) && history[w.read].finished
      modifies `entries, `order, `entriesByConn, `usedAt, `tick, `clock
      ensures Valid() && clock == now && !r.Wait?
      ensures OnlyDropsOld(old(entries), entries, now, Max(maxStale, ttl))
      ensures r.Answer? ==> Backed(from, history[w.read].key.conn, w.want, r.intervals)
      ensures history[w.read].outcome.Answered? ==> r.Answer? && from == w.read
      ensures history[w.read].outcome.Answered? && now <= w.deadline ==>
        now - history[from].startedAt <= timeout || now == w.joined
      ensures history[w.read].outcome.Rejected? && r.Answer? ==> now - history[from].startedAt <= maxStale
      ensures r.Unknown? <==>
        history[w.read].outcome.Rejected? && old(NoStandIn(entries, history[w.read].key.conn, w.want, now, maxStale))
    {
      hide Shelf, Flying, Inverse, NoneInsideEarlier, NoStandIn, Held, IdsTellBounds;
      assert history[w.read].outcome != Pending;
      hide Recorded;
      RecordedLater(history, flights, clock, now);
      clock := now;
      if history[w.read].outcome.Answered? {
        var answer := ClipLoop(parse, history[w.read].outcome.raw, w.want);
        r, from := Answer(answer), w.read;
      } else {
        r, from := Fallback(history[w.read].key.conn, w.want, now);
      }
    }

    /** A caller's time is up: a stand-in, or unknown. The read goes on. */
    method TimeOut(w: Waiter, now: nat) returns (r: Reply, ghost from: nat)
      requires Valid() && clock <= now && w.deadline <= now && Waiting(w)
      modifies `entries, `order, `entriesByConn, `usedAt, `tick, `clock
      ensures Valid() && clock == now && !r.Wait?
      ensures OnlyDropsOld(old(entries), entries, now, Max(maxStale, ttl))
      ensures r.Answer? ==> Backed(from, history[w.read].key.conn, w.want, r.intervals)
      ensures r.Answer? ==> now - history[from].startedAt <= maxStale
      ensures r.Unknown? <==> old(NoStandIn(entries, history[w.read].key.conn, w.want, now, maxStale))
    {
      hide Shelf, Flying, Inverse, NoneInsideEarlier, NoStandIn, Held, IdsTellBounds, Recorded;
      RecordedLater(history, flights, clock, now);
      clock := now;
      r, from := Fallback(history[w.read].key.conn, w.want, now);
    }

    /** The calendar answered read `i`: held, and fresh only if its ref was not invalidated since the read began. */
    method Land(i: nat, raw: seq<Interval>)
      requires Valid() && i < |history| && history[i].outcome == Pending
      modifies `entries, `order, `entriesByConn, `usedAt, `tick, `failedAt, `history, `source
      ensures Valid() && Grown(old(history), history)
      ensures history == old(history)[i := old(history)[i].(outcome := Answered(raw))]
      ensures failedAt == old(failedAt) - {history[i].key.conn}
      ensures var k := history[i].key;
        k in entries && entries[k] == Entry(Clip(parse, raw, k.span), history[i].startedAt,
          if born[i] == CountOf(bumps, k.conn.ref) then history[i].startedAt + ttl else 0)
      ensures forall x :: x in entries && x != history[i].key ==> x in old(entries) && entries[x] == old(entries)[x]
    {
      hide Shelf, Flying, Inverse, NoneInsideEarlier, Held, Recorded, Grown, Clip, EntryHonest, CountOf;
      FlightLands(flights, history, born, generation, bumps, clock, i, Answered(raw));
      var k, startedAt := history[i].key, history[i].startedAt;
      failedAt := failedAt - {k.conn};
      var landed := history[i := history[i].(outcome := Answered(raw))];
      HeldLater(parse, ttl, entries, source, history, landed, born, born, bumps);
      history := landed;
      var cut := ClipLoop(parse, raw, k.span);
      var freshUntil := if CountOf(generation, k.conn.ref) == flights[k].gen then startedAt + ttl else 0;
      LandedIsHonest(parse, ttl, k, Entry(cut, startedAt, freshUntil), history, born, bumps, i);
      Keep(k, Entry(cut, startedAt, freshUntil), i);
    }

    /** Stores a window cut from read `from`. */
    method Keep(k: Key, e: Entry, ghost from: nat)
      requires Valid() && EntryHonest(parse, ttl, k, e, from, history, born, bumps)
      modifies `entries, `order, `entriesByConn, `usedAt, `tick, `source
      ensures Valid() && k in entries && entries[k] == e
      ensures forall x :: x in entries && x != k ==> x in old(entries) && entries[x] == old(entries)[x]
    {
      hide Shelf, Flying, Inverse, NoneInsideEarlier, Held, Recorded, EntryHonest;
      ghost var was := entries;
      Store(k, e);
      HeldOneMore(parse, ttl, was, entries, source, history, born, bumps, k, from);
      source := source[k := from];
    }

    method ForgetOldFailures(now: nat)
      modifies `failedAt
      ensures forall c, t :: t >= now ==>
        (Cooling(failedAt, c, t, cooldown) <==> Cooling(old(failedAt), c, t, cooldown))
      ensures failedAt == Remembered(old(failedAt), maxEntries, cooldown, now)
    {
      if |failedAt| > maxEntries * 2 {
        failedAt := map c | c in failedAt && !(failedAt[c] < now - cooldown) :: failedAt[c];
      }
    }

    /** Read `i` failed: its connection cools down. Failures long past may be forgotten. */
    method Reject(i: nat, now: nat)
      requires Valid() && clock <= now && i < |history| && history[i].outcome == Pending
      modifies `failedAt, `history, `clock
      ensures Valid() && clock == now && Grown(old(history), history)
      ensures history == old(history)[i := old(history)[i].(outcome := Rejected)]
      ensures Cooling(failedAt, history[i].key.conn, now, cooldown) <==> cooldown > 0
      ensures forall c, t :: c != history[i].key.conn && t >= now ==>
        (Cooling(failedAt, c, t, cooldown) <==> Cooling(old(failedAt), c, t, cooldown))
      ensures failedAt == Remembered(old(failedAt), maxEntries, cooldown, now)[history[i].key.conn := now]
    {
      hide Shelf, Flying, Inverse, NoneInsideEarlier, Held, Recorded, Grown, Remembered;
      FlightLands(flights, history, born, generation, bumps, clock, i, Rejected);
      ForgetOldFailures(now);
      failedAt := failedAt[history[i].key.conn := now];
      ghost var landed := history[i := history[i].(outcome := Rejected)];
      RecordedLater(landed, flights, clock, now);
      HeldLater(parse, ttl, entries, source, history, landed, born, born, bumps);
      clock := now;
      history := history[i := history[i].(outcome := Rejected)];
    }

    /** The promise of read `i` settles: its flight is gone. */
    method Finish(i: nat)
      requires Valid() && i < |history| && history[i].outcome != Pending && !history[i].finished
      modifies `flights, `flightsByConn, `history
      ensures Valid() && Grown(old(history), history)
      ensures history == old(history)[i := old(history)[i].(finished := true)]
      ensures flights == old(flights) - {history[i].key}
    {
      hide Shelf, Flying, Inverse, NoneInsideEarlier, Held, Recorded, Grown;
      FlightEnds(flights, history, born, generation, bumps, clock, i);
      NoneInsideEnds(flightsByConn, history[i].key);
      RemovedIsInverse(flightsByConn, flights.Keys, history[i].key);
      ghost var was, ended := flights, history[i := history[i].(finished := true)];
      HeldLater(parse, ttl, entries, source, history, ended, born, born, bumps);
      flights := flights - {history[i].key};
      assert flights.Keys == was.Keys - {history[i].key};
      flightsByConn := Removed(flightsByConn, history[i].key);
      history := history[i := history[i].(finished := true)];
    }

    method Stale(refs: set<string>)
      requires Shelved()
      modifies `entries
      ensures Shelved() && entries.Keys == old(entries.Keys)
      ensures forall k :: k in entries ==>
        entries[k] == (if k.conn.ref in refs then old(entries)[k].(freshUntil := 0) else old(entries)[k])
    {
      StaledAll(entries, order, refs);
      assert forall k :: k in order ==> k in entries;
      hide Shelf, Staled;
      ghost var held := entries;
      assert order[..0] == [];
      for i := 0 to |order|
        invariant entries == Staled(held, order[..i], refs)
      {
        StaledOneMore(held, order, i, refs);
        if order[i].conn.ref in refs {
          entries := entries[order[i] := entries[order[i]].(freshUntil := 0)];
        }
      }
      assert order[..|order|] == order;
    }

    /** What is left of the counts once `refs` were counted: all of them, or past twice the limit those in use. */
    ghost predicate Counted(before: map<string, nat>, refs: set<string>)
      reads `generation, `entries, `flights
    {
      var all := before.Keys + refs;
      forall r :: r in generation <==> r in all && (|all| <= maxEntries * 2 || InUse(entries, flights, r))
    }

    /** Counts `refs` once more, and forgets what nothing can read. */
    method Recount(refs: set<string>)
      modifies `generation
      ensures Counted(old(generation), refs)
      ensures |generation| <= maxEntries * 2 || forall r :: r in generation ==> InUse(entries, flights, r)
      ensures forall k {:trigger flights[k]} :: k in flights ==>
        CountOf(generation, k.conn.ref) == CountOf(old(generation), k.conn.ref) + if k.conn.ref in refs then 1 else 0
    {
      hide InUse;
      ghost var counts := generation;
      Count(refs);
      CountedUp(counts, refs);
      assert generation.Keys == counts.Keys + refs && |generation.Keys| == |generation|;
      ForgetUnused();
    }

    method Count(refs: set<string>)
      modifies `generation
      ensures generation == CountUp(old(generation), refs)
    {
      var todo := refs;
      while todo != {}
        invariant todo <= refs && generation == CountUp(old(generation), refs - todo)
      {
        var r :| r in todo;
        generation := generation[r := CountOf(generation, r) + 1];
        todo := todo - {r};
      }
      assert refs - todo == refs;
    }

    /** Past twice the limit, the counts of refs with nothing held and nothing in flight go. */
    method ForgetUnused()
      modifies `generation
      ensures |generation| <= maxEntries * 2 || forall r :: r in generation ==> InUse(entries, flights, r)
      ensures forall r :: r in generation <==>
        r in old(generation) && (|old(generation)| <= maxEntries * 2 || InUse(entries, flights, r))
      ensures forall k {:trigger flights[k]} :: k in flights ==>
        CountOf(generation, k.conn.ref) == CountOf(old(generation), k.conn.ref)
    {
      if |generation| > maxEntries * 2 {
        var live := (set k | k in entries :: k.conn.ref) + (set k | k in flights :: k.conn.ref);
        generation := map r | r in generation && r in live :: generation[r];
      }
    }

    /**
     A booking changed what these refs' calendars hold: nothing held of them is
     fresh any more, nor will a read under way be. The count of a ref that has
     a read under way is never forgotten, so no count is met twice in its life.
     */
    method Invalidate(refs: set<string>)
      requires Valid()
      modifies `entries, `generation, `bumps
      ensures Valid()
      ensures entries.Keys == old(entries.Keys)
      ensures forall k :: k in entries ==>
        entries[k] == (if k.conn.ref in refs then old(entries)[k].(freshUntil := 0) else old(entries)[k])
      ensures forall r :: CountOf(bumps, r) == CountOf(old(bumps), r) + if r in refs then 1 else 0
      ensures forall k {:trigger flights[k]} :: k in flights ==>
        CountOf(generation, k.conn.ref) == CountOf(old(generation), k.conn.ref) + if k.conn.ref in refs then 1 else 0
      ensures refs == {} || |generation| <= maxEntries * 2 || forall r :: r in generation ==> InUse(entries, flights, r)
      ensures refs != {} ==> Counted(old(generation), refs)
    {
      hide Shelf, Flying, Inverse, NoneInsideEarlier, Held, Recorded, InUse, CountUp, Counted;
      if refs == {} {
        return;
      }
      ghost var held, counts, bumped := entries, generation, bumps;
      Stale(refs);
      Recount(refs);
      bumps := CountUp(bumps, refs);
      CountedUp(bumped, refs);
      HeldInvalidated(parse, ttl, held, entries, source, history, born, bumped, bumps);
      FlightsRecount(flights, history, born, counts, bumped, generation, bumps);
    }
  }
}
