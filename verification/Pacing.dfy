/**
 How busy requests are held back: the pacer, which spaces the starts of one
 subject, and the slots all requests of a provider share. Waiters interleave:
 one method call is one turn of one waiter.
 */
module Pacing {

  type Subject = string

  const WINDOW_MS: int := 1000

  /** The starts of the last second, as of `now`. */
  function Recent(starts: seq<int>, now: int): seq<int> {
    if starts == [] then []
    else (if now - starts[0] < WINDOW_MS then [starts[0]] else []) + Recent(starts[1..], now)
  }

  ghost predicate Sorted(s: seq<int>) {
    forall i, j :: 0 <= i <= j < |s| ==> s[i] <= s[j]
  }

  /** On starts in order, the recent ones are the last ones. */
  lemma {:induction false} RecentIsLast(s: seq<int>, now: int, k: nat)
    requires Sorted(s) && k <= |s|
    requires forall i :: 0 <= i < k ==> now - s[i] >= WINDOW_MS
    requires k < |s| ==> now - s[k] < WINDOW_MS
    ensures Recent(s, now) == s[k..]
  {
    if s != [] {
      if k > 0 {
        RecentIsLast(s[1..], now, k - 1);
      } else {
        assert s[1..] == [] || now - s[1] < WINDOW_MS;
        RecentIsLast(s[1..], now, 0);
      }
    }
  }

  /** The first start still recent. */
  lemma {:induction false} FirstRecent(s: seq<int>, now: int) returns (k: nat)
    requires Sorted(s)
    ensures k <= |s| && Recent(s, now) == s[k..]
    ensures forall i :: 0 <= i < |s| ==> (now - s[i] < WINDOW_MS <==> i >= k)
  {
    k := 0;
    while k < |s| && now - s[k] >= WINDOW_MS
      invariant k <= |s| && forall i :: 0 <= i < k ==> now - s[i] >= WINDOW_MS
    {
      k := k + 1;
    }
    RecentIsLast(s, now, k);
  }

  /** Any start comes a whole second after those `limit` places or more before it. */
  ghost predicate Paced(s: seq<int>, limit: nat) {
    forall i, j :: 0 <= i && i + limit <= j < |s| ==> s[j] - s[i] >= WINDOW_MS
  }

  /** How many starts fall in the second from `x`. */
  function CountIn(s: seq<int>, x: int): nat {
    if s == [] then 0 else (if x <= s[0] < x + WINDOW_MS then 1 else 0) + CountIn(s[1..], x)
  }

  lemma {:induction false} NoneIn(s: seq<int>, x: int)
    requires forall i :: 0 <= i < |s| ==> s[i] >= x + WINDOW_MS
    ensures CountIn(s, x) == 0
  {
    if s != [] { NoneIn(s[1..], x); }
  }

  lemma {:induction false} AtMost(s: seq<int>, x: int, n: nat)
    requires n <= |s| && forall i :: n <= i < |s| ==> s[i] >= x + WINDOW_MS
    ensures CountIn(s, x) <= n
  {
    if s == [] {
    } else if n == 0 {
      NoneIn(s, x);
    } else {
      AtMost(s[1..], x, n - 1);
    }
  }

  /** Paced starts in order: no second, wherever it begins, holds more than `limit`. */
  lemma {:induction false} PacedBoundsEverySecond(s: seq<int>, limit: nat, x: int)
    requires Sorted(s) && Paced(s, limit)
    ensures CountIn(s, x) <= limit
  {
    if s != [] {
      if s[0] < x {
        PacedBoundsEverySecond(s[1..], limit, x);
      } else if limit < |s| {
        assert s[limit] - s[0] >= WINDOW_MS;
        AtMost(s, x, limit);
      } else {
        AtMost(s, x, |s|);
      }
    }
  }

  /** Starts long past do not count. */
  lemma {:induction false} OldDropOut(h: seq<int>, cut: nat, now: int)
    requires cut <= |h| && forall i :: 0 <= i < cut ==> now - h[i] >= WINDOW_MS
    ensures Recent(h[cut..], now) == Recent(h, now)
  {
    if cut > 0 {
      OldDropOut(h[1..], cut - 1, now);
      assert h[1..][cut - 1..] == h[cut..];
    }
  }

  /** What is kept of a subject's starts is the end of its history; what is not is a second old. */
  ghost predicate Tracked(kept: seq<int>, h: seq<int>, clock: int, limit: nat) {
    && Sorted(h) && Paced(h, limit) && (forall i :: 0 <= i < |h| ==> h[i] <= clock)
    && |kept| <= |h| && kept == h[|h| - |kept|..]
    && (forall i :: 0 <= i < |h| - |kept| ==> clock - h[i] >= WINDOW_MS)
  }

  lemma TrackedLater(kept: seq<int>, h: seq<int>, clock: int, limit: nat, now: int)
    requires Tracked(kept, h, clock, limit) && clock <= now
    ensures Tracked(kept, h, now, limit) && Recent(kept, now) == Recent(h, now)
    ensures Recent(h, now) != [] ==> now - WINDOW_MS < Recent(h, now)[0]
  {
    OldDropOut(h, |h| - |kept|, now);
    var k := FirstRecent(h, now);
  }

  /** A start made while fewer than `limit` are recent keeps the pace. */
  lemma Started(h: seq<int>, clock: int, limit: nat)
    requires Tracked(h, h, clock, limit) && |Recent(h, clock)| < limit
    ensures Tracked(Recent(h, clock) + [clock], h + [clock], clock, limit)
  {
    var k := FirstRecent(h, clock);
    var all := h + [clock];
    assert all[k..] == h[k..] + [clock];
  }

  function Of(m: map<Subject, seq<int>>, subject: Subject): seq<int> {
    if subject in m then m[subject] else []
  }

  class Pacer {
    const perSecond: nat
    /** Per subject, the starts last found recent. */
    var starts: map<Subject, seq<int>>
    /** Per subject, every start there ever was. */
    ghost var history: map<Subject, seq<int>>
    ghost var clock: int

    ghost predicate Valid()
      reads this
    {
      perSecond >= 1 && forall subject :: Tracked(Of(starts, subject), Of(history, subject), clock, perSecond)
    }

    constructor (perSecond: nat)
      requires perSecond >= 1
      ensures Valid() && this.perSecond == perSecond && history == map[]
    {
      this.perSecond := perSecond;
      starts, history, clock := map[], map[], 0;
    }

    /**
     One turn of a waiter: it starts now, or learns when to look again, just
     after the oldest start of the last second has aged out.
     */
    method TryStart(subject: Subject, now: int) returns (started: bool, wakeAt: int)
      requires Valid() && clock <= now
      modifies this
      ensures Valid() && clock == now
      ensures started <==> |Recent(old(Of(history, subject)), now)| < perSecond
      ensures history == if started then old(history)[subject := old(Of(history, subject)) + [now]] else old(history)
      ensures !started ==> Recent(old(Of(history, subject)), now) != [] && now < wakeAt
      ensures !started ==> wakeAt == Recent(old(Of(history, subject)), now)[0] + 1000 + 1
    {
      hide Recent, Tracked;
      ghost var h := Of(history, subject);
      forall other ensures Tracked(Of(starts, other), Of(history, other), now, perSecond) {
        TrackedLater(Of(starts, other), Of(history, other), clock, perSecond, now);
      }
      TrackedLater(Of(starts, subject), h, clock, perSecond, now);
      var recent := Recent(Of(starts, subject), now);
      clock := now;
      if |recent| < perSecond {
        Started(h, now, perSecond);
        ghost var was, wasStarts := history, starts;
        starts := starts[subject := recent + [now]];
        history := history[subject := h + [now]];
        forall other ensures Tracked(Of(starts, other), Of(history, other), now, perSecond) {
          if other != subject {
            assert Tracked(Of(wasStarts, other), Of(was, other), now, perSecond);
          }
        }
        return true, now;
      }
      started, wakeAt := false, recent[0] + WINDOW_MS + 1;
    }
  }

  /** Whoever starts, and whenever: no second holds more than `perSecond` starts of a subject. */
  lemma NoSecondHoldsMore(pacer: Pacer, subject: Subject, x: int)
    requires pacer.Valid()
    ensures CountIn(Of(pacer.history, subject), x) <= pacer.perSecond
    ensures subject in pacer.history ==>
      forall i, j :: 0 <= i && i + pacer.perSecond <= j < |pacer.history[subject]| ==>
      pacer.history[subject][j] - pacer.history[subject][i] >= 1000
  {
    var h := Of(pacer.history, subject);
    assert Tracked(Of(pacer.starts, subject), h, pacer.clock, pacer.perSecond);
    PacedBoundsEverySecond(h, pacer.perSecond, x);
  }

  /** A sleeper that wakes to find no new start is not put off again. */
  lemma SleeperStarts(h: seq<int>, now: int, limit: nat)
    requires Sorted(h) && Paced(h, limit) && limit >= 1 && Recent(h, now) != []
    requires forall t :: t in h ==> t <= now
    ensures |Recent(h, Recent(h, now)[0] + WINDOW_MS + 1)| < limit
  {
    var k := FirstRecent(h, now);
    var wake := h[k] + WINDOW_MS + 1;
    var j := FirstRecent(h, wake);
    assert j > k;
    assert h[|h| - 1] in h && h[|h| - 1] - h[j - 1] < WINDOW_MS;
  }

  // --------------------------------------------------------------- slots

  /** Who waits for a slot, in order of arrival. */
  type Ticket = nat

  function UpTo(n: nat): (s: seq<Ticket>)
    ensures |s| == n && forall i :: 0 <= i < n ==> s[i] == i
  {
    if n == 0 then [] else UpTo(n - 1) + [n - 1]
  }

  class Slots {
    const size: nat
    var free: int
    var waiting: seq<Ticket>
    /** The release functions already called. */
    var released: set<Ticket>
    var next: Ticket
    /** Who was given a slot, in the order given. */
    ghost var granted: seq<Ticket>

    ghost function Held(): int
      reads `granted, `released
    {
      |granted| - |released|
    }

    ghost predicate Valid()
      reads this
    {
      && free >= 0 && free + Held() == size
      && (waiting != [] ==> free == 0)
      && granted + waiting == UpTo(next)
      && (forall t :: t in released ==> t in granted)
    }

    constructor (size: nat)
      ensures Valid() && this.size == size == free && next == 0
    {
      this.size, free, waiting, released, next, granted := size, size, [], {}, 0, [];
    }

    /** A slot now when one is free, else a place at the end of the line. */
    method Acquire() returns (ticket: Ticket, now: bool)
      requires Valid()
      modifies this
      ensures Valid() && ticket == old(next) && next == ticket + 1 && released == old(released)
      ensures now == (old(free) > 0)
      ensures granted == old(granted) + (if now then [ticket] else [])
      ensures waiting == old(waiting) + (if now then [] else [ticket])
    {
      ticket, now := next, free > 0;
      assert UpTo(next + 1) == granted + waiting + [next];
      if now {
        Grant(ticket);
      } else {
        waiting := waiting + [ticket];
        assert granted + waiting == UpTo(next) + [next];
      }
      next := next + 1;
    }

    method Grant(ticket: Ticket)
      modifies `free, `granted
      ensures free == old(free) - 1 && granted == old(granted) + [ticket]
    {
      free := free - 1;
      granted := granted + [ticket];
    }

    /** Gives a slot back, to whoever has waited longest. Calling it again does nothing. */
    method Release(ticket: Ticket) returns (to: seq<Ticket>)
      requires Valid() && ticket in granted
      modifies this
      ensures Valid() && next == old(next)
      ensures old(ticket in released) ==> released == old(released) && free == old(free) && to == []
      ensures old(ticket !in released) ==>
        released == old(released) + {ticket} && to == old(if waiting == [] then [] else waiting[..1])
      ensures granted == old(granted) + to && waiting == old(waiting)[|to|..]
    {
      to := [];
      if ticket in released {
        return;
      }
      released := released + {ticket};
      free := free + 1;
      if waiting != [] {
        to := waiting[..1];
        Grant(waiting[0]);
        assert granted + waiting[1..] == old(granted) + old(waiting);
        waiting := waiting[1..];
      }
    }
  }

  /** First come, first served: whatever the interleaving, slots are given in order of arrival. */
  lemma GrantedInOrder(granted: seq<Ticket>, waiting: seq<Ticket>, n: nat, i: nat)
    requires granted + waiting == UpTo(n) && i < |granted|
    ensures granted[i] == i
  {
    assert granted[i] == (granted + waiting)[i];
  }
}
