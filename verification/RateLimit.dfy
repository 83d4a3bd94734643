/**
 The token-bucket rate limiter, in exact arithmetic and on a clock that does not
 run backwards. Times are in milliseconds.
 */
module RateLimit {

  datatype Bucket = Bucket(tokens: real, last: real)

  /** One request of a key, and whether it was let through. */
  datatype Request = Request(at: real, allowed: bool)

  function Min(a: real, b: real): real { if a <= b then a else b }

  /** The tokens that `elapsed` milliseconds bring. */
  function Gain(elapsed: real, perSecond: real): real { elapsed / 1000.0 * perSecond }

  function Refill(tokens: real, elapsed: real, capacity: real, perSecond: real): real {
    Min(capacity, tokens + Gain(elapsed, perSecond))
  }

  lemma Product(x: real, y: real)
    requires x >= 0.0 && y >= 0.0
    ensures x * y >= 0.0
  {
  }

  lemma Gains(a: real, b: real, perSecond: real)
    requires a >= 0.0 && b >= 0.0 && perSecond >= 0.0
    ensures Gain(a, perSecond) >= 0.0 && Gain(b, perSecond) >= 0.0
    ensures Gain(a + b, perSecond) == Gain(a, perSecond) + Gain(b, perSecond)
  {
    Product(a / 1000.0, perSecond);
    Product(b / 1000.0, perSecond);
  }

  function Ceil(x: real): int { -((-x).Floor) }

  /**
   The tokens a key has at `now`, after all the requests of its life, oldest
   first: full before the first, refilled in between, one spent by each let through.
   */
  ghost function Level(life: seq<Request>, now: real, capacity: real, perSecond: real): real
    decreases |life|, 1
  {
    if life == [] then capacity
    else Refill(After(life, capacity, perSecond), now - life[|life| - 1].at, capacity, perSecond)
  }

  /** What the last request of a life left. */
  ghost function After(life: seq<Request>, capacity: real, perSecond: real): real
    requires life != []
    decreases |life|, 0
  {
    var last := life[|life| - 1];
    Level(life[..|life| - 1], last.at, capacity, perSecond) - if last.allowed then 1.0 else 0.0
  }

  /** A life as the limiter makes it: in order of time, each request let through when there is a token for it. */
  ghost predicate Lived(life: seq<Request>, capacity: real, perSecond: real) {
    life == [] ||
    (var before, last := life[..|life| - 1], life[|life| - 1];
     && Lived(before, capacity, perSecond)
     && (before != [] ==> before[|before| - 1].at <= last.at)
     && (last.allowed <==> Level(before, last.at, capacity, perSecond) >= 1.0))
  }

  /** Tokens are never negative, and while a bucket can hold one, never full right after a request. */
  lemma {:induction false} AfterInBounds(life: seq<Request>, capacity: real, perSecond: real)
    requires Lived(life, capacity, perSecond) && life != [] && capacity >= 0.0 && perSecond >= 0.0
    ensures 0.0 <= After(life, capacity, perSecond) <= capacity
    ensures capacity >= 1.0 ==> After(life, capacity, perSecond) < capacity
    decreases |life|, 0
  {
    var before, last := life[..|life| - 1], life[|life| - 1];
    LevelInBounds(before, last.at, capacity, perSecond);
  }

  lemma {:induction false} LevelInBounds(life: seq<Request>, now: real, capacity: real, perSecond: real)
    requires Lived(life, capacity, perSecond) && capacity >= 0.0 && perSecond >= 0.0
    requires life != [] ==> life[|life| - 1].at <= now
    ensures 0.0 <= Level(life, now, capacity, perSecond) <= capacity
    ensures life != [] ==> Level(life, now, capacity, perSecond) >= After(life, capacity, perSecond)
    decreases |life|, 1
  {
    if life != [] {
      AfterInBounds(life, capacity, perSecond);
      Gains(now - life[|life| - 1].at, 0.0, perSecond);
    }
  }

  // --------------------------------------------------- the bound on bursts

  /** How many requests in `[t1, t2]` were let through. */
  ghost function Through(life: seq<Request>, t1: real, t2: real): nat {
    if life == [] then 0
    else
      var last := life[|life| - 1];
      Through(life[..|life| - 1], t1, t2) + if last.allowed && t1 <= last.at <= t2 then 1 else 0
  }

  lemma {:induction false} NoneBefore(life: seq<Request>, t1: real, t2: real, capacity: real, perSecond: real)
    requires Lived(life, capacity, perSecond) && (life != [] ==> life[|life| - 1].at < t1)
    ensures Through(life, t1, t2) == 0
  {
    if life != [] { NoneBefore(life[..|life| - 1], t1, t2, capacity, perSecond); }
  }

  /** What was let through since `t1`, and what is left, never exceed a full bucket and the refill since. */
  lemma {:induction false} SpentAndLeft(life: seq<Request>, t1: real, t2: real, capacity: real, perSecond: real)
    requires Lived(life, capacity, perSecond) && life != [] && capacity >= 0.0 && perSecond >= 0.0
    requires t1 <= life[|life| - 1].at <= t2
    ensures Through(life, t1, t2) as real + After(life, capacity, perSecond) <= capacity
      + Gain(life[|life| - 1].at - t1, perSecond)
  {
    hide Gain;
    var before, last := life[..|life| - 1], life[|life| - 1];
    LevelInBounds(before, last.at, capacity, perSecond);
    Gains(last.at - t1, 0.0, perSecond);
    if before == [] || before[|before| - 1].at < t1 {
      NoneBefore(before, t1, t2, capacity, perSecond);
    } else {
      var earlier := before[|before| - 1].at;
      SpentAndLeft(before, t1, t2, capacity, perSecond);
      Gains(earlier - t1, last.at - earlier, perSecond);
    }
  }

  /** In any stretch of time, at most a full bucket and the refill of that time get through. */
  lemma {:induction false} BurstIsBounded(life: seq<Request>, t1: real, t2: real, capacity: real, perSecond: real)
    requires Lived(life, capacity, perSecond) && capacity >= 0.0 && perSecond >= 0.0 && t1 <= t2
    ensures Through(life, t1, t2) as real <= capacity + Gain(t2 - t1, perSecond)
  {
    Gains(t2 - t1, 0.0, perSecond);
    if life != [] {
      var last := life[|life| - 1];
      if last.at > t2 {
        BurstIsBounded(life[..|life| - 1], t1, t2, capacity, perSecond);
      } else if last.at < t1 {
        NoneBefore(life, t1, t2, capacity, perSecond);
      } else {
        SpentAndLeft(life, t1, t2, capacity, perSecond);
        AfterInBounds(life, capacity, perSecond);
        Gains(last.at - t1, t2 - last.at, perSecond);
      }
    }
  }

  // ------------------------------------------------- refusals cost nothing

  /** The requests let through. */
  ghost function LetThrough(life: seq<Request>): seq<Request> {
    if life == [] then []
    else if life[|life| - 1].allowed then LetThrough(life[..|life| - 1]) + [life[|life| - 1]]
    else LetThrough(life[..|life| - 1])
  }

  lemma RefillTwice(tokens: real, a: real, b: real, capacity: real, perSecond: real)
    requires a >= 0.0 && b >= 0.0 && perSecond >= 0.0
    ensures Refill(Refill(tokens, a, capacity, perSecond), b, capacity, perSecond) ==
      Refill(tokens, a + b, capacity, perSecond)
  {
    Gains(a, b, perSecond);
    hide Gain;
  }

  /** A key has at any time what it would have had its refused requests never been made. */
  lemma {:induction false} RefusalsCostNothing(life: seq<Request>, now: real, capacity: real, perSecond: real)
    requires Lived(life, capacity, perSecond) && perSecond >= 0.0 && (life != [] ==> life[|life| - 1].at <= now)
    ensures Level(LetThrough(life), now, capacity, perSecond) == Level(life, now, capacity, perSecond)
    ensures LetThrough(life) != [] ==> LetThrough(life)[|LetThrough(life)| - 1].at <= now
  {
    hide Gain;
    if life != [] {
      var before, last := life[..|life| - 1], life[|life| - 1];
      RefusalsCostNothing(before, last.at, capacity, perSecond);
      RefusalsCostNothing(before, now, capacity, perSecond);
      if last.allowed {
        var through := LetThrough(life);
        assert through == LetThrough(before) + [last] && through[..|through| - 1] == LetThrough(before);
      } else if before != [] {
        assert After(life, capacity, perSecond) == Level(before, last.at, capacity, perSecond);
        RefillTwice(After(before, capacity, perSecond), last.at - before[|before| - 1].at, now - last.at, capacity,
                    perSecond);
      } else {
        assert After(life, capacity, perSecond) == Level(before, last.at, capacity, perSecond) == capacity;
        Gains(now - last.at, 0.0, perSecond);
      }
    }
  }

  // ------------------------------------------------------- the retry hint

  /** Waiting exactly as long as a refusal says is enough, if any wait is: when a bucket can hold a whole token. */
  lemma WaitingIsEnough(life: seq<Request>, capacity: real, perSecond: real)
    requires Lived(life, capacity, perSecond) && life != [] && !life[|life| - 1].allowed
    requires capacity >= 0.0 && perSecond > 0.0
    ensures var wait := Ceil((1.0 - After(life, capacity, perSecond)) / perSecond * 1000.0);
      Level(life, life[|life| - 1].at + wait as real, capacity, perSecond) >= 1.0 <==> capacity >= 1.0
  {
    AfterInBounds(life, capacity, perSecond);
    RefillReachesOne(After(life, capacity, perSecond), capacity, perSecond);
  }

  lemma RefillReachesOne(tokens: real, capacity: real, perSecond: real)
    requires 0.0 <= tokens < 1.0 && tokens <= capacity && perSecond > 0.0
    ensures Refill(tokens, Ceil((1.0 - tokens) / perSecond * 1000.0) as real, capacity, perSecond) >= 1.0 <==>
      capacity >= 1.0
  {
    var wait := (1.0 - tokens) / perSecond * 1000.0;
    CoversDeficit(1.0 - tokens, perSecond);
    Product((1.0 - tokens) / perSecond, 1000.0);
    Gains(wait, Ceil(wait) as real - wait, perSecond);
    hide Gain;
  }

  lemma CoversDeficit(deficit: real, perSecond: real)
    requires perSecond > 0.0 && deficit > 0.0
    ensures Gain(deficit / perSecond * 1000.0, perSecond) == deficit && deficit / perSecond >= 0.0
  {
    assert deficit / perSecond * 1000.0 / 1000.0 == deficit / perSecond;
  }

  // ------------------------------------------------------------ the limiter

  const MAX_KEYS: nat := 50_000

  function Life(lives: map<string, seq<Request>>, key: string): seq<Request> {
    if key in lives then lives[key] else []
  }

  /** A key's bucket says what its life left; a key without one has a full bucket. */
  ghost predicate Tells(buckets: map<string, Bucket>, key: string, life: seq<Request>, clock: real, capacity: real,
                        perSecond: real) {
    && Lived(life, capacity, perSecond) && (life != [] ==> life[|life| - 1].at <= clock)
    && (key in buckets ==> life != [] && buckets[key] == Bucket(After(life, capacity, perSecond), life[|life| - 1].at))
    && (key !in buckets && life != [] ==> After(life, capacity, perSecond) >= capacity)
  }

  ghost predicate AllTell(buckets: map<string, Bucket>, lives: map<string, seq<Request>>, clock: real,
                          capacity: real, perSecond: real) {
    forall key :: Tells(buckets, key, Life(lives, key), clock, capacity, perSecond)
  }

  /** The tokens found when a request comes are those its key's life left it. */
  lemma BucketTells(buckets: map<string, Bucket>, lives: map<string, seq<Request>>, clock: real, key: string, now: real,
                    capacity: real, perSecond: real)
    requires AllTell(buckets, lives, clock, capacity, perSecond) && clock <= now && capacity >= 0.0 && perSecond >= 0.0
    ensures var life := Life(lives, key);
      var b := if key in buckets then buckets[key] else Bucket(capacity, now);
      b.last <= now && Refill(b.tokens, now - b.last, capacity, perSecond) == Level(life, now, capacity, perSecond)
  {
    var life := Life(lives, key);
    assert Tells(buckets, key, life, clock, capacity, perSecond);
    Gains(0.0, 0.0, perSecond);
    if life != [] {
      AfterInBounds(life, capacity, perSecond);
      Gains(now - life[|life| - 1].at, 0.0, perSecond);
    }
  }

  lemma LivesOn(life: seq<Request>, r: Request, capacity: real, perSecond: real)
    requires Lived(life, capacity, perSecond) && (life != [] ==> life[|life| - 1].at <= r.at)
    requires r.allowed <==> Level(life, r.at, capacity, perSecond) >= 1.0
    ensures Lived(life + [r], capacity, perSecond)
    ensures After(life + [r], capacity, perSecond) == Level(life, r.at, capacity, perSecond) - if r.allowed then 1.0
      else 0.0
  {
    assert (life + [r])[..|life|] == life;
  }

  /** Every key's bucket tells its life, after one request of one key. */
  lemma TellsNext(buckets: map<string, Bucket>, lives: map<string, seq<Request>>, clock: real, key: string, r: Request,
                  capacity: real, perSecond: real)
    requires AllTell(buckets, lives, clock, capacity, perSecond)
    requires clock <= r.at && (r.allowed <==> Level(Life(lives, key), r.at, capacity, perSecond) >= 1.0)
    ensures var left := Level(Life(lives, key), r.at, capacity, perSecond) - if r.allowed then 1.0 else 0.0;
      AllTell(buckets[key := Bucket(left, r.at)], lives[key := Life(lives, key) + [r]], r.at, capacity, perSecond)
  {
    var left := Level(Life(lives, key), r.at, capacity, perSecond) - if r.allowed then 1.0 else 0.0;
    var buckets', lives' := buckets[key := Bucket(left, r.at)], lives[key := Life(lives, key) + [r]];
    hide Lived, After, Level, Tells;
    forall other ensures Tells(buckets', other, Life(lives', other), r.at, capacity, perSecond) {
      assert Tells(buckets, other, Life(lives, other), clock, capacity, perSecond);
      if other == key {
        OwnTells(buckets, lives, clock, key, r, capacity, perSecond);
      } else {
        OtherTells(buckets, buckets', other, Life(lives, other), clock, r.at, capacity, perSecond);
      }
    }
  }

  lemma OwnTells(buckets: map<string, Bucket>, lives: map<string, seq<Request>>, clock: real, key: string, r: Request,
                 capacity: real, perSecond: real)
    requires Tells(buckets, key, Life(lives, key), clock, capacity, perSecond)
    requires clock <= r.at && (r.allowed <==> Level(Life(lives, key), r.at, capacity, perSecond) >= 1.0)
    ensures var left := Level(Life(lives, key), r.at, capacity, perSecond) - if r.allowed then 1.0 else 0.0;
      Tells(buckets[key := Bucket(left, r.at)], key, Life(lives, key) + [r], r.at, capacity, perSecond)
  {
    LivesOn(Life(lives, key), r, capacity, perSecond);
    hide Lived, After, Level;
  }

  lemma OtherTells(buckets: map<string, Bucket>, buckets': map<string, Bucket>, key: string, life: seq<Request>,
                   clock: real, now: real, capacity: real, perSecond: real)
    requires Tells(buckets, key, life, clock, capacity, perSecond) && clock <= now
    requires key in buckets <==> key in buckets'
    requires key in buckets ==> buckets'[key] == buckets[key]
    ensures Tells(buckets', key, life, now, capacity, perSecond)
  {
    hide Lived, After;
  }

  class TokenBucketRateLimiter {
    const capacity: real
    const perSecond: real
    var buckets: map<string, Bucket>
    /** All that was ever asked of each key. */
    ghost var lives: map<string, seq<Request>>
    ghost var clock: real

    ghost predicate Valid()
      reads this
    {
      capacity >= 0.0 && perSecond > 0.0 && AllTell(buckets, lives, clock, capacity, perSecond)
    }

    constructor (capacity: real, perSecond: real)
      requires capacity >= 0.0 && perSecond > 0.0
      ensures Valid() && lives == map[] && this.capacity == capacity && this.perSecond == perSecond
    {
      this.capacity, this.perSecond := capacity, perSecond;
      buckets, lives, clock := map[], map[], 0.0;
    }

    /** Let through when the key's life leaves it a token, whatever was pruned meanwhile. */
    method Take(key: string, now: real) returns (allowed: bool, retryAfterMs: int)
      requires Valid() && clock <= now
      modifies this
      ensures Valid() && clock == now
      ensures allowed <==> Level(old(Life(lives, key)), now, capacity, perSecond) >= 1.0
      ensures lives == old(lives)[key := old(Life(lives, key)) + [Request(now, allowed)]]
      ensures buckets.Keys == {key} + if old(key !in buckets && |buckets| >= 50_000)
        then set k | k in old(buckets) && old(buckets)[k].tokens < capacity else old(buckets.Keys)
      ensures allowed ==> retryAfterMs == 0
      ensures !allowed ==>
        retryAfterMs == Ceil((1.0 - Level(old(Life(lives, key)), now, capacity, perSecond)) / perSecond * 1000.0)
    {
      hide Lived, After, Level, Refill, Ceil, AllTell;
      ghost var life := Life(lives, key);
      if key !in buckets && |buckets| >= MAX_KEYS {
        Prune();
      }
      ghost var left := buckets;
      assert left.Keys == if old(key !in buckets && |buckets| >= 50_000)
        then set k | k in old(buckets) && old(buckets)[k].tokens < capacity else old(buckets.Keys);
      BucketTells(buckets, lives, clock, key, now, capacity, perSecond);
      var b := if key in buckets then buckets[key] else Bucket(capacity, now);
      var elapsed := if now - b.last > 0.0 then now - b.last else 0.0;
      var tokens := Refill(b.tokens, elapsed, capacity, perSecond);
      allowed := tokens >= 1.0;
      retryAfterMs := if allowed then 0 else Ceil((1.0 - tokens) / perSecond * 1000.0);
      TellsNext(buckets, lives, clock, key, Request(now, allowed), capacity, perSecond);
      buckets := buckets[key := Bucket(if allowed then tokens - 1.0 else tokens, now)];
      lives := lives[key := life + [Request(now, allowed)]];
      clock := now;
    }

    /** Drops full buckets: no key's tokens change by it. */
    method Prune()
      requires Valid()
      modifies `buckets
      ensures Valid()
      ensures forall key :: key in buckets <==> key in old(buckets) && old(buckets)[key].tokens < capacity
      ensures forall key :: key in buckets ==> buckets[key] == old(buckets)[key]
    {
      hide Lived, After;
      var todo := buckets.Keys;
      ghost var was := buckets;
      while todo != {}
        invariant todo <= was.Keys && buckets.Keys <= was.Keys
        invariant forall key :: key in buckets ==> buckets[key] == was[key]
        invariant forall key :: key in was ==> (key in buckets <==> key in todo || was[key].tokens < capacity)
      {
        var k :| k in todo;
        if buckets[k].tokens >= capacity {
          buckets := buckets - {k};
        }
        todo := todo - {k};
      }
      forall key ensures Tells(buckets, key, Life(lives, key), clock, capacity, perSecond) {
        assert Tells(was, key, Life(lives, key), clock, capacity, perSecond);
      }
    }

    /** Where a bucket can hold a token, none is ever full after a request, so pruning finds nothing to drop. */
    lemma PruneFindsNothing()
      requires Valid() && capacity >= 1.0
      ensures forall key :: key in buckets ==> buckets[key].tokens < capacity
    {
      forall key | key in buckets ensures buckets[key].tokens < capacity {
        assert Tells(buckets, key, Life(lives, key), clock, capacity, perSecond);
        AfterInBounds(Life(lives, key), capacity, perSecond);
      }
    }

    /** The bound, of every key of a limiter at any point of its life. */
    lemma KeepsTheBound(key: string, t1: real, t2: real)
      requires Valid() && t1 <= t2
      ensures Through(Life(lives, key), t1, t2) as real <= capacity + perSecond * (t2 - t1) / 1000.0
    {
      assert Tells(buckets, key, Life(lives, key), clock, capacity, perSecond);
      BurstIsBounded(Life(lives, key), t1, t2, capacity, perSecond);
    }
  }
}
