/**
 The outbox worker's poll loop: each lane's deliveries in flight, its one claim
 at a time, and the timer for the next retry. One turn of the event loop is one
 method call; a claim begins in one turn (`PumpLane`) and returns in another.
 */
module Lanes {

  type Lane = string

  datatype Option<+T> = None | Some(value: T)

  function Max(a: int, b: int): int { if a >= b then a else b }

  function At(m: map<Lane, int>, lane: Lane): int { if lane in m then m[lane] else 0 }

  /** A call to `wake`: the instant asked for, and when it was asked. */
  datatype Request = Request(at: int, made: int)

  /** The requests for an instant after `now`. */
  function NotReached(rs: seq<Request>, now: int): (left: seq<Request>)
    ensures forall r :: r in left <==> r in rs && r.at > now
  {
    if rs == [] then []
    else
      var before, last := NotReached(rs[..|rs| - 1], now), rs[|rs| - 1];
      if last.at > now then before + [last] else before
  }

  class OutboxWorker {
    const concurrency: nat
    const lanes: seq<Lane>

    var inFlight: map<Lane, int>
    var claiming: set<Lane>
    var again: set<Lane>
    var stopped: bool
    /** The poll loop runs; the next wake asked for, and when its timer fires. */
    var timer: bool
    var wakeAt: Option<int>
    var wakeTimer: Option<int>

    /** Deliveries and claims truly running; the slots each running claim asked for. */
    ghost var delivering: map<Lane, int>
    ghost var claims: map<Lane, int>
    ghost var room: map<Lane, int>
    /** Lanes asked to claim that have begun no claim since. */
    ghost var owed: set<Lane>
    /** The wakes asked for since the timer last fired. */
    ghost var pending: seq<Request>
    /** The wakes asked for before that, and not reached by then. */
    ghost var forgotten: seq<Request>
    ghost var clock: int

    ghost predicate LaneOk(lane: Lane)
      reads this
    {
      && At(inFlight, lane) == At(delivering, lane) >= 0
      && At(claims, lane) == (if lane in claiming then 1 else 0)
      && (lane in again ==> lane in claiming)
      && At(room, lane) >= 0
      && At(delivering, lane) + (if lane in claiming then At(room, lane) else 0) <= concurrency
    }

    /**
     A claim asked for will follow: the running one will be repeated, or the lane
     is full and a delivery's end asks again.
     */
    ghost predicate Served(lane: Lane)
      reads this
    {
      lane in owed && !stopped ==> lane in again || At(delivering, lane) == concurrency
    }

    /** The timer is due by the instant asked for, or by the asking when that was late, if it is not due already. */
    ghost predicate InTime(r: Request)
      requires wakeTimer.Some?
      reads `wakeTimer, `clock
    {
      wakeTimer.value <= Max(r.at, r.made) || wakeTimer.value <= clock
    }

    /** The timer armed is that of the earliest wake asked for, and it is due in time for all of them. */
    ghost predicate WakeOk()
      reads this
    {
      && (wakeAt.Some? <==> wakeTimer.Some?) && (wakeAt.Some? <==> pending != [])
      && (stopped || !timer ==> wakeAt.None?)
      && (wakeAt.Some? ==>
            && (forall i :: 0 <= i < |pending| ==> wakeAt.value <= pending[i].at && InTime(pending[i]))
            && (exists i :: 0 <= i < |pending| && pending[i].at == wakeAt.value)
            && wakeTimer.value >= wakeAt.value && (wakeTimer.value == wakeAt.value || wakeTimer.value <= clock))
    }

    /** At `now` the timer armed is that of the earliest wake asked for and still to come, forgotten ones included. */
    ghost predicate EarliestIsArmed(now: int)
      reads `wakeAt, `pending, `forgotten
    {
      forall r :: (r in pending || r in forgotten) && r.at > now ==> wakeAt.Some? && wakeAt.value <= r.at
    }

    ghost predicate Valid()
      reads this
    {
      concurrency >= 1 && WakeOk() && (forall lane :: LaneOk(lane)) && (forall lane :: Served(lane))
    }

    ghost predicate ValidBut(lane: Lane)
      reads this
    {
      concurrency >= 1 && WakeOk() && (forall any :: LaneOk(any)) && (forall other :: other != lane ==> Served(other))
    }

    constructor (concurrency: int, lanes: seq<Lane>, polls: bool)
      ensures Valid() && this.concurrency == Max(1, concurrency) && this.lanes == lanes && timer == polls && !stopped
      ensures wakeAt == None && pending == forgotten == [] && clock == 0
    {
      this.concurrency, this.lanes := Max(1, concurrency), lanes;
      inFlight, claiming, again, stopped, timer := map[], {}, {}, false, polls;
      wakeAt, wakeTimer := None, None;
      delivering, claims, room, owed, pending, forgotten, clock := map[], map[], map[], {}, [], [], 0;
    }

    /** A turn that touches one lane leaves the others as they were. */
    twostate predicate OnlyTouches(lane: Lane)
      reads this
    {
      forall other :: other != lane ==>
        && At(inFlight, other) == old(At(inFlight, other)) && At(delivering, other) == old(At(delivering, other))
        && At(claims, other) == old(At(claims, other)) && At(room, other) == old(At(room, other))
        && (other in claiming <==> other in old(claiming)) && (other in again <==> other in old(again))
        && (other in owed <==> other in old(owed))
    }

    twostate lemma OthersStay(lane: Lane)
      requires old(ValidBut(lane)) && OnlyTouches(lane) && stopped == old(stopped)
      requires unchanged(`timer, `wakeAt, `wakeTimer, `pending, `clock)
      requires LaneOk(lane)
      ensures ValidBut(lane)
    {
      forall other ensures LaneOk(other) && (other != lane ==> Served(other)) {
        assert old(LaneOk(other)) && (other != lane ==> old(Served(other)));
      }
    }

    /** A turn about the timer leaves the lanes as they were. */
    twostate lemma LanesStay()
      requires old(Valid())
      requires unchanged(`inFlight, `claiming, `again, `stopped, `delivering, `claims, `room, `owed)
      ensures forall lane :: LaneOk(lane) && Served(lane)
    {
      forall lane ensures LaneOk(lane) && Served(lane) {
        assert old(LaneOk(lane)) && old(Served(lane));
      }
    }

    /** Asks the lane to claim: it does now, or as soon as its running claim returns, or once a slot is free. */
    method PumpLane(lane: Lane) returns (begun: bool)
      requires ValidBut(lane)
      modifies `claiming, `again, `claims, `room, `owed
      ensures Valid() && OnlyTouches(lane)
      ensures begun <==> !stopped && lane !in old(claiming) && At(delivering, lane) < concurrency
      ensures claiming == old(claiming) + (if begun then {lane} else {})
      ensures again == old(again) + (if !stopped && lane in old(claiming) then {lane} else {})
      ensures owed == if stopped then old(owed) else if begun then old(owed) - {lane} else old(owed) + {lane}
      ensures begun ==> At(room, lane) == concurrency - At(delivering, lane)
      ensures !begun ==> claims == old(claims) && room == old(room)
    {
      hide WakeOk, Served;
      assert LaneOk(lane);
      begun := false;
      if !stopped {
        owed := owed + {lane};
        if lane in claiming {
          again := again + {lane};
        } else {
          var free := concurrency - At(inFlight, lane);
          if free > 0 {
            Begin(lane, free);
            begun := true;
          }
        }
      }
      hide At;
      OthersStay(lane);
      IsServed(lane);
    }

    /** A claim for `free` rows begins. */
    method Begin(lane: Lane, free: nat)
      requires lane !in claiming && LaneOk(lane) && At(delivering, lane) + free <= concurrency
      modifies `claiming, `claims, `room, `owed
      ensures LaneOk(lane) && claiming == old(claiming) + {lane} && owed == old(owed) - {lane} && At(room, lane) == free
      ensures forall other :: other != lane ==>
        At(claims, other) == old(At(claims, other)) && At(room, other) == old(At(room, other))
    {
      claiming := claiming + {lane};
      claims, room, owed := claims[lane := At(claims, lane) + 1], room[lane := free], owed - {lane};
    }

    lemma IsServed(lane: Lane)
      requires lane in owed && !stopped ==> lane in again || At(delivering, lane) == concurrency
      ensures Served(lane)
    {
    }

    /** Each claimed row's delivery begins. */
    method Deliver(lane: Lane, rows: nat)
      requires At(inFlight, lane) == At(delivering, lane)
      modifies `inFlight, `delivering
      ensures At(inFlight, lane) == At(delivering, lane) == old(At(delivering, lane)) + rows
      ensures OnlyTouches(lane)
    {
      for row := 0 to rows
        invariant At(inFlight, lane) == At(delivering, lane) == old(At(delivering, lane)) + row
        invariant OnlyTouches(lane)
      {
        inFlight := inFlight[lane := At(inFlight, lane) + 1];
        delivering := delivering[lane := At(delivering, lane) + 1];
      }
    }

    /**
     The claim returns `rows` rows, none when it failed: each is delivered, and a
     claim asked for meanwhile begins.
     */
    method ClaimReturns(lane: Lane, rows: nat) returns (begun: bool)
      requires Valid() && lane in claiming && rows <= At(room, lane)
      modifies `inFlight, `claiming, `again, `delivering, `claims, `room, `owed
      ensures Valid() && OnlyTouches(lane)
      ensures At(delivering, lane) == old(At(delivering, lane)) + rows
      ensures begun <==> old(lane in again) && !stopped && At(delivering, lane) < concurrency
      ensures lane in claiming <==> begun
      ensures old(lane in owed) && !stopped ==> lane !in owed || At(delivering, lane) == concurrency
    {
      hide WakeOk;
      assert LaneOk(lane) && Served(lane);
      claiming := claiming - {lane};
      claims := claims[lane := At(claims, lane) - 1];
      Deliver(lane, rows);
      begun := false;
      var repeat := lane in again;
      again := again - {lane};
      OthersStay(lane);
      if repeat {
        begun := PumpLane(lane);
      } else {
        assert Served(lane);
      }
    }

    /** A delivery ends, however it ends: its slot is free and the lane looks for more. */
    method Completes(lane: Lane) returns (begun: bool)
      requires Valid() && At(delivering, lane) > 0
      modifies `inFlight, `claiming, `again, `delivering, `claims, `room, `owed
      ensures Valid() && OnlyTouches(lane)
      ensures At(delivering, lane) == old(At(delivering, lane)) - 1
      ensures begun <==> !stopped && lane !in old(claiming)
      ensures !stopped && lane in owed ==> lane in claiming && lane in again
    {
      assert LaneOk(lane);
      inFlight := inFlight[lane := Max(0, At(inFlight, lane) - 1)];
      delivering := delivering[lane := At(delivering, lane) - 1];
      OthersStay(lane);
      begun := PumpLane(lane);
      assert LaneOk(lane) && Served(lane);
    }

    /**
     The lane was asked to claim: it does now, or will once its running claim
     returns, or it is full and is owed a claim.
     */
    twostate predicate Asked(lane: Lane)
      reads this
    {
      || (lane in claiming && lane !in old(claiming))
      || (lane in claiming && lane in old(claiming) && lane in again)
      || (At(delivering, lane) == concurrency && lane in owed)
    }

    twostate predicate Untouched(lane: Lane)
      reads this
    {
      && (lane in claiming <==> lane in old(claiming)) && (lane in again <==> lane in old(again))
      && (lane in owed <==> lane in old(owed))
      && At(claims, lane) == old(At(claims, lane)) && At(room, lane) == old(At(room, lane))
    }

    /** A poll tick: every lane is asked to claim, unless the worker has stopped. */
    method Pump()
      requires Valid()
      modifies `claiming, `again, `claims, `room, `owed
      ensures Valid()
      ensures !stopped ==> forall lane :: lane in lanes ==> Asked(lane)
      ensures forall lane :: lane !in lanes || stopped ==> Untouched(lane)
    {
      if stopped {
        return;
      }
      for i := 0 to |lanes|
        invariant Valid() && old(claiming) <= claiming
        invariant forall k :: 0 <= k < i ==> Asked(lanes[k])
        invariant forall lane :: lane !in lanes[..i] ==> Untouched(lane)
      {
        var lane := lanes[i];
        label before:
        var _ := PumpLane(lane);
        assert Asked(lane) by {
          assert LaneOk(lane) && old@before(LaneOk(lane));
        }
        assert lanes[..i + 1] == lanes[..i] + [lane];
      }
      assert lanes[..|lanes|] == lanes;
    }

    /** A retry is due at `at`: the timer fires then, unless it already fires sooner. */
    method Wake(at: int, now: int)
      requires Valid() && clock <= now
      modifies `wakeAt, `wakeTimer, `pending, `clock
      ensures Valid() && clock == now
      ensures !timer || stopped ==> wakeAt == old(wakeAt) && pending == old(pending)
      ensures timer && !stopped ==> pending == old(pending) + [Request(at, now)]
      ensures timer && !stopped ==>
        wakeAt == Some(if old(wakeAt).Some? && old(wakeAt).value <= at then old(wakeAt).value else at)
    {
      if timer && !stopped {
        pending := pending + [Request(at, now)];
        assert pending[|pending| - 1] == Request(at, now);
        if wakeAt.None? || at < wakeAt.value {
          wakeAt := Some(at);
          wakeTimer := Some(now + Max(0, at - now));
        } else {
          ghost var i :| 0 <= i < |old(pending)| && old(pending)[i].at == wakeAt.value;
          assert pending[i].at == wakeAt.value;
        }
      }
      clock := now;
      assert WakeOk();
      LanesStay();
    }

    /** The timer fires: every lane is asked to claim, and the wakes asked for so far are forgotten. */
    method Fire(now: int)
      requires Valid() && wakeTimer.Some? && clock <= now && wakeTimer.value <= now
      modifies `wakeAt, `wakeTimer, `pending, `forgotten, `clock, `claiming, `again, `claims, `room, `owed
      ensures Valid() && clock == now && wakeAt == None && pending == []
      ensures forgotten == NotReached(old(forgotten) + old(pending), now)
      ensures old(exists i :: 0 <= i < |pending| && pending[i].at <= now)
      ensures forall lane :: if lane in lanes then Asked(lane) else Untouched(lane)
    {
      clock := now;
      forgotten := NotReached(forgotten + pending, now);
      wakeTimer, wakeAt, pending := None, None, [];
      hide NotReached;
      LanesStay();
      Pump();
    }

    method Stop()
      requires Valid()
      modifies `stopped, `timer, `wakeAt, `wakeTimer, `pending, `forgotten
      ensures Valid() && stopped && !timer && wakeTimer.None?
    {
      stopped, timer, wakeAt, wakeTimer, pending, forgotten := true, false, None, None, [], [];
      forall lane ensures LaneOk(lane) && Served(lane) {
        assert old(LaneOk(lane));
      }
    }

    /** Whatever the interleaving: no lane delivers more than it may, nor claims twice at once. */
    lemma LaneIsBounded(lane: Lane)
      requires Valid()
      ensures 0 <= At(delivering, lane) <= concurrency && At(claims, lane) <= 1
    {
      assert LaneOk(lane);
    }

    /**
     At any instant the earliest wake to come is the one armed exactly when none
     forgotten and to come is earlier than all asked for since.
     */
    lemma EarliestArmedExactly(now: int)
      requires Valid()
      ensures EarliestIsArmed(now) <==>
        forall r :: r in forgotten && r.at > now ==> exists i :: 0 <= i < |pending| && pending[i].at <= r.at
    {
      if wakeAt.Some? {
        var i :| 0 <= i < |pending| && pending[i].at == wakeAt.value;
        assert forall k :: 0 <= k < |pending| ==> wakeAt.value <= pending[k].at;
        forall r | r in pending ensures wakeAt.value <= r.at {
        }
      }
    }
  }

  /** Two wakes: the timer that fires for the first leaves none armed for the second, whose row waits for the poll. */
  method SecondWakeIsForgotten(first: int, second: int) returns (worker: OutboxWorker)
    requires 0 <= first < second
    ensures fresh(worker) && worker.Valid() && forall now :: first <= now < second ==> !worker.EarliestIsArmed(now)
    ensures worker.wakeAt == None && worker.forgotten == [Request(second, 0)]
  {
    worker := new OutboxWorker(1, [], true);
    worker.Wake(first, 0);
    worker.Wake(second, 0);
    assert worker.pending == [Request(first, 0), Request(second, 0)];
    worker.Fire(first);
    var both := [] + [Request(first, 0), Request(second, 0)];
    assert both[..1] == [Request(first, 0)] && [Request(first, 0)][..0] == [];
    assert NotReached([Request(first, 0)], first) == NotReached([], first);
    assert NotReached(both, first) == [Request(second, 0)];
    assert Request(second, 0) in worker.forgotten;
  }
}
