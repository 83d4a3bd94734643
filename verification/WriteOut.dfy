/**
 Writing one booking out to its hosts' calendars: the claim that keeps a retry
 from creating an event twice, and the one conferencing room per booking.

 A job may be refused, or die, at any call: its fates say what becomes of each.
 */
module WriteOut {

  type Dest = string
  type Url = string

  datatype Option<+T> = None | Some(value: T)

  /** A `booking_reference` row: the claim on a destination, filled once its event is recorded. */
  datatype Ref = Ref(dest: Dest, event: Option<nat>, url: Option<Url>)

  /**
   One call to the calendar provider. `told`: the room a co-host's copy names in
   its body. A create that throws may have landed all the same (the answer timed
   out, or could not be read); `released`: it threw, and its claim was given up.
   */
  datatype Call =
    | Create(dest: Dest, landed: bool, released: bool, asksRoom: bool, told: Option<Url>, invites: bool)
    | Update(dest: Dest, asksRoom: bool, invites: bool)

  datatype World = World(refs: seq<Ref>, calls: seq<Call>)

  /**
   What becomes of a destination in one attempt at a create. A claim that fails
   for any reason is taken for one that is held already; `kept`: it was inserted
   all the same.
   */
  datatype Fate =
    | DiesBeforeClaim
    | ClaimFails(kept: bool)
    | DiesAfterClaim
    | Refused(released: bool)
    | LandsThenThrows(released: bool)
    | LandsUnrecorded
    | Lands(event: nat, url: Option<Url>)

  predicate GetsThere(fate: Fate) { fate.Lands? || fate.LandsUnrecorded? || fate.LandsThenThrows? }

  predicate Throws(fate: Fate) { fate.Refused? || fate.LandsThenThrows? }

  predicate Releases(fate: Fate) { Throws(fate) && fate.released }

  datatype MoveFate = UpdateFails | Updates(url: Option<Url>)

  /** What both jobs read of the booking: where it is written, and whose calendars those are. */
  datatype Booking = Booking(dests: seq<Dest>, organizerRefs: set<Dest>, wantsLink: bool)

  predicate Claimed(refs: seq<Ref>, dest: Dest) {
    exists k :: 0 <= k < |refs| && refs[k].dest == dest
  }

  /** The loop passes the destination by: it is claimed, or the claim failed. */
  predicate Skips(refs: seq<Ref>, dest: Dest, fate: Fate) { Claimed(refs, dest) || fate.ClaimFails? }

  /** The rows once a destination passed by was tried. */
  function Tried(refs: seq<Ref>, dest: Dest, fate: Fate): seq<Ref> {
    if !Claimed(refs, dest) && fate.ClaimFails? && fate.kept then refs + [Ref(dest, None, None)] else refs
  }

  function FirstUrl(refs: seq<Ref>): Option<Url> {
    if refs == [] then None else if refs[0].url.Some? then refs[0].url else FirstUrl(refs[1..])
  }

  function UrlAt(refs: seq<Ref>, dest: Dest): Option<Url> {
    if refs == [] then None else if refs[0].dest == dest then refs[0].url else UrlAt(refs[1..], dest)
  }

  /** The room a retry adopts: the organizer's own, else any the booking has. */
  function Adopted(refs: seq<Ref>, dest: Dest): Option<Url> {
    if UrlAt(refs, dest).Some? then UrlAt(refs, dest) else FirstUrl(refs)
  }

  function FirstIn(ds: seq<Dest>, wanted: set<Dest>): Option<Dest> {
    if ds == [] then None else if ds[0] in wanted then Some(ds[0]) else FirstIn(ds[1..], wanted)
  }

  /** The one event that may notify the guest. */
  function Inviting(b: Booking, ds: seq<Dest>): Option<Dest> {
    if FirstIn(ds, b.organizerRefs).Some? then FirstIn(ds, b.organizerRefs)
    else if b.dests != [] && b.dests[0] in ds then Some(b.dests[0])
    else if ds != [] then Some(ds[0])
    else None
  }

  // ------------------------------------------------------- the create job

  /** The world after destinations `i..` of a create job, and whether the job ran to its end. */
  function WriteFrom(w: World, b: Booking, invites: bool, fates: seq<Fate>, i: nat, room: Option<Url>): (World, bool)
    requires |fates| == |b.dests| && i <= |b.dests|
    decreases |b.dests| - i
  {
    if i == |b.dests| then (w, true)
    else
      var dest, organizer := b.dests[i], i == 0;
      if fates[i] == DiesBeforeClaim then (w, false)
      else if Skips(w.refs, dest, fates[i]) then
        var tried := Tried(w.refs, dest, fates[i]);
        WriteFrom(World(tried, w.calls), b, invites, fates, i + 1,
                  if organizer && b.wantsLink then Adopted(tried, dest) else room)
      else
        var asked := w.calls + [Create(dest, GetsThere(fates[i]), Releases(fates[i]), b.wantsLink && organizer, room,
                                       invites && Inviting(b, b.dests) == Some(dest))];
        var claimed := w.refs + [Ref(dest, None, None)];
        match fates[i]
        case DiesAfterClaim => (World(claimed, w.calls), false)
        case Refused(released) => (World(if released then w.refs else claimed, asked), false)
        case LandsThenThrows(released) => (World(if released then w.refs else claimed, asked), false)
        case LandsUnrecorded => (World(claimed, asked), false)
        case Lands(event, url) =>
          WriteFrom(World(w.refs + [Ref(dest, Some(event), if organizer then url else room)], asked),
                    b, invites, fates, i + 1, if organizer && b.wantsLink then url else room)
  }

  // --------------------------------------------------------- the move job

  function Movable(refs: seq<Ref>): seq<Ref> {
    if refs == [] then []
    else if refs[0].event.Some? then [refs[0]] + Movable(refs[1..])
    else Movable(refs[1..])
  }

  function With(refs: seq<Ref>, dest: Option<Dest>, same: bool): seq<Ref> {
    if refs == [] then []
    else if (Some(refs[0].dest) == dest) == same then [refs[0]] + With(refs[1..], dest, same)
    else With(refs[1..], dest, same)
  }

  function Organizer(b: Booking): Option<Dest> { if b.dests == [] then None else Some(b.dests[0]) }

  /** The stored events, the organizer's first. */
  function Ordered(refs: seq<Ref>, b: Booking): seq<Ref> {
    With(Movable(refs), Organizer(b), true) + With(Movable(refs), Organizer(b), false)
  }

  function Dests(refs: seq<Ref>): seq<Dest> {
    if refs == [] then [] else [refs[0].dest] + Dests(refs[1..])
  }

  /** The calls once events `i..` have moved, whether all landed, and the room the organizer's event then has. */
  function MoveFrom(calls: seq<Call>, b: Booking, ordered: seq<Ref>, stored: Option<Url>, invites: bool,
                    fates: seq<MoveFate>, i: nat, room: Option<Url>): (seq<Call>, bool, Option<Url>)
    requires |fates| == |ordered| && i <= |ordered|
    decreases |ordered| - i
  {
    if i == |ordered| then (calls, true, room)
    else
      var dest := ordered[i].dest;
      var organizer := Some(dest) == Organizer(b);
      var asked := calls + [Update(dest, b.wantsLink && organizer && stored.None?,
                                   invites && Inviting(b, Dests(ordered)) == Some(dest))];
      if fates[i] == UpdateFails then (asked, false, room)
      else MoveFrom(asked, b, ordered, stored, invites, fates, i + 1, if organizer then fates[i].url else room)
  }

  function WithUrl(refs: seq<Ref>, url: Url): seq<Ref> {
    if refs == [] then [] else [refs[0].(url := Some(url))] + WithUrl(refs[1..], url)
  }

  /** `moves` has a fate for each stored event, `fates` one for each destination; `records`: the last write lands. */
  datatype Job =
    | CreateJob(invites: bool, fates: seq<Fate>)
    | MoveJob(invites: bool, fates: seq<Fate>, moves: seq<MoveFate>, records: bool)

  predicate Fits(w: World, b: Booking, job: Job) {
    && |job.fates| == |b.dests|
    && (job.MoveJob? ==> |job.moves| == |Ordered(w.refs, b)|)
  }

  function RunJob(w: World, b: Booking, job: Job): (World, bool)
    requires Fits(w, b, job)
  {
    if job.CreateJob? || Movable(w.refs) == [] then WriteFrom(w, b, job.invites, job.fates, 0, None)
    else
      var (calls, done, room) :=
        MoveFrom(w.calls, b, Ordered(w.refs, b), FirstUrl(w.refs), job.invites, job.moves, 0, None);
      var moved := World(w.refs, calls);
      if !done then (moved, false)
      else if room.None? then (moved, true)
      else if !job.records then (moved, false)
      else (moved.(refs := WithUrl(w.refs, room.value)), true)
  }

  // ------------------------------------------------------- the writer itself

  class CalendarWriter {
    var refs: seq<Ref>
    var calls: seq<Call>
    const booking: Booking

    constructor (booking: Booking)
      ensures this.booking == booking && refs == [] && calls == []
    {
      this.booking := booking;
      refs, calls := [], [];
    }

    function Now(): World reads this { World(refs, calls) }

    method WriteEvent(invites: bool, fates: seq<Fate>) returns (done: bool)
      requires |fates| == |booking.dests|
      modifies this
      ensures (Now(), done) == WriteFrom(old(Now()), booking, invites, fates, 0, None)
    {
      var inviting := Inviting(booking, booking.dests);
      var meetingUrl: Option<Url> := None;
      for index := 0 to |booking.dests|
        invariant WriteFrom(Now(), booking, invites, fates, index, meetingUrl)
               == WriteFrom(old(Now()), booking, invites, fates, 0, None)
      {
        var dest, isOrganizer := booking.dests[index], index == 0;
        if fates[index] == DiesBeforeClaim { return false; }
        if Skips(refs, dest, fates[index]) {
          refs := Tried(refs, dest, fates[index]);
          if isOrganizer && booking.wantsLink { meetingUrl := Adopted(refs, dest); }
          continue;
        }
        refs := refs + [Ref(dest, None, None)];
        if fates[index] == DiesAfterClaim { return false; }
        calls := calls + [Create(dest, GetsThere(fates[index]), Releases(fates[index]),
                                 booking.wantsLink && isOrganizer,
                                 meetingUrl, invites && inviting == Some(dest))];
        if Throws(fates[index]) {
          if fates[index].released { refs := refs[..|refs| - 1]; }
          return false;
        }
        if fates[index] == LandsUnrecorded { return false; }
        var url := fates[index].url;
        var stored := if isOrganizer then url else meetingUrl;
        refs := refs[..|refs| - 1] + [Ref(dest, Some(fates[index].event), stored)];
        if isOrganizer && booking.wantsLink { meetingUrl := url; }
      }
      done := true;
    }

    method MoveEvent(job: Job) returns (done: bool)
      requires job.MoveJob? && Fits(Now(), booking, job)
      modifies this
      ensures (Now(), done) == RunJob(old(Now()), booking, job)
    {
      if Movable(refs) == [] {
        done := WriteEvent(job.invites, job.fates);
        return;
      }
      var ordered, stored := Ordered(refs, booking), FirstUrl(refs);
      var inviting := Inviting(booking, Dests(ordered));
      var meetingUrl: Option<Url> := None;
      for i := 0 to |ordered|
        invariant refs == old(refs)
        invariant MoveFrom(calls, booking, ordered, stored, job.invites, job.moves, i, meetingUrl)
               == MoveFrom(old(calls), booking, ordered, stored, job.invites, job.moves, 0, None)
      {
        var dest := ordered[i].dest;
        var isOrganizer := Some(dest) == Organizer(booking);
        calls := calls + [Update(dest, booking.wantsLink && isOrganizer && stored.None?,
                                 job.invites && inviting == Some(dest))];
        if job.moves[i] == UpdateFails { return false; }
        if isOrganizer { meetingUrl := job.moves[i].url; }
      }
      if meetingUrl.None? { return true; }
      if !job.records { return false; }
      refs := WithUrl(refs, meetingUrl.value);
      done := true;
    }
  }

  // ------------------------------------------------------------ the results

  predicate Landed(call: Call, dest: Dest) { call.Create? && call.landed && call.dest == dest }

  predicate AsksRoom(call: Call) { call.asksRoom }

  /** A create on `dest`, landed or not. */
  predicate Creates(call: Call, dest: Dest) { call.Create? && call.dest == dest }

  /** One claim a destination; what landed is claimed unless its claim was given up, and only then created again. */
  ghost predicate OneEventEach(w: World) {
    && (forall i, j :: 0 <= i < j < |w.refs| ==> w.refs[i].dest != w.refs[j].dest)
    && (forall i, j, d :: 0 <= i < j < |w.calls| && Landed(w.calls[i], d) && Creates(w.calls[j], d) ==>
        w.calls[i].released)
    && (forall i, d :: 0 <= i < |w.calls| && Landed(w.calls[i], d) && !w.calls[i].released ==> Claimed(w.refs, d))
  }

  predicate OnlyFirstAsks(w: World, b: Booking) {
    forall i :: 0 <= i < |w.calls| && AsksRoom(w.calls[i]) ==> Some(w.calls[i].dest) == Organizer(b)
  }

  predicate NamesOnly(refs: seq<Ref>, url: Url) {
    forall i :: 0 <= i < |refs| && refs[i].url.Some? ==> refs[i].url.value == url
  }

  predicate OneRoom(refs: seq<Ref>) {
    forall i, j :: 0 <= i < |refs| && 0 <= j < |refs| && refs[i].url.Some? && refs[j].url.Some?
      ==> refs[i].url == refs[j].url
  }

  /** No row has a room unless the organizer's destination is claimed. */
  ghost predicate RoomIsOrganizers(refs: seq<Ref>, b: Booking) {
    forall i :: 0 <= i < |refs| && refs[i].url.Some? ==> OrganizerClaimed(refs, b)
  }

  predicate OrganizerClaimed(refs: seq<Ref>, b: Booking) { b.dests != [] && Claimed(refs, b.dests[0]) }

  ghost predicate Sound(w: World, b: Booking) {
    OneEventEach(w) && OnlyFirstAsks(w, b) && OneRoom(w.refs) && RoomIsOrganizers(w.refs, b)
  }

  predicate Holds(refs: seq<Ref>, room: Option<Url>) { room.Some? ==> NamesOnly(refs, room.value) }

  lemma {:induction false} FoundUrl(refs: seq<Ref>)
    ensures FirstUrl(refs).Some? ==> exists i :: 0 <= i < |refs| && refs[i].url == FirstUrl(refs)
  {
    if refs != [] && refs[0].url.None? {
      FoundUrl(refs[1..]);
      if FirstUrl(refs).Some? {
        var i :| 0 <= i < |refs[1..]| && refs[1..][i].url == FirstUrl(refs);
        assert refs[i + 1].url == FirstUrl(refs);
      }
    }
  }

  lemma {:induction false} FoundUrlAt(refs: seq<Ref>, dest: Dest)
    ensures UrlAt(refs, dest).Some? ==> exists i :: 0 <= i < |refs| && refs[i].url == UrlAt(refs, dest)
  {
    if refs != [] && refs[0].dest != dest {
      FoundUrlAt(refs[1..], dest);
      if UrlAt(refs, dest).Some? {
        var i :| 0 <= i < |refs[1..]| && refs[1..][i].url == UrlAt(refs, dest);
        assert refs[i + 1].url == UrlAt(refs, dest);
      }
    }
  }

  /** A claim that failed is taken for one that is held, and may be held all the same: then it is held with no event. */
  lemma FailedClaimsLeave(refs: seq<Ref>, dest: Dest, fate: Fate)
    requires fate.ClaimFails?
    ensures Tried(refs, dest, fate) == if fate.kept && !Claimed(refs, dest) then refs + [Ref(dest, None, None)]
      else refs
    ensures fate.kept ==> Claimed(Tried(refs, dest, fate), dest)
  {
    if fate.kept { assert (refs + [Ref(dest, None, None)])[|refs|].dest == dest; }
  }

  /**
   Exactly what a retry adopts: the room in the organizer's own row if it has
   one, else one that some row has, if any.
   */
  lemma AdoptedExactly(refs: seq<Ref>, dest: Dest)
    requires forall i, j :: 0 <= i < j < |refs| ==> refs[i].dest != refs[j].dest
    ensures Adopted(refs, dest).None? <==> forall k :: 0 <= k < |refs| ==> refs[k].url.None?
    ensures Adopted(refs, dest).Some? ==> exists k :: 0 <= k < |refs| && refs[k].url == Adopted(refs, dest)
    ensures forall k :: 0 <= k < |refs| && refs[k].dest == dest && refs[k].url.Some? ==>
      Adopted(refs, dest) == refs[k].url
    ensures FirstUrl(refs).None? <==> forall k :: 0 <= k < |refs| ==> refs[k].url.None?
  {
    FoundUrl(refs);
    FoundUrlAt(refs, dest);
    NoUrlMissed(refs, dest);
  }

  lemma {:induction false} NoUrlMissed(refs: seq<Ref>, dest: Dest)
    requires forall i, j :: 0 <= i < j < |refs| ==> refs[i].dest != refs[j].dest
    ensures forall k :: 0 <= k < |refs| && refs[k].url.Some? ==> FirstUrl(refs).Some?
    ensures forall k :: 0 <= k < |refs| && refs[k].dest == dest ==> UrlAt(refs, dest) == refs[k].url
  {
    if refs != [] {
      NoUrlMissed(refs[1..], dest);
      assert forall k :: 0 < k < |refs| ==> refs[k] == refs[1..][k - 1];
    }
  }

  lemma AdoptedIsTheRoom(refs: seq<Ref>, dest: Dest)
    requires OneRoom(refs)
    ensures Holds(refs, Adopted(refs, dest))
  {
    FoundUrl(refs);
    FoundUrlAt(refs, dest);
  }

  lemma {:induction false} WriteKeepsSound(w: World, b: Booking, invites: bool, fates: seq<Fate>, i: nat,
                                           room: Option<Url>)
    requires |fates| == |b.dests| && i <= |b.dests|
    requires Sound(w, b) && Holds(w.refs, room)
    requires if i == 0 then room.None? else room.Some? ==> Claimed(w.refs, b.dests[0])
    ensures Sound(WriteFrom(w, b, invites, fates, i, room).0, b)
    decreases |b.dests| - i
  {
    hide Sound, Inviting;
    if i < |b.dests| && fates[i] != DiesBeforeClaim {
      var dest := b.dests[i];
      if Skips(w.refs, dest, fates[i]) {
        var tried := Tried(w.refs, dest, fates[i]);
        TriedKeepsSound(w, b, dest, fates[i], room);
        WriteKeepsSound(World(tried, w.calls), b, invites, fates, i + 1,
                        if i == 0 && b.wantsLink then Adopted(tried, dest) else room);
      } else {
        var call := Create(dest, GetsThere(fates[i]), Releases(fates[i]), b.wantsLink && i == 0, room,
                           invites && Inviting(b, b.dests) == Some(dest));
        if i == 0 { NoRoomYet(w, b); }
        if fates[i].Lands? {
          var stored := if i == 0 then fates[i].url else room;
          var next := World(w.refs + [Ref(dest, Some(fates[i].event), stored)], w.calls + [call]);
          CreateKeepsSound(w, b, Ref(dest, Some(fates[i].event), stored), call);
          ClaimsStay(w.refs, Ref(dest, Some(fates[i].event), stored));
          WriteKeepsSound(next, b, invites, fates, i + 1, if i == 0 && b.wantsLink then fates[i].url else room);
        } else {
          ClaimKeepsSound(w, b, Ref(dest, None, None));
          CreateKeepsSound(w, b, Ref(dest, None, None), call);
        }
      }
    }
  }

  /** A destination passed by: its claim may have been kept, and a room adopted is the one stored. */
  lemma TriedKeepsSound(w: World, b: Booking, dest: Dest, fate: Fate, room: Option<Url>)
    requires Sound(w, b) && Holds(w.refs, room)
    ensures var tried := Tried(w.refs, dest, fate);
      && Sound(World(tried, w.calls), b) && Holds(tried, room) && Holds(tried, Adopted(tried, dest))
      && (Adopted(tried, dest).Some? ==> OrganizerClaimed(tried, b))
      && (forall d :: Claimed(w.refs, d) ==> Claimed(tried, d))
  {
    var tried := Tried(w.refs, dest, fate);
    if tried != w.refs {
      ClaimKeepsSound(w, b, Ref(dest, None, None));
      ClaimsStay(w.refs, Ref(dest, None, None));
    }
    FoundUrl(tried);
    FoundUrlAt(tried, dest);
    AdoptedIsTheRoom(tried, dest);
  }

  /** Unless the organizer's destination is claimed, there is no room. */
  lemma NoRoomYet(w: World, b: Booking)
    requires Sound(w, b) && !OrganizerClaimed(w.refs, b)
    ensures forall url :: NamesOnly(w.refs, url)
  {
  }

  lemma ClaimsStay(refs: seq<Ref>, ref: Ref)
    ensures Claimed(refs + [ref], ref.dest)
    ensures forall d :: Claimed(refs, d) ==> Claimed(refs + [ref], d)
  {
    assert (refs + [ref])[|refs|] == ref;
    forall d | Claimed(refs, d) ensures Claimed(refs + [ref], d) {
      var k :| 0 <= k < |refs| && refs[k].dest == d;
      assert (refs + [ref])[k].dest == d;
    }
  }

  /** A destination newly claimed, before any call. */
  lemma ClaimKeepsSound(w: World, b: Booking, ref: Ref)
    requires Sound(w, b) && !Claimed(w.refs, ref.dest) && ref.url.None?
    ensures Sound(World(w.refs + [ref], w.calls), b)
  {
    ClaimsStay(w.refs, ref);
  }

  /** A create on a destination newly claimed, and its claim kept or, when it was given up or nothing landed, not. */
  lemma CreateKeepsSound(w: World, b: Booking, ref: Ref, call: Call)
    requires Sound(w, b) && !Claimed(w.refs, ref.dest)
    requires Holds(w.refs, ref.url) && (ref.url.Some? ==> Some(ref.dest) == Organizer(b) || OrganizerClaimed(w.refs, b))
    requires call.Create? && call.dest == ref.dest && (call.asksRoom ==> Some(ref.dest) == Organizer(b))
    ensures Sound(World(w.refs + [ref], w.calls + [call]), b) && Holds(w.refs + [ref], ref.url)
    ensures call.released || !call.landed ==> Sound(World(w.refs, w.calls + [call]), b)
  {
    ClaimsStay(w.refs, ref);
    var calls := w.calls + [call];
    assert forall k :: 0 <= k < |w.calls| ==> calls[k] == w.calls[k];
  }

  lemma {:induction false} WithUrlEach(refs: seq<Ref>, url: Url)
    ensures |WithUrl(refs, url)| == |refs|
    ensures forall i :: 0 <= i < |refs| ==> WithUrl(refs, url)[i] == refs[i].(url := Some(url))
  {
    if refs != [] { WithUrlEach(refs[1..], url); }
  }

  /** A move only updates, and asks for a room at most on the organizer's event, when none is stored. */
  predicate MoveCall(call: Call, b: Booking, ordered: seq<Ref>, stored: Option<Url>, invites: bool) {
    && call.Update?
    && (call.asksRoom ==> Some(call.dest) == Organizer(b) && stored.None?)
    && (call.invites <==> invites && Inviting(b, Dests(ordered)) == Some(call.dest))
  }

  lemma {:induction false} MoveCalls(calls: seq<Call>, b: Booking, ordered: seq<Ref>, stored: Option<Url>,
                                     invites: bool,
                                     fates: seq<MoveFate>, i: nat, room: Option<Url>)
    requires |fates| == |ordered| && i <= |ordered|
    ensures var after := MoveFrom(calls, b, ordered, stored, invites, fates, i, room).0;
      && |calls| <= |after| && after[..|calls|] == calls
      && (forall k :: |calls| <= k < |after| ==> MoveCall(after[k], b, ordered, stored, invites))
    decreases |ordered| - i
  {
    if i < |ordered| && fates[i] != UpdateFails {
      var dest := ordered[i].dest;
      var organizer := Some(dest) == Organizer(b);
      var call := Update(dest, b.wantsLink && organizer && stored.None?,
                         invites && Inviting(b, Dests(ordered)) == Some(dest));
      MoveCalls(calls + [call], b, ordered, stored, invites, fates, i + 1, if organizer then fates[i].url else room);
      var after := MoveFrom(calls, b, ordered, stored, invites, fates, i, room).0;
      assert after[..|calls| + 1] == calls + [call];
      assert after[..|calls|] == after[..|calls| + 1][..|calls|] == calls;
      assert after[|calls|] == (calls + [call])[|calls|];
    }
  }

  lemma {:induction false} RoomNeedsOrganizer(calls: seq<Call>, b: Booking, ordered: seq<Ref>, stored: Option<Url>,
                                              invites: bool,
                                              fates: seq<MoveFate>, i: nat, room: Option<Url>)
    requires |fates| == |ordered| && i <= |ordered|
    ensures MoveFrom(calls, b, ordered, stored, invites, fates, i, room).2.Some? ==>
      room.Some? || exists k :: i <= k < |ordered| && Some(ordered[k].dest) == Organizer(b)
    decreases |ordered| - i
  {
    if i < |ordered| && fates[i] != UpdateFails {
      var dest := ordered[i].dest;
      var organizer := Some(dest) == Organizer(b);
      var call := Update(dest, b.wantsLink && organizer && stored.None?,
                         invites && Inviting(b, Dests(ordered)) == Some(dest));
      RoomNeedsOrganizer(calls + [call], b, ordered, stored, invites, fates, i + 1,
                         if organizer then fates[i].url else room);
    }
  }

  /** Only the organizer's event brings a move a room. */
  lemma MoveRoomIsOrganizers(w: World, b: Booking, job: Job)
    requires Fits(w, b, job) && job.MoveJob?
    requires MoveFrom(w.calls, b, Ordered(w.refs, b), FirstUrl(w.refs), job.invites, job.moves, 0, None).2.Some?
    ensures OrganizerClaimed(w.refs, b)
  {
    var ordered := Ordered(w.refs, b);
    RoomNeedsOrganizer(w.calls, b, ordered, FirstUrl(w.refs), job.invites, job.moves, 0, None);
    var k :| 0 <= k < |ordered| && Some(ordered[k].dest) == Organizer(b);
    MovableKeeps(w.refs, ordered[k]);
    WithKeeps(Movable(w.refs), Organizer(b), true, ordered[k]);
    WithKeeps(Movable(w.refs), Organizer(b), false, ordered[k]);
    assert ordered[k] in w.refs;
  }

  lemma JobKeepsSound(w: World, b: Booking, job: Job)
    requires Fits(w, b, job) && Sound(w, b)
    ensures Sound(RunJob(w, b, job).0, b)
  {
    if job.CreateJob? || Movable(w.refs) == [] {
      WriteKeepsSound(w, b, job.invites, job.fates, 0, None);
    } else {
      var (calls, done, room) :=
        MoveFrom(w.calls, b, Ordered(w.refs, b), FirstUrl(w.refs), job.invites, job.moves, 0, None);
      MoveCalls(w.calls, b, Ordered(w.refs, b), FirstUrl(w.refs), job.invites, job.moves, 0, None);
      var moved := World(w.refs, calls);
      forall i | 0 <= i < |calls|
        ensures i < |w.calls| ==> calls[i] == w.calls[i]
        ensures i >= |w.calls| ==> MoveCall(calls[i], b, Ordered(w.refs, b), FirstUrl(w.refs), job.invites)
      {
        assert i < |w.calls| ==> calls[i] == calls[..|w.calls|][i];
      }
      assert Sound(moved, b);
      if room.Some? {
        MoveRoomIsOrganizers(w, b, job);
        var refs := WithUrl(w.refs, room.value);
        WithUrlEach(w.refs, room.value);
        forall d | Claimed(w.refs, d) ensures Claimed(refs, d) {
          var k :| 0 <= k < |w.refs| && w.refs[k].dest == d;
          assert refs[k].dest == d;
        }
      }
    }
  }

  /** `w` is what the jobs make of `v`, one after the other, each as far as it gets. */
  predicate RunsJobs(v: World, b: Booking, jobs: seq<Job>, w: World)
    decreases |jobs|
  {
    if jobs == [] then w == v
    else Fits(v, b, jobs[0]) && RunsJobs(RunJob(v, b, jobs[0]).0, b, jobs[1..], w)
  }

  lemma {:induction false} RunKeepsSound(v: World, b: Booking, jobs: seq<Job>, w: World)
    requires Sound(v, b) && RunsJobs(v, b, jobs, w)
    ensures Sound(w, b)
    decreases |jobs|
  {
    if jobs != [] {
      JobKeepsSound(v, b, jobs[0]);
      RunKeepsSound(RunJob(v, b, jobs[0]).0, b, jobs[1..], w);
    }
  }

  /**
   Whatever creates and moves run, each as often and as far as it may: only the
   first destination is ever asked for a room, every stored link is the same
   link, and a destination is written again after an event landed on it only
   when that create was reported as failed and gave up its claim.
   */
  lemma OneEventAndOneRoom(b: Booking, jobs: seq<Job>, w: World)
    requires RunsJobs(World([], []), b, jobs, w)
    ensures forall i, j, d :: 0 <= i < j < |w.calls| && Landed(w.calls[i], d) && Creates(w.calls[j], d) ==>
      w.calls[i].released
    ensures forall i :: 0 <= i < |w.calls| && AsksRoom(w.calls[i]) ==> Some(w.calls[i].dest) == Organizer(b)
    ensures OneRoom(w.refs)
  {
    RunKeepsSound(World([], []), b, jobs, w);
  }

  /** `dest` has at most one event. */
  ghost predicate OneEventAt(w: World, dest: Dest) {
    forall i, j :: 0 <= i < j < |w.calls| && Landed(w.calls[i], dest) ==> !Landed(w.calls[j], dest)
  }

  /** A create that landed on `dest` was disowned, and one after it landed there. */
  ghost predicate DisownedAndRecreated(w: World, dest: Dest) {
    exists i, j :: 0 <= i < j < |w.calls| && Landed(w.calls[i], dest) && w.calls[i].released && Landed(w.calls[j], dest)
  }

  /** Exactly when a destination has at most one event, over every run of the jobs. */
  lemma OneEventExactly(b: Booking, jobs: seq<Job>, w: World, dest: Dest)
    requires RunsJobs(World([], []), b, jobs, w)
    ensures OneEventAt(w, dest) <==> !DisownedAndRecreated(w, dest)
  {
    OneEventAndOneRoom(b, jobs, w);
    if !OneEventAt(w, dest) {
      var i, j :| 0 <= i < j < |w.calls| && Landed(w.calls[i], dest) && Landed(w.calls[j], dest);
      assert Creates(w.calls[j], dest);
      assert w.calls[i].released;
    }
  }

  /**
   It happens: an online meeting's first create lands, its answer never comes,
   and the retry creates it again. Two events, two rooms asked for, two invitations.
   */
  lemma LostAnswerCreatesTwice(dest: Dest, event: nat, url: Option<Url>) returns (b: Booking, jobs: seq<Job>, w: World)
    ensures RunsJobs(World([], []), b, jobs, w) && |w.calls| == 2
    ensures forall k :: 0 <= k < 2 ==> Landed(w.calls[k], dest) && w.calls[k].asksRoom && w.calls[k].invites
    ensures !OneEventAt(w, dest) && w.refs == [Ref(dest, Some(event), url)]
  {
    b := Booking([dest], {dest}, true);
    jobs := [CreateJob(true, [LandsThenThrows(true)]), CreateJob(true, [Lands(event, url)])];
    var first := Create(dest, true, true, true, None, true);
    var v := World([], [first]);
    var second := Create(dest, true, false, true, None, true);
    w := World([Ref(dest, Some(event), url)], [first, second]);
    assert Inviting(b, b.dests) == Some(dest) by {
      assert FirstIn(b.dests, b.organizerRefs) == Some(dest);
    }
    assert v.calls == [] + [first] && w.calls == v.calls + [second] && w.refs == v.refs + [Ref(dest, Some(event), url)];
    assert RunJob(World([], []), b, jobs[0]).0 == v;
    assert WriteFrom(w, b, true, jobs[1].fates, 1, url).0 == w;
    assert RunJob(v, b, jobs[1]).0 == w;
    assert jobs[1..] == [jobs[1]] && [jobs[1]][1..] == [];
    assert RunsJobs(w, b, [], w);
    assert RunsJobs(v, b, jobs[1..], w);
    assert Landed(w.calls[0], dest) && Landed(w.calls[1], dest);
  }

  /** A create job, from destination `i` on, only adds calls, and invites from the one inviting event. */
  lemma {:induction false} WriteCalls(w: World, b: Booking, invites: bool, fates: seq<Fate>, i: nat, room: Option<Url>)
    requires |fates| == |b.dests| && i <= |b.dests|
    ensures var after := WriteFrom(w, b, invites, fates, i, room).0.calls;
      && w.calls <= after
      && (forall k :: |w.calls| <= k < |after| ==>
            (after[k].invites <==> invites && Inviting(b, b.dests) == Some(after[k].dest)))
    decreases |b.dests| - i
  {
    if i < |b.dests| && fates[i] != DiesBeforeClaim {
      var dest, organizer := b.dests[i], i == 0;
      if Skips(w.refs, dest, fates[i]) {
        var tried := Tried(w.refs, dest, fates[i]);
        WriteCalls(World(tried, w.calls), b, invites, fates, i + 1,
                   if organizer && b.wantsLink then Adopted(tried, dest) else room);
      } else if fates[i].Lands? {
        var asked := w.calls + [Create(dest, true, false, b.wantsLink && organizer, room,
                                       invites && Inviting(b, b.dests) == Some(dest))];
        var after := World(w.refs + [Ref(dest, Some(fates[i].event), if organizer then fates[i].url else room)], asked);
        WriteCalls(after, b, invites, fates, i + 1, if organizer && b.wantsLink then fates[i].url else room);
      }
    }
  }

  /** However many hosts a booking has, one job asks the provider to notify the guest from one event. */
  lemma OneEventInvites(w: World, b: Booking, job: Job, i: nat, j: nat)
    requires Fits(w, b, job)
    requires var calls := RunJob(w, b, job).0.calls;
      |w.calls| <= i < |calls| && |w.calls| <= j < |calls| && calls[i].invites && calls[j].invites
    ensures var calls := RunJob(w, b, job).0.calls; calls[i].dest == calls[j].dest
  {
    if job.CreateJob? || Movable(w.refs) == [] {
      WriteCalls(w, b, job.invites, job.fates, 0, None);
    } else {
      MoveCalls(w.calls, b, Ordered(w.refs, b), FirstUrl(w.refs), job.invites, job.moves, 0, None);
    }
  }

  /**
   Of the destinations `ds` the guest hears from `d`: the first the organizer
   owns, else the booking's first, else the first of them.
   */
  ghost predicate IsInviting(b: Booking, ds: seq<Dest>, d: Dest) {
    if exists e :: e in ds && e in b.organizerRefs then
      d in b.organizerRefs && exists i :: 0 <= i < |ds| && ds[i] == d && forall j :: 0 <= j < i ==>
        ds[j] !in b.organizerRefs
    else if b.dests != [] && b.dests[0] in ds then d == b.dests[0]
    else ds != [] && d == ds[0]
  }

  lemma {:induction false} FirstInIs(ds: seq<Dest>, wanted: set<Dest>)
    ensures FirstIn(ds, wanted).Some? <==> exists e :: e in ds && e in wanted
    ensures FirstIn(ds, wanted).Some? ==> FirstIn(ds, wanted).value in wanted
    ensures FirstIn(ds, wanted).Some? ==>
      exists i :: 0 <= i < |ds| && ds[i] == FirstIn(ds, wanted).value && forall j :: 0 <= j < i ==> ds[j] !in wanted
  {
    if ds != [] {
      FirstInIs(ds[1..], wanted);
      assert forall e :: e in ds <==> e == ds[0] || e in ds[1..];
      if ds[0] in wanted {
        assert ds[0] == FirstIn(ds, wanted).value;
      } else if FirstIn(ds, wanted).Some? {
        var i :| 0 <= i < |ds[1..]| && ds[1..][i] == FirstIn(ds, wanted).value && forall j :: 0 <= j < i ==>
          ds[1..][j] !in wanted;
        assert ds[i + 1] == FirstIn(ds, wanted).value;
        assert forall j :: 0 <= j < i + 1 ==> ds[j] !in wanted by {
          assert forall j :: 0 < j < i + 1 ==> ds[j] == ds[1..][j - 1];
        }
      }
    }
  }

  lemma InvitingIs(b: Booking, ds: seq<Dest>, d: Dest)
    ensures Inviting(b, ds) == Some(d) <==> IsInviting(b, ds, d)
  {
    FirstInIs(ds, b.organizerRefs);
  }

  /**
   Exactly which calls of a job have the provider notify the guest: when the job
   may at all, those about that destination.
   */
  lemma InvitesExactly(w: World, b: Booking, job: Job, k: nat)
    requires Fits(w, b, job) && |w.calls| <= k < |RunJob(w, b, job).0.calls|
    ensures var call := RunJob(w, b, job).0.calls[k];
      var ds := if job.CreateJob? || Movable(w.refs) == [] then b.dests else Dests(Ordered(w.refs, b));
      call.invites <==> job.invites && IsInviting(b, ds, call.dest)
  {
    var call := RunJob(w, b, job).0.calls[k];
    if job.CreateJob? || Movable(w.refs) == [] {
      WriteCalls(w, b, job.invites, job.fates, 0, None);
      InvitingIs(b, b.dests, call.dest);
    } else {
      MoveCalls(w.calls, b, Ordered(w.refs, b), FirstUrl(w.refs), job.invites, job.moves, 0, None);
      InvitingIs(b, Dests(Ordered(w.refs, b)), call.dest);
    }
  }

  /** Every row of an event from the `n`th on stores `room`. */
  predicate AllCarry(refs: seq<Ref>, n: nat, room: Option<Url>) {
    forall k :: n <= k < |refs| && refs[k].event.Some? ==> refs[k].url == room
  }

  /** Every create from the `n`th call on names `room` in the event it writes. */
  predicate AllTold(calls: seq<Call>, n: nat, room: Option<Url>) {
    forall k :: n <= k < |calls| && calls[k].Create? ==> calls[k].told == room
  }

  /** After the organizer's destination, every event recorded stores the room known by then, however the job ends. */
  lemma {:induction false} WriteSpreads(w: World, b: Booking, invites: bool, fates: seq<Fate>, i: nat,
                                        room: Option<Url>, n: nat)
    requires |fates| == |b.dests| && 0 < i <= |b.dests| && n <= |w.refs| && AllCarry(w.refs, n, room)
    ensures AllCarry(WriteFrom(w, b, invites, fates, i, room).0.refs, n, room)
    decreases |b.dests| - i
  {
    hide Inviting;
    if i < |b.dests| && fates[i] != DiesBeforeClaim {
      var dest := b.dests[i];
      if Skips(w.refs, dest, fates[i]) {
        WriteSpreads(World(Tried(w.refs, dest, fates[i]), w.calls), b, invites, fates, i + 1, room, n);
      } else if fates[i].Lands? {
        var asked := w.calls + [Create(dest, true, false, false, room, invites && Inviting(b, b.dests) == Some(dest))];
        WriteSpreads(World(w.refs + [Ref(dest, Some(fates[i].event), room)], asked), b, invites, fates, i + 1, room, n);
      }
    }
  }

  /** After the organizer's destination, every event created names the room known by then, however the job ends. */
  lemma {:induction false} WriteTells(w: World, b: Booking, invites: bool, fates: seq<Fate>, i: nat,
                                      room: Option<Url>, n: nat)
    requires |fates| == |b.dests| && 0 < i <= |b.dests| && n <= |w.calls| && AllTold(w.calls, n, room)
    ensures AllTold(WriteFrom(w, b, invites, fates, i, room).0.calls, n, room)
    decreases |b.dests| - i
  {
    hide Inviting;
    if i < |b.dests| && fates[i] != DiesBeforeClaim {
      var dest := b.dests[i];
      if Skips(w.refs, dest, fates[i]) {
        WriteTells(World(Tried(w.refs, dest, fates[i]), w.calls), b, invites, fates, i + 1, room, n);
      } else if fates[i].Lands? {
        var asked := w.calls + [Create(dest, true, false, false, room, invites && Inviting(b, b.dests) == Some(dest))];
        WriteTells(World(w.refs + [Ref(dest, Some(fates[i].event), room)], asked), b, invites, fates, i + 1, room, n);
      }
    }
  }

  /** The room a create of an online meeting knows once it is past the organizer's destination. */
  function RoomKnown(w: World, b: Booking, fate: Fate): Option<Url>
    requires b.dests != []
  {
    if Skips(w.refs, b.dests[0], fate) then Adopted(Tried(w.refs, b.dests[0], fate), b.dests[0])
    else if fate.Lands? then fate.url
    else None
  }

  /**
   A create of an online meeting, a first one or a retry, from any state: every
   other host's event names one room, that of the organizer's event or the one
   adopted, and every row it records stores it, however the job ends.
   */
  lemma EveryHostGetsTheRoom(w: World, b: Booking, invites: bool, fates: seq<Fate>)
    requires |fates| == |b.dests| && b.dests != [] && b.wantsLink
    ensures var after, room := WriteFrom(w, b, invites, fates, 0, None).0, RoomKnown(w, b, fates[0]);
      && AllTold(after.calls, |w.calls| + (if Skips(w.refs, b.dests[0], fates[0]) then 0 else 1), room)
      && AllCarry(after.refs, |w.refs|, room)
  {
    hide Inviting;
    var dest, room := b.dests[0], RoomKnown(w, b, fates[0]);
    if fates[0] == DiesBeforeClaim {
    } else if Skips(w.refs, dest, fates[0]) {
      var tried := World(Tried(w.refs, dest, fates[0]), w.calls);
      WriteTells(tried, b, invites, fates, 1, room, |w.calls|);
      WriteSpreads(tried, b, invites, fates, 1, room, |w.refs|);
    } else if fates[0].Lands? {
      var first := World(w.refs + [Ref(dest, Some(fates[0].event), fates[0].url)],
                         w.calls + [Create(dest, true, false, true, None,
                                           invites && Inviting(b, b.dests) == Some(dest))]);
      WriteTells(first, b, invites, fates, 1, room, |w.calls| + 1);
      WriteSpreads(first, b, invites, fates, 1, room, |w.refs|);
    }
  }

  /**
   A retry that finds the organizer's destination claimed asks for no room; of an
   online meeting, every event it creates names the room stored before.
   */
  lemma RetryAdoptsTheRoom(w: World, b: Booking, invites: bool, fates: seq<Fate>)
    requires |fates| == |b.dests| && b.dests != [] && Claimed(w.refs, b.dests[0])
    ensures var after := WriteFrom(w, b, invites, fates, 0, None).0.calls;
      && w.calls <= after && (forall k :: |w.calls| <= k < |after| ==> !after[k].asksRoom)
      && (b.wantsLink ==> AllTold(after, |w.calls|, Adopted(w.refs, b.dests[0])))
  {
    if b.wantsLink {
      EveryHostGetsTheRoom(w, b, invites, fates);
    }
    if fates[0] != DiesBeforeClaim {
      OnlyOrganizerAsks(w, b, invites, fates, 1, if b.wantsLink then Adopted(w.refs, b.dests[0]) else None);
    }
  }

  // ------------------------------------------- who is written at all

  /** `dest` has an event that is recorded. */
  predicate Written(refs: seq<Ref>, dest: Dest) {
    exists k :: 0 <= k < |refs| && refs[k].dest == dest && refs[k].event.Some?
  }

  /** `dest` is claimed, and no event of it is recorded. */
  predicate Orphaned(refs: seq<Ref>, dest: Dest) { Claimed(refs, dest) && !Written(refs, dest) }

  predicate EachOnce(ds: seq<Dest>) { forall i, j :: 0 <= i < j < |ds| ==> ds[i] != ds[j] }

  /** This job writes `dest`, from its `i`th destination on. */
  predicate Writes(refs: seq<Ref>, b: Booking, fates: seq<Fate>, i: nat, dest: Dest)
    requires |fates| == |b.dests|
  {
    exists k :: i <= k < |b.dests| && b.dests[k] == dest && !Skips(refs, dest, fates[k])
  }

  lemma RowAdded(refs: seq<Ref>, ref: Ref, dest: Dest)
    ensures Claimed(refs + [ref], dest) <==> Claimed(refs, dest) || ref.dest == dest
    ensures Written(refs + [ref], dest) <==> Written(refs, dest) || (ref.dest == dest && ref.event.Some?)
  {
    var all := refs + [ref];
    assert all[|refs|] == ref;
    assert forall k :: 0 <= k < |refs| ==> all[k] == refs[k];
  }

  lemma {:induction false} WritesFrom(w: World, b: Booking, invites: bool, fates: seq<Fate>, i: nat,
                                      room: Option<Url>, dest: Dest)
    requires |fates| == |b.dests| && i <= |b.dests| && EachOnce(b.dests)
    requires WriteFrom(w, b, invites, fates, i, room).1
    ensures var after := WriteFrom(w, b, invites, fates, i, room).0.refs;
      Written(after, dest) <==> Written(w.refs, dest) || Writes(w.refs, b, fates, i, dest)
    decreases |b.dests| - i
  {
    hide Inviting, Claimed, Written;
    if i < |b.dests| {
      var here := b.dests[i];
      if Skips(w.refs, here, fates[i]) {
        var tried := Tried(w.refs, here, fates[i]);
        RowAdded(w.refs, Ref(here, None, None), dest);
        WritesFrom(World(tried, w.calls), b, invites, fates, i + 1,
                   if i == 0 && b.wantsLink then Adopted(tried, here) else room, dest);
      } else {
        var ref := Ref(here, Some(fates[i].event), if i == 0 then fates[i].url else room);
        var asked := w.calls + [Create(here, true, false, b.wantsLink && i == 0, room,
                                       invites && Inviting(b, b.dests) == Some(here))];
        RowAdded(w.refs, ref, dest);
        WritesFrom(World(w.refs + [ref], asked), b, invites, fates, i + 1,
                   if i == 0 && b.wantsLink then fates[i].url else room, dest);
      }
    }
  }

  /**
   Exactly when a create job that ends well has written every host, from any
   state: no destination had been claimed without its event being recorded, and
   no claim failed on one that was free.
   */
  lemma EveryHostIsWrittenExactly(w: World, b: Booking, invites: bool, fates: seq<Fate>)
    requires |fates| == |b.dests| && EachOnce(b.dests)
    requires WriteFrom(w, b, invites, fates, 0, None).1
    ensures (forall k :: 0 <= k < |b.dests| ==> Written(WriteFrom(w, b, invites, fates, 0, None).0.refs, b.dests[k]))
       <==> (forall k :: 0 <= k < |b.dests| ==>
               !Orphaned(w.refs, b.dests[k]) && (fates[k].ClaimFails? ==> Claimed(w.refs, b.dests[k])))
  {
    var after := WriteFrom(w, b, invites, fates, 0, None).0.refs;
    forall k | 0 <= k < |b.dests|
      ensures Written(after, b.dests[k]) <==>
        !Orphaned(w.refs, b.dests[k]) && (fates[k].ClaimFails? ==> Claimed(w.refs, b.dests[k]))
    {
      WritesFrom(w, b, invites, fates, 0, None, b.dests[k]);
      assert Writes(w.refs, b, fates, 0, b.dests[k]) <==> !Skips(w.refs, b.dests[k], fates[k]);
      assert Written(w.refs, b.dests[k]) ==> Claimed(w.refs, b.dests[k]);
    }
  }

  /**
   It happens: a worker dies between the claim and the create, and the retry
   takes the claim for an event. It ends well, having called nobody.
   */
  lemma DeadClaimSkipsTheHost(dest: Dest, fate: Fate)
    requires fate.Lands?
    ensures var b, w := Booking([dest], {dest}, true), World([Ref(dest, None, None)], []);
      && RunJob(World([], []), b, CreateJob(true, [DiesAfterClaim])) == (w, false)
      && RunJob(w, b, CreateJob(true, [fate])) == (w, true)
      && !Written(w.refs, dest)
  {
    var b, w := Booking([dest], {dest}, true), World([Ref(dest, None, None)], []);
    assert [] + w.refs == w.refs && w.refs[0].dest == dest && Claimed(w.refs, dest);
    assert WriteFrom(w, b, true, [fate], 1, Adopted(w.refs, dest)) == (w, true);
  }

  lemma {:induction false} WritePassesBy(w: World, b: Booking, invites: bool, fates: seq<Fate>, i: nat,
                                         room: Option<Url>, dest: Dest)
    requires |fates| == |b.dests| && i <= |b.dests| && Orphaned(w.refs, dest)
    ensures var after := WriteFrom(w, b, invites, fates, i, room).0;
      && Orphaned(after.refs, dest) && w.calls <= after.calls
      && (forall k :: |w.calls| <= k < |after.calls| ==> !Creates(after.calls[k], dest))
    decreases |b.dests| - i
  {
    hide Inviting, Claimed, Written;
    if i < |b.dests| && fates[i] != DiesBeforeClaim {
      var here := b.dests[i];
      RowAdded(w.refs, Ref(here, None, None), dest);
      if Skips(w.refs, here, fates[i]) {
        var tried := Tried(w.refs, here, fates[i]);
        WritePassesBy(World(tried, w.calls), b, invites, fates, i + 1,
                      if i == 0 && b.wantsLink then Adopted(tried, here) else room, dest);
      } else if fates[i].Lands? {
        var ref := Ref(here, Some(fates[i].event), if i == 0 then fates[i].url else room);
        var asked := w.calls + [Create(here, true, false, b.wantsLink && i == 0, room,
                                       invites && Inviting(b, b.dests) == Some(here))];
        RowAdded(w.refs, ref, dest);
        WritePassesBy(World(w.refs + [ref], asked), b, invites, fates, i + 1,
                      if i == 0 && b.wantsLink then fates[i].url else room, dest);
      }
    }
  }

  lemma JobPassesBy(w: World, b: Booking, job: Job, dest: Dest)
    requires Fits(w, b, job) && Orphaned(w.refs, dest)
    ensures var after := RunJob(w, b, job).0;
      && Orphaned(after.refs, dest) && w.calls <= after.calls
      && (forall k :: |w.calls| <= k < |after.calls| ==> !Creates(after.calls[k], dest))
  {
    if job.CreateJob? || Movable(w.refs) == [] {
      WritePassesBy(w, b, job.invites, job.fates, 0, None, dest);
    } else {
      var (calls, _, room) :=
        MoveFrom(w.calls, b, Ordered(w.refs, b), FirstUrl(w.refs), job.invites, job.moves, 0, None);
      MoveCalls(w.calls, b, Ordered(w.refs, b), FirstUrl(w.refs), job.invites, job.moves, 0, None);
      if room.Some? {
        WithUrlEach(w.refs, room.value);
        var k :| 0 <= k < |w.refs| && w.refs[k].dest == dest;
        assert WithUrl(w.refs, room.value)[k].dest == dest;
      }
    }
  }

  /**
   A claim without its event is never given up nor filled: no later job, of any
   kind or fate, creates an event there.
   */
  lemma {:induction false} OrphanIsForever(v: World, b: Booking, jobs: seq<Job>, w: World, dest: Dest)
    requires RunsJobs(v, b, jobs, w) && Orphaned(v.refs, dest)
    ensures Orphaned(w.refs, dest) && v.calls <= w.calls
    ensures forall k :: |v.calls| <= k < |w.calls| ==> !Creates(w.calls[k], dest)
    decreases |jobs|
  {
    if jobs != [] {
      JobPassesBy(v, b, jobs[0], dest);
      var m := RunJob(v, b, jobs[0]).0;
      OrphanIsForever(m, b, jobs[1..], w, dest);
      assert forall k :: |v.calls| <= k < |m.calls| ==> w.calls[k] == m.calls[k];
    }
  }

  lemma {:induction false} OnlyOrganizerAsks(w: World, b: Booking, invites: bool, fates: seq<Fate>, i: nat,
                                             room: Option<Url>)
    requires |fates| == |b.dests| && 0 < i <= |b.dests|
    ensures var after := WriteFrom(w, b, invites, fates, i, room).0.calls;
      w.calls <= after && forall k :: |w.calls| <= k < |after| ==> !after[k].asksRoom
    decreases |b.dests| - i
  {
    hide Inviting;
    if i < |b.dests| && fates[i] != DiesBeforeClaim {
      var dest := b.dests[i];
      if Skips(w.refs, dest, fates[i]) {
        OnlyOrganizerAsks(World(Tried(w.refs, dest, fates[i]), w.calls), b, invites, fates, i + 1, room);
      } else if fates[i].Lands? {
        var asked := w.calls + [Create(dest, true, false, false, room, invites && Inviting(b, b.dests) == Some(dest))];
        OnlyOrganizerAsks(World(w.refs + [Ref(dest, Some(fates[i].event), room)], asked), b, invites, fates, i + 1,
                          room);
      }
    }
  }

  /** A retried move never asks for another room once one is stored. */
  lemma StoredRoomIsKept(w: World, b: Booking, job: Job, i: nat)
    requires Fits(w, b, job) && job.MoveJob? && Movable(w.refs) != [] && FirstUrl(w.refs).Some?
    requires |w.calls| <= i < |RunJob(w, b, job).0.calls|
    ensures !RunJob(w, b, job).0.calls[i].asksRoom
  {
    MoveCalls(w.calls, b, Ordered(w.refs, b), FirstUrl(w.refs), job.invites, job.moves, 0, None);
  }

  lemma {:induction false} MoveReaches(calls: seq<Call>, b: Booking, ordered: seq<Ref>, stored: Option<Url>,
                                       invites: bool,
                                       fates: seq<MoveFate>, i: nat, room: Option<Url>)
    requires |fates| == |ordered| && i <= |ordered|
    ensures var (after, done, _) := MoveFrom(calls, b, ordered, stored, invites, fates, i, room);
      done ==>
        && |after| == |calls| + |ordered| - i
        && (forall k :: i <= k < |ordered| ==> after[|calls| + k - i].dest == ordered[k].dest)
    decreases |ordered| - i
  {
    MoveCalls(calls, b, ordered, stored, invites, fates, i, room);
    if i < |ordered| && fates[i] != UpdateFails {
      var dest := ordered[i].dest;
      var organizer := Some(dest) == Organizer(b);
      var asked := calls + [Update(dest, b.wantsLink && organizer && stored.None?,
                                   invites && Inviting(b, Dests(ordered)) == Some(dest))];
      MoveReaches(asked, b, ordered, stored, invites, fates, i + 1, if organizer then fates[i].url else room);
      MoveCalls(asked, b, ordered, stored, invites, fates, i + 1, if organizer then fates[i].url else room);
      var after := MoveFrom(calls, b, ordered, stored, invites, fates, i, room).0;
      assert after[|calls|] == after[..|asked|][|calls|] == asked[|calls|];
    }
  }

  lemma {:induction false} WithKeeps(refs: seq<Ref>, dest: Option<Dest>, same: bool, ref: Ref)
    ensures ref in With(refs, dest, same) <==> ref in refs && (Some(ref.dest) == dest) == same
  {
    if refs != [] {
      WithKeeps(refs[1..], dest, same, ref);
      assert refs == [refs[0]] + refs[1..];
    }
  }

  lemma {:induction false} MovableKeeps(refs: seq<Ref>, ref: Ref)
    ensures ref in Movable(refs) <==> ref in refs && ref.event.Some?
  {
    if refs != [] {
      MovableKeeps(refs[1..], ref);
      assert refs == [refs[0]] + refs[1..];
    }
  }

  /** A move that runs to its end moves every stored event, the organizer's before any other. */
  lemma MoveReachesEveryEvent(w: World, b: Booking, job: Job, ref: Ref)
    requires Fits(w, b, job) && job.MoveJob? && job.records && ref in w.refs && ref.event.Some?
    requires RunJob(w, b, job).1
    ensures var calls := RunJob(w, b, job).0.calls;
      && (exists k :: |w.calls| <= k < |calls| && calls[k].dest == ref.dest)
      && (Some(ref.dest) == Organizer(b) ==> |w.calls| < |calls| && calls[|w.calls|].dest == ref.dest)
  {
    var ordered := Ordered(w.refs, b);
    MovableKeeps(w.refs, ref);
    WithKeeps(Movable(w.refs), Organizer(b), true, ref);
    WithKeeps(Movable(w.refs), Organizer(b), false, ref);
    MoveReaches(w.calls, b, ordered, FirstUrl(w.refs), job.invites, job.moves, 0, None);
    var calls := RunJob(w, b, job).0.calls;
    assert ref in ordered;
    var k :| 0 <= k < |ordered| && ordered[k] == ref;
    assert calls[|w.calls| + k].dest == ref.dest;
    if Some(ref.dest) == Organizer(b) {
      var head := With(Movable(w.refs), Organizer(b), true)[0];
      WithKeeps(Movable(w.refs), Organizer(b), true, head);
      assert calls[|w.calls| + 0].dest == ordered[0].dest;
    }
  }
}
