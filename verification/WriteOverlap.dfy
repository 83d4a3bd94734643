/**
 Calendar jobs of one booking that overlap: creates and moves, one database or
 provider call at a time, in any interleaving. `WriteOut` has each job as it
 runs alone.
 */
module WriteOverlap {
  import opened WriteOut

  /** Where a job is, and the room it has in hand. `call`: its create that threw. */
  datatype Pc =
    | Next(i: nat, room: Option<Url>)
    | Adopting(i: nat)
    | Holding(i: nat, room: Option<Url>)
    | Created(i: nat, room: Option<Url>, event: nat, url: Option<Url>)
    | Thrown(i: nat, call: nat)
    | Moving(todo: seq<Dest>, minted: Option<Url>)
    | Linking(link: Url)
    | Over

  /** What a job decided when it began: whether a move asks for a room, and which event invites. */
  datatype Job = Job(asks: bool, inviting: Option<Dest>, pc: Pc)

  datatype State = State(w: World, jobs: seq<Job>)

  datatype Act =
    | Begin(move: bool, invites: bool)
    | Claim(j: nat, fails: bool, kept: bool)
    | Adopt(j: nat)
    | Land(j: nat, event: nat, url: Option<Url>)
    | Throw(j: nat, landed: bool)
    | Release(j: nat)
    | Record(j: nat)
    | Move(j: nat, fate: MoveFate)
    | Link(j: nat)
    | Die(j: nat)

  function Without(refs: seq<Ref>, dest: Dest): seq<Ref> {
    if refs == [] then []
    else if refs[0].dest == dest then Without(refs[1..], dest)
    else [refs[0]] + Without(refs[1..], dest)
  }

  /** The claim on `dest`, filled. */
  function Filled(refs: seq<Ref>, dest: Dest, event: nat, url: Option<Url>): (filled: seq<Ref>)
    ensures |filled| == |refs|
    ensures forall k :: 0 <= k < |refs| ==>
      filled[k] == if refs[k].dest == dest then Ref(dest, Some(event), url) else refs[k]
  {
    seq(|refs|, k requires 0 <= k < |refs| => if refs[k].dest == dest then Ref(dest, Some(event), url) else refs[k])
  }

  predicate Can(s: State, b: Booking, a: Act) {
    a.Begin? || (a.j < |s.jobs| && var pc := s.jobs[a.j].pc;
      match a
      case Begin(_, _) => true
      case Claim(_, _, _) => pc.Next? && pc.i < |b.dests|
      case Adopt(_) => pc.Adopting?
      case Land(_, _, _) => pc.Holding? && pc.i < |b.dests|
      case Throw(_, _) => pc.Holding? && pc.i < |b.dests|
      case Release(_) => pc.Thrown? && pc.i < |b.dests| && pc.call < |s.w.calls| && s.w.calls[pc.call].Create?
      case Record(_) => pc.Created? && pc.i < |b.dests|
      case Move(_, _) => pc.Moving? && pc.todo != []
      case Link(_) => pc.Linking?
      case Die(_) => true)
  }

  /** A job begins: a move with nothing to move creates. */
  function Begun(w: World, b: Booking, move: bool, invites: bool): Job {
    if !move || Movable(w.refs) == [] then
      Job(false, if invites then Inviting(b, b.dests) else None, Next(0, None))
    else
      var ordered := Dests(Ordered(w.refs, b));
      Job(b.wantsLink && FirstUrl(w.refs).None?, if invites then Inviting(b, ordered) else None, Moving(ordered, None))
  }

  function CreateCall(b: Booking, job: Job, landed: bool): Call
    requires job.pc.Holding? && job.pc.i < |b.dests|
  {
    var dest := b.dests[job.pc.i];
    Create(dest, landed, false, b.wantsLink && job.pc.i == 0, job.pc.room, job.inviting == Some(dest))
  }

  function UpdateCall(b: Booking, job: Job): Call
    requires job.pc.Moving? && job.pc.todo != []
  {
    var dest := job.pc.todo[0];
    Update(dest, job.asks && Some(dest) == Organizer(b), job.inviting == Some(dest))
  }

  function PcAfter(s: State, b: Booking, a: Act): Pc
    requires Can(s, b, a) && !a.Begin?
  {
    var pc := s.jobs[a.j].pc;
    match a
    case Claim(_, fails, kept) =>
      if Skips(s.w.refs, b.dests[pc.i], if fails then ClaimFails(kept) else DiesAfterClaim) then
        if pc.i == 0 && b.wantsLink then Adopting(0) else Next(pc.i + 1, pc.room)
      else Holding(pc.i, pc.room)
    case Adopt(_) => Next(pc.i + 1, if b.dests == [] then None else Adopted(s.w.refs, b.dests[0]))
    case Land(_, event, url) => Created(pc.i, pc.room, event, url)
    case Throw(_, _) => Thrown(pc.i, |s.w.calls|)
    case Record(_) => Next(pc.i + 1, if pc.i == 0 && b.wantsLink then pc.url else pc.room)
    case Move(_, fate) =>
      if fate == UpdateFails then Over
      else
        var minted := if Some(pc.todo[0]) == Organizer(b) then fate.url else pc.minted;
        if |pc.todo| > 1 then Moving(pc.todo[1..], minted)
        else if minted.Some? then Linking(minted.value)
        else Over
    case _ => Over
  }

  function WorldAfter(s: State, b: Booking, a: Act): World
    requires Can(s, b, a) && !a.Begin?
  {
    var w, job := s.w, s.jobs[a.j];
    match a
    case Claim(_, fails, kept) =>
      var dest, fate := b.dests[job.pc.i], if fails then ClaimFails(kept) else DiesAfterClaim;
      w.(refs := if Skips(w.refs, dest, fate) then Tried(w.refs, dest, fate) else w.refs + [Ref(dest, None, None)])
    case Land(_, _, _) => w.(calls := w.calls + [CreateCall(b, job, true)])
    case Throw(_, landed) => w.(calls := w.calls + [CreateCall(b, job, landed)])
    case Release(_) =>
      World(Without(w.refs, b.dests[job.pc.i]), w.calls[job.pc.call := w.calls[job.pc.call].(released := true)])
    case Record(_) =>
      var stored := if job.pc.i == 0 then job.pc.url else job.pc.room;
      w.(refs := Filled(w.refs, b.dests[job.pc.i], job.pc.event, stored))
    case Move(_, _) => w.(calls := w.calls + [UpdateCall(b, job)])
    case Link(_) => w.(refs := WithUrl(w.refs, job.pc.link))
    case _ => w
  }

  function Take(s: State, b: Booking, a: Act): State
    requires Can(s, b, a)
  {
    if a.Begin? then s.(jobs := s.jobs + [Begun(s.w, b, a.move, a.invites)])
    else State(WorldAfter(s, b, a), s.jobs[a.j := s.jobs[a.j].(pc := PcAfter(s, b, a))])
  }

  predicate Runs(s: State, b: Booking, run: seq<Act>, t: State)
    decreases |run|
  {
    if run == [] then t == s else Can(s, b, run[0]) && Runs(Take(s, b, run[0]), b, run[1..], t)
  }

  const EMPTY := State(World([], []), [])

  /** A job that is not over is never stuck, whatever the others do, and may die at any point. */
  lemma JobGoesOn(s: State, b: Booking, j: nat, event: nat, url: Option<Url>, landed: bool, fails: bool, kept: bool,
                  fate: MoveFate)
    requires j < |s.jobs|
    ensures Can(s, b, Die(j))
    ensures s.jobs[j].pc.Next? && s.jobs[j].pc.i < |b.dests| ==> Can(s, b, Claim(j, fails, kept))
    ensures s.jobs[j].pc.Adopting? ==> Can(s, b, Adopt(j))
    ensures s.jobs[j].pc.Holding? && s.jobs[j].pc.i < |b.dests| ==>
      Can(s, b, Land(j, event, url)) && Can(s, b, Throw(j, landed))
    ensures s.jobs[j].pc.Created? && s.jobs[j].pc.i < |b.dests| ==> Can(s, b, Record(j))
    ensures s.jobs[j].pc.Moving? && s.jobs[j].pc.todo != [] ==> Can(s, b, Move(j, fate))
    ensures s.jobs[j].pc.Linking? ==> Can(s, b, Link(j))
    ensures Inv(s, b) && s.jobs[j].pc.Thrown? ==> Can(s, b, Release(j))
  {
    if Inv(s, b) && s.jobs[j].pc.Thrown? { assert JobOk(s, b, j); }
  }

  // --------------------------------------------------- one event each

  /** The destination whose claim a job holds. */
  predicate HoldsClaim(s: State, b: Booking, j: nat, dest: Dest) {
    j < |s.jobs| && var pc := s.jobs[j].pc;
    (pc.Holding? || pc.Created? || pc.Thrown?) && pc.i < |b.dests| && b.dests[pc.i] == dest
  }

  /** Every event on `dest`, but for that of call `own`, was disowned. */
  predicate AllDisowned(w: World, dest: Dest, own: nat) {
    forall k :: 0 <= k < |w.calls| && k != own && Landed(w.calls[k], dest) ==> w.calls[k].released
  }

  predicate JobOk(s: State, b: Booking, j: nat)
    requires j < |s.jobs|
  {
    var pc := s.jobs[j].pc;
    && (pc.Next? ==> pc.i <= |b.dests|)
    && (pc.Holding? || pc.Created? || pc.Thrown? ==> pc.i < |b.dests| && Claimed(s.w.refs, b.dests[pc.i]))
    && (pc.Adopting? ==> pc.i < |b.dests|)
    && (pc.Holding? ==> AllDisowned(s.w, b.dests[pc.i], |s.w.calls|))
    && (pc.Thrown? ==>
          && pc.call < |s.w.calls| && Creates(s.w.calls[pc.call], b.dests[pc.i])
          && AllDisowned(s.w, b.dests[pc.i], pc.call))
  }

  ghost predicate Inv(s: State, b: Booking) {
    && OneEventEach(s.w) && OnlyFirstAsks(s.w, b)
    && (forall j :: 0 <= j < |s.jobs| ==> JobOk(s, b, j))
    && (forall j, k, d :: HoldsClaim(s, b, j, d) && HoldsClaim(s, b, k, d) ==> j == k)
  }

  lemma {:induction false} WithoutHas(refs: seq<Ref>, dest: Dest, d: Dest)
    ensures Claimed(Without(refs, dest), d) <==> d != dest && Claimed(refs, d)
  {
    if refs != [] {
      WithoutHas(refs[1..], dest, d);
      assert forall k :: 0 <= k < |refs[1..]| ==> refs[1..][k] == refs[k + 1];
      var rest := Without(refs[1..], dest);
      if refs[0].dest != dest {
        assert ([refs[0]] + rest)[0] == refs[0];
        assert forall k :: 0 <= k < |rest| ==> ([refs[0]] + rest)[k + 1] == rest[k];
      }
    }
  }

  /** What other jobs may do to calls, seen from a job that holds `dest`. */
  predicate CallsGrow(w: World, v: World, dest: Dest) {
    && |w.calls| <= |v.calls|
    && (forall k :: 0 <= k < |w.calls| ==>
        v.calls[k] == w.calls[k] || (w.calls[k].Create? && v.calls[k] == w.calls[k].(released := true)))
    && (forall k :: |w.calls| <= k < |v.calls| ==> !Creates(v.calls[k], dest))
  }

  /** A job that does not act keeps what it has. */
  lemma OtherStays(s: State, t: State, b: Booking, k: nat)
    requires k < |s.jobs| && k < |t.jobs| && t.jobs[k] == s.jobs[k] && JobOk(s, b, k)
    requires forall d :: HoldsClaim(s, b, k, d) ==>
      (Claimed(s.w.refs, d) ==> Claimed(t.w.refs, d)) && CallsGrow(s.w, t.w, d)
    ensures JobOk(t, b, k)
  {
    hide Claimed;
    var pc := s.jobs[k].pc;
    if pc.Holding? || pc.Created? || pc.Thrown? {
      assert HoldsClaim(s, b, k, b.dests[pc.i]);
    }
  }

  /** The acting job is `j`: nobody else holds what it holds, and what it holds next nobody held. */
  lemma StillApart(s: State, t: State, b: Booking, j: nat)
    requires Inv(s, b) && j < |t.jobs| && |s.jobs| <= |t.jobs| <= |s.jobs| + 1
    requires forall k :: 0 <= k < |t.jobs| && k != j ==> k < |s.jobs| && t.jobs[k] == s.jobs[k]
    requires forall d :: HoldsClaim(t, b, j, d) ==> HoldsClaim(s, b, j, d) || !Claimed(s.w.refs, d)
    ensures forall k, l, d :: HoldsClaim(t, b, k, d) && HoldsClaim(t, b, l, d) ==> k == l
  {
    forall k: nat, l: nat, d | HoldsClaim(t, b, k, d) && HoldsClaim(t, b, l, d) ensures k == l {
      if k != j { assert HoldsClaim(s, b, k, d) && JobOk(s, b, k); }
      if l != j { assert HoldsClaim(s, b, l, d) && JobOk(s, b, l); }
    }
  }

  lemma RestKeepsInv(s: State, b: Booking, a: Act)
    requires Inv(s, b) && Can(s, b, a) && (a.Begin? || a.Adopt? || a.Die? || a.Move?)
    ensures Inv(Take(s, b, a), b)
  {
    var t := Take(s, b, a);
    var j := if a.Begin? then |s.jobs| else a.j;
    forall k | 0 <= k < |t.jobs| ensures JobOk(t, b, k) {
      if k < |s.jobs| { assert JobOk(s, b, k); }
      if k != j { OtherStays(s, t, b, k); }
    }
    StillApart(s, t, b, j);
  }

  lemma ClaimKeepsInv(s: State, b: Booking, a: Act)
    requires Inv(s, b) && Can(s, b, a) && a.Claim?
    ensures Inv(Take(s, b, a), b)
  {
    var t, dest := Take(s, b, a), b.dests[s.jobs[a.j].pc.i];
    ClaimsStay(s.w.refs, Ref(dest, None, None));
    forall k | 0 <= k < |t.jobs| ensures JobOk(t, b, k) {
      assert JobOk(s, b, k);
      if k != a.j { OtherStays(s, t, b, k); }
    }
    StillApart(s, t, b, a.j);
  }

  lemma CreateKeepsInv(s: State, b: Booking, a: Act)
    requires Inv(s, b) && Can(s, b, a) && (a.Land? || a.Throw?)
    ensures Inv(Take(s, b, a), b)
  {
    var t, dest := Take(s, b, a), b.dests[s.jobs[a.j].pc.i];
    assert JobOk(s, b, a.j) && HoldsClaim(s, b, a.j, dest);
    forall k | 0 <= k < |t.jobs| ensures JobOk(t, b, k) {
      assert JobOk(s, b, k);
      if k != a.j { OtherStays(s, t, b, k); }
    }
    StillApart(s, t, b, a.j);
  }

  lemma RecordKeepsInv(s: State, b: Booking, a: Act)
    requires Inv(s, b) && Can(s, b, a) && (a.Record? || a.Link?)
    ensures Inv(Take(s, b, a), b)
  {
    var t := Take(s, b, a);
    if a.Link? { WithUrlEach(s.w.refs, s.jobs[a.j].pc.link); }
    assert |t.w.refs| == |s.w.refs| && forall k :: 0 <= k < |s.w.refs| ==> t.w.refs[k].dest == s.w.refs[k].dest;
    forall d ensures Claimed(t.w.refs, d) == Claimed(s.w.refs, d) {
      if k :| 0 <= k < |s.w.refs| && s.w.refs[k].dest == d { assert t.w.refs[k].dest == d; }
    }
    forall k | 0 <= k < |t.jobs| ensures JobOk(t, b, k) {
      assert JobOk(s, b, k);
      if k != a.j { OtherStays(s, t, b, k); }
    }
    StillApart(s, t, b, a.j);
  }

  lemma {:induction false} WithoutDistinct(refs: seq<Ref>, dest: Dest)
    requires forall i, j :: 0 <= i < j < |refs| ==> refs[i].dest != refs[j].dest
    ensures forall i, j :: 0 <= i < j < |Without(refs, dest)| ==>
      Without(refs, dest)[i].dest != Without(refs, dest)[j].dest
  {
    if refs != [] {
      WithoutDistinct(refs[1..], dest);
      var rest := Without(refs[1..], dest);
      forall j | 0 <= j < |rest| ensures rest[j].dest != refs[0].dest {
        WithoutHas(refs[1..], dest, rest[j].dest);
        assert Claimed(rest, rest[j].dest);
      }
    }
  }

  lemma ReleaseKeepsInv(s: State, b: Booking, a: Act)
    requires Inv(s, b) && Can(s, b, a) && a.Release?
    ensures Inv(Take(s, b, a), b)
  {
    var t, pc := Take(s, b, a), s.jobs[a.j].pc;
    var dest := b.dests[pc.i];
    assert JobOk(s, b, a.j) && HoldsClaim(s, b, a.j, dest);
    WithoutDistinct(s.w.refs, dest);
    forall d ensures Claimed(t.w.refs, d) <==> d != dest && Claimed(s.w.refs, d) { WithoutHas(s.w.refs, dest, d); }
    forall k | 0 <= k < |t.jobs| ensures JobOk(t, b, k) {
      assert JobOk(s, b, k);
      if k != a.j { OtherStays(s, t, b, k); }
    }
    StillApart(s, t, b, a.j);
  }

  /** Every step of every job keeps it. */
  lemma StepKeepsInv(s: State, b: Booking, a: Act)
    requires Inv(s, b) && Can(s, b, a)
    ensures Inv(Take(s, b, a), b)
  {
    match a
    case Claim(_, _, _) => ClaimKeepsInv(s, b, a);
    case Land(_, _, _) => CreateKeepsInv(s, b, a);
    case Throw(_, _) => CreateKeepsInv(s, b, a);
    case Release(_) => ReleaseKeepsInv(s, b, a);
    case Record(_) => RecordKeepsInv(s, b, a);
    case Link(_) => RecordKeepsInv(s, b, a);
    case _ => RestKeepsInv(s, b, a);
  }

  lemma {:induction false} RunKeepsInv(s: State, b: Booking, run: seq<Act>, t: State)
    requires Inv(s, b) && Runs(s, b, run, t)
    ensures Inv(t, b)
    decreases |run|
  {
    if run != [] {
      StepKeepsInv(s, b, run[0]);
      RunKeepsInv(Take(s, b, run[0]), b, run[1..], t);
    }
  }

  /**
   However the jobs of a booking overlap, and wherever each fails: a destination
   has at most one event exactly when no create that landed on it gave up its
   claim and was followed by another that landed; only the first destination is
   ever asked for a room.
   */
  lemma OneEventExactlyInAnyOverlap(b: Booking, run: seq<Act>, t: State, dest: Dest)
    requires Runs(EMPTY, b, run, t)
    ensures OneEventAt(t.w, dest) <==> !DisownedAndRecreated(t.w, dest)
    ensures OnlyFirstAsks(t.w, b)
  {
    RunKeepsInv(EMPTY, b, run, t);
    if !OneEventAt(t.w, dest) {
      var i, j :| 0 <= i < j < |t.w.calls| && Landed(t.w.calls[i], dest) && Landed(t.w.calls[j], dest);
      assert Creates(t.w.calls[j], dest);
      assert t.w.calls[i].released;
    }
  }

  // ------------------------------------------------------- one room

  /** The room a create has in hand. */
  function InHand(pc: Pc): Option<Url> {
    if pc.Next? || pc.Holding? || pc.Created? then pc.room else None
  }

  ghost predicate Stored(refs: seq<Ref>, url: Url) { exists k :: 0 <= k < |refs| && refs[k].url == Some(url) }

  ghost predicate Known(s: State, url: Url) {
    Stored(s.w.refs, url) || exists j :: 0 <= j < |s.jobs| && InHand(s.jobs[j].pc) == Some(url)
  }

  /** The organizer's event is recorded. */
  predicate OrganizerWritten(refs: seq<Ref>, b: Booking) { b.dests != [] && Written(refs, b.dests[0]) }

  predicate MoveOk(s: State, b: Booking, j: nat)
    requires j < |s.jobs|
  {
    var pc := s.jobs[j].pc;
    && (pc.Linking? || (pc.Moving? && pc.minted.Some?) ==> OrganizerWritten(s.w.refs, b))
    && (pc.Moving? && b.dests != [] && b.dests[0] in pc.todo ==> OrganizerWritten(s.w.refs, b))
  }

  /** One room is known, none before the organizer's event is recorded; a claim held has no event. */
  ghost predicate RoomInv(s: State, b: Booking) {
    && (forall u, v :: Known(s, u) && Known(s, v) ==> u == v)
    && (!OrganizerWritten(s.w.refs, b) ==> forall u :: !Known(s, u))
    && (forall j :: 0 <= j < |s.jobs| ==> MoveOk(s, b, j))
    && (forall j, d :: HoldsClaim(s, b, j, d) ==> !Written(s.w.refs, d))
  }

  /** No move stores a new link while a create has another in hand. */
  predicate Calm(s: State, a: Act) {
    a.Link? && a.j < |s.jobs| && s.jobs[a.j].pc.Linking? ==>
      forall j :: 0 <= j < |s.jobs| && InHand(s.jobs[j].pc).Some? ==> InHand(s.jobs[j].pc).value == s.jobs[a.j].pc.link
  }

  predicate CalmRuns(s: State, b: Booking, run: seq<Act>, t: State)
    decreases |run|
  {
    if run == [] then t == s
    else Can(s, b, run[0]) && Calm(s, run[0]) && CalmRuns(Take(s, b, run[0]), b, run[1..], t)
  }

  lemma WrittenStays(refs: seq<Ref>, ref: Ref)
    ensures forall d :: Written(refs + [ref], d) <==> Written(refs, d) || (ref.dest == d && ref.event.Some?)
    ensures forall u :: Stored(refs + [ref], u) <==> Stored(refs, u) || ref.url == Some(u)
  {
    var all := refs + [ref];
    assert all[|refs|] == ref && forall k :: 0 <= k < |refs| ==> all[k] == refs[k];
    forall d ensures Written(all, d) <==> Written(refs, d) || (ref.dest == d && ref.event.Some?) {
      RowAdded(refs, ref, d);
    }
    forall u ensures Stored(all, u) <==> Stored(refs, u) || ref.url == Some(u) {
      if Stored(refs, u) {
        var k :| 0 <= k < |refs| && refs[k].url == Some(u);
        assert all[k].url == Some(u);
      }
    }
  }

  lemma {:induction false} WithoutStays(refs: seq<Ref>, dest: Dest, d: Dest, u: Url)
    ensures Written(Without(refs, dest), d) <==> d != dest && Written(refs, d)
    ensures Stored(Without(refs, dest), u) ==> Stored(refs, u)
  {
    if refs != [] {
      var rest := Without(refs[1..], dest);
      WithoutStays(refs[1..], dest, d, u);
      assert forall k :: 0 <= k < |refs[1..]| ==> refs[1..][k] == refs[k + 1];
      if refs[0].dest != dest {
        assert ([refs[0]] + rest)[0] == refs[0];
        assert forall k :: 0 <= k < |rest| ==> ([refs[0]] + rest)[k + 1] == rest[k];
      }
    }
  }

  lemma {:induction false} DestsOf(refs: seq<Ref>, d: Dest)
    ensures d in Dests(refs) ==> exists ref :: ref in refs && ref.dest == d
  {
    if refs != [] && refs[0].dest != d { DestsOf(refs[1..], d); }
  }

  /** What a move sets out to move is written. */
  lemma MovesWhatIsWritten(refs: seq<Ref>, b: Booking, d: Dest)
    ensures d in Dests(Ordered(refs, b)) ==> Written(refs, d)
  {
    DestsOf(Ordered(refs, b), d);
    if d in Dests(Ordered(refs, b)) {
      var ref :| ref in Ordered(refs, b) && ref.dest == d;
      WithKeeps(Movable(refs), Organizer(b), true, ref);
      WithKeeps(Movable(refs), Organizer(b), false, ref);
      MovableKeeps(refs, ref);
    }
  }

  /** A step after which no more rooms are known, and what was written still is. */
  lemma NothingNew(s: State, t: State, b: Booking, j: nat)
    requires RoomInv(s, b) && j < |t.jobs| && |s.jobs| <= |t.jobs|
    requires forall k :: 0 <= k < |t.jobs| && k != j ==> k < |s.jobs| && t.jobs[k] == s.jobs[k]
    requires forall u :: Stored(t.w.refs, u) ==> Known(s, u)
    requires InHand(t.jobs[j].pc).Some? ==> Known(s, InHand(t.jobs[j].pc).value)
    requires OrganizerWritten(s.w.refs, b) ==> OrganizerWritten(t.w.refs, b)
    requires MoveOk(t, b, j)
    requires forall k, d :: HoldsClaim(t, b, k, d) ==> !Written(t.w.refs, d)
    ensures RoomInv(t, b)
  {
    forall u | Known(t, u) ensures Known(s, u) {
      if !Stored(t.w.refs, u) {
        var k :| 0 <= k < |t.jobs| && InHand(t.jobs[k].pc) == Some(u);
        assert k != j ==> InHand(s.jobs[k].pc) == Some(u);
      }
    }
    forall k | 0 <= k < |t.jobs| ensures MoveOk(t, b, k) {
      if k != j {
        var job := t.jobs[k];
        assert k < |s.jobs| && job == s.jobs[k];
        assert MoveOk(s, b, k);
      }
    }
  }

  lemma BeginKeepsRoom(s: State, b: Booking, a: Act)
    requires RoomInv(s, b) && a.Begin?
    ensures RoomInv(Take(s, b, a), b)
  {
    var t := Take(s, b, a);
    if b.dests != [] { MovesWhatIsWritten(s.w.refs, b, b.dests[0]); }
    forall k, d | HoldsClaim(t, b, k, d) ensures !Written(t.w.refs, d) { assert HoldsClaim(s, b, k, d); }
    NothingNew(s, t, b, |s.jobs|);
  }

  lemma RestKeepsRoom(s: State, b: Booking, a: Act)
    requires Inv(s, b) && RoomInv(s, b) && Can(s, b, a) && (a.Land? || a.Throw? || a.Die? || a.Move? || a.Adopt?)
    ensures RoomInv(Take(s, b, a), b)
  {
    var t, pc := Take(s, b, a), s.jobs[a.j].pc;
    assert JobOk(s, b, a.j) && MoveOk(s, b, a.j);
    if a.Adopt? {
      FoundUrl(s.w.refs);
      FoundUrlAt(s.w.refs, b.dests[0]);
    }
    assert InHand(pc).Some? ==> Known(s, InHand(pc).value);
    forall k, d | HoldsClaim(t, b, k, d) ensures !Written(t.w.refs, d) { assert HoldsClaim(s, b, k, d); }
    NothingNew(s, t, b, a.j);
  }

  lemma ClaimKeepsRoom(s: State, b: Booking, a: Act)
    requires Inv(s, b) && RoomInv(s, b) && Can(s, b, a) && a.Claim?
    ensures RoomInv(Take(s, b, a), b)
  {
    var t, pc := Take(s, b, a), s.jobs[a.j].pc;
    var dest := b.dests[pc.i];
    WrittenStays(s.w.refs, Ref(dest, None, None));
    assert InHand(pc).Some? ==> Known(s, InHand(pc).value);
    forall k, d | HoldsClaim(t, b, k, d) ensures !Written(t.w.refs, d) {
      if k != a.j { assert HoldsClaim(s, b, k, d); } else { assert Written(s.w.refs, d) ==> Claimed(s.w.refs, d); }
    }
    NothingNew(s, t, b, a.j);
  }

  lemma ReleaseKeepsRoom(s: State, b: Booking, a: Act)
    requires Inv(s, b) && RoomInv(s, b) && Can(s, b, a) && a.Release?
    ensures RoomInv(Take(s, b, a), b)
  {
    var t, dest := Take(s, b, a), b.dests[s.jobs[a.j].pc.i];
    assert HoldsClaim(s, b, a.j, dest);
    forall d ensures Written(t.w.refs, d) <==> d != dest && Written(s.w.refs, d) {
      WithoutStays(s.w.refs, dest, d, "");
    }
    forall u ensures Stored(t.w.refs, u) ==> Stored(s.w.refs, u) { WithoutStays(s.w.refs, dest, dest, u); }
    forall k, d | HoldsClaim(t, b, k, d) ensures !Written(t.w.refs, d) { assert HoldsClaim(s, b, k, d); }
    NothingNew(s, t, b, a.j);
  }

  lemma RecordKeepsRoom(s: State, b: Booking, a: Act)
    requires Inv(s, b) && RoomInv(s, b) && Can(s, b, a) && a.Record?
    ensures RoomInv(Take(s, b, a), b)
  {
    var t, pc := Take(s, b, a), s.jobs[a.j].pc;
    var dest := b.dests[pc.i];
    assert JobOk(s, b, a.j) && HoldsClaim(s, b, a.j, dest);
    forall k, d | HoldsClaim(t, b, k, d) ensures !Written(t.w.refs, d) { assert HoldsClaim(s, b, k, d); }
    assert InHand(pc) == pc.room;
    if pc.i > 0 {
      assert pc.room.Some? ==> Known(s, pc.room.value);
      NothingNew(s, t, b, a.j);
    } else {
      assert forall u :: !Known(s, u);
      forall k | 0 <= k < |s.jobs| ensures InHand(s.jobs[k].pc).None? {
        assert InHand(s.jobs[k].pc).Some? ==> Known(s, InHand(s.jobs[k].pc).value);
      }
      assert forall k :: 0 <= k < |t.jobs| && k != a.j ==> t.jobs[k] == s.jobs[k];
      forall u | Known(t, u) ensures pc.url == Some(u) {
        assert !Known(s, u);
      }
      forall k | 0 <= k < |t.jobs| ensures MoveOk(t, b, k) { assert MoveOk(s, b, k); }
    }
  }

  lemma LinkKeepsRoom(s: State, b: Booking, a: Act)
    requires Inv(s, b) && RoomInv(s, b) && Can(s, b, a) && a.Link? && Calm(s, a)
    ensures RoomInv(Take(s, b, a), b)
  {
    var t, link := Take(s, b, a), s.jobs[a.j].pc.link;
    assert MoveOk(s, b, a.j);
    WithUrlEach(s.w.refs, link);
    forall d ensures Written(t.w.refs, d) <==> Written(s.w.refs, d) {
      if k :| 0 <= k < |s.w.refs| && s.w.refs[k].dest == d && s.w.refs[k].event.Some? {
        assert t.w.refs[k].dest == d && t.w.refs[k].event.Some?;
      }
    }
    forall k | 0 <= k < |t.jobs| && InHand(t.jobs[k].pc).Some? ensures InHand(t.jobs[k].pc) == Some(link) {
      assert k != a.j ==> t.jobs[k] == s.jobs[k];
    }
    assert forall u :: Known(t, u) ==> u == link;
    forall k, d | HoldsClaim(t, b, k, d) ensures !Written(t.w.refs, d) { assert HoldsClaim(s, b, k, d); }
    forall k | 0 <= k < |t.jobs| ensures MoveOk(t, b, k) { assert MoveOk(s, b, k); }
  }

  lemma StepKeepsRoom(s: State, b: Booking, a: Act)
    requires Inv(s, b) && RoomInv(s, b) && Can(s, b, a) && Calm(s, a)
    ensures RoomInv(Take(s, b, a), b)
  {
    match a
    case Begin(_, _) => BeginKeepsRoom(s, b, a);
    case Claim(_, _, _) => ClaimKeepsRoom(s, b, a);
    case Release(_) => ReleaseKeepsRoom(s, b, a);
    case Record(_) => RecordKeepsRoom(s, b, a);
    case Link(_) => LinkKeepsRoom(s, b, a);
    case _ => RestKeepsRoom(s, b, a);
  }

  lemma {:induction false} RunKeepsRoom(s: State, b: Booking, run: seq<Act>, t: State)
    requires Inv(s, b) && RoomInv(s, b) && CalmRuns(s, b, run, t)
    ensures Inv(t, b) && RoomInv(t, b)
    decreases |run|
  {
    if run != [] {
      StepKeepsInv(s, b, run[0]);
      StepKeepsRoom(s, b, run[0]);
      RunKeepsRoom(Take(s, b, run[0]), b, run[1..], t);
    }
  }

  /**
   However the jobs overlap, every stored link is the same link, unless a move
   stores a new one while a create has another in hand.
   */
  lemma OneRoomUnlessCrossed(b: Booking, run: seq<Act>, t: State)
    requires CalmRuns(EMPTY, b, run, t)
    ensures OneRoom(t.w.refs)
  {
    RunKeepsRoom(EMPTY, b, run, t);
    forall i, j | 0 <= i < |t.w.refs| && 0 <= j < |t.w.refs| && t.w.refs[i].url.Some? && t.w.refs[j].url.Some?
      ensures t.w.refs[i].url == t.w.refs[j].url
    {
      assert Known(t, t.w.refs[i].url.value) && Known(t, t.w.refs[j].url.value);
    }
  }

  // ------------------------------------------------------- reachability

  ghost predicate Reaches(s: State, b: Booking, t: State) { exists run :: Runs(s, b, run, t) }

  lemma {:induction false} RunsThen(s: State, b: Booking, run: seq<Act>, m: State, a: Act, t: State)
    requires Runs(s, b, run, m) && Can(m, b, a) && Take(m, b, a) == t
    ensures Runs(s, b, run + [a], t)
    decreases |run|
  {
    if run == [] {
      assert run + [a] == [a] && [a][1..] == [];
      assert Runs(t, b, [], t);
    } else {
      RunsThen(Take(s, b, run[0]), b, run[1..], m, a, t);
      assert (run + [a])[1..] == run[1..] + [a];
    }
  }

  lemma Then(s: State, b: Booking, m: State, a: Act, t: State)
    requires Reaches(s, b, m) && Can(m, b, a) && Take(m, b, a) == t
    ensures Reaches(s, b, t)
  {
    hide Can, Take;
    var run :| Runs(s, b, run, m);
    RunsThen(s, b, run, m, a, t);
  }

  lemma Starts(s: State, b: Booking)
    ensures Reaches(s, b, s)
  {
    assert Runs(s, b, [], s);
  }

  /** The organizer's row keeps the link a move stored, the co-host's gets the room a create had in hand. */
  lemma LinkedThenFilled(s: State, b: Booking, j: nat, k: nat, event: nat)
    requires Inv(s, b) && RoomInv(s, b) && j < |s.jobs| && k < |s.jobs| && s.jobs[j].pc.Linking?
    requires s.jobs[k].pc.Holding? && s.jobs[k].pc.room.Some? && s.jobs[k].pc.room.value != s.jobs[j].pc.link
    ensures s.jobs[k].pc.i < |b.dests|
    ensures !OneRoom(Filled(WithUrl(s.w.refs, s.jobs[j].pc.link), b.dests[s.jobs[k].pc.i], event, s.jobs[k].pc.room))
  {
    var link, pc, refs := s.jobs[j].pc.link, s.jobs[k].pc, s.w.refs;
    assert JobOk(s, b, k) && MoveOk(s, b, j);
    var dest := b.dests[pc.i];
    assert HoldsClaim(s, b, k, dest);
    var o :| 0 <= o < |refs| && refs[o].dest == b.dests[0] && refs[o].event.Some?;
    var c :| 0 <= c < |refs| && refs[c].dest == dest;
    assert refs[o].dest != dest;
    WithUrlEach(refs, link);
    var rows := Filled(WithUrl(refs, link), dest, event, pc.room);
    assert rows[o].url == Some(link) && rows[c].url == pc.room;
  }

  /**
   And that is needed: let a move be about to store a link while a create holds
   a co-host's claim with another room in hand. Once the link is stored, the
   create lands and records, two rooms are stored.
   */
  lemma CrossedSplitsTheRoom(s: State, b: Booking, j: nat, k: nat, event: nat, url: Option<Url>) returns (t: State)
    requires Inv(s, b) && RoomInv(s, b) && j < |s.jobs| && k < |s.jobs| && s.jobs[j].pc.Linking?
    requires s.jobs[k].pc.Holding? && s.jobs[k].pc.i > 0
    requires s.jobs[k].pc.room.Some? && s.jobs[k].pc.room.value != s.jobs[j].pc.link
    ensures Runs(s, b, [Link(j), Land(k, event, url), Record(k)], t) && !OneRoom(t.w.refs)
  {
    hide Inv, RoomInv, OneRoom, Runs, WithUrl, Filled, Without, Begun;
    LinkedThenFilled(s, b, j, k, event);
    var link, pc := s.jobs[j].pc.link, s.jobs[k].pc;
    var linked := Moved(s, j, s.w.(refs := WithUrl(s.w.refs, link)), Over);
    var call := CreateCall(b, s.jobs[k], true);
    var landed := Moved(linked, k, linked.w.(calls := s.w.calls + [call]), Created(pc.i, pc.room, event, url));
    t := Moved(landed, k, landed.w.(refs := Filled(linked.w.refs, b.dests[pc.i], event, pc.room)),
               Next(pc.i + 1, pc.room));
    assert Take(s, b, Link(j)) == linked && Take(linked, b, Land(k, event, url)) == landed
      && Take(landed, b, Record(k)) == t;
    ThreeSteps(s, b, Link(j), Land(k, event, url), Record(k));
  }

  lemma ThreeSteps(s: State, b: Booking, x: Act, y: Act, z: Act)
    requires Can(s, b, x) && Can(Take(s, b, x), b, y) && Can(Take(Take(s, b, x), b, y), b, z)
    ensures Runs(s, b, [x, y, z], Take(Take(Take(s, b, x), b, y), b, z))
  {
    hide Can, Take;
    var m := Take(s, b, x);
    var n := Take(m, b, y);
    var t := Take(n, b, z);
    assert [x, y, z][1..] == [y, z] && [y, z][1..] == [z] && [z][1..] == [];
    assert Runs(t, b, [], t);
    assert Runs(n, b, [z], t);
    assert Runs(m, b, [y, z], t);
  }

  // How it comes about, for a booking with an organizer and one co-host.

  const BOTH := Booking(["a", "b"], {"a"}, true)
  const CREATING := Job(false, Some("a"), Next(0, None))
  const CREATED := Create("a", true, false, true, None, true)
  const MOVING := Job(false, None, Moving(["a"], None))

  /** The organizer's event recorded with its room, the co-host claimed. */
  function Rows(event: nat, url: Url): seq<Ref> { [Ref("a", Some(event), Some(url)), Ref("b", None, None)] }

  function Crossed(first: Url, second: Url, event: nat): State {
    State(World(Rows(event, first), [CREATED, Update("a", false, false)]),
          [CREATING.(pc := Holding(1, Some(first))), MOVING.(pc := Linking(second))])
  }

  lemma CreateBegins()
    ensures Reaches(EMPTY, BOTH, State(World([], []), [CREATING]))
  {
    assert Inviting(BOTH, BOTH.dests) == Some("a") by { assert FirstIn(BOTH.dests, BOTH.organizerRefs) == Some("a"); }
    Starts(EMPTY, BOTH);
    Then(EMPTY, BOTH, EMPTY, Begin(false, true), State(World([], []), [CREATING]));
  }

  lemma OrganizerRecorded(first: Url, event: nat)
    ensures Reaches(EMPTY, BOTH, State(World([Ref("a", Some(event), Some(first))], [CREATED]),
                                       [CREATING.(pc := Next(1, Some(first)))]))
  {
    CreateBegins();
    hide Reaches, Inviting, Begun, Movable, Ordered, Without, FirstUrl, WithUrl, Filled;
    var begun := State(World([], []), [CREATING]);
    var claimed := State(World([Ref("a", None, None)], []), [CREATING.(pc := Holding(0, None))]);
    assert [] + [Ref("a", None, None)] == claimed.w.refs && [] + [CREATED] == [CREATED];
    Then(EMPTY, BOTH, begun, Claim(0, false, false), claimed);
    var landed := State(World(claimed.w.refs, [CREATED]), [CREATING.(pc := Created(0, None, event, Some(first)))]);
    Then(EMPTY, BOTH, claimed, Land(0, event, Some(first)), landed);
    var row := Ref("a", Some(event), Some(first));
    assert Filled(landed.w.refs, "a", event, Some(first)) == [row];
    Then(EMPTY, BOTH, landed, Record(0), State(World([row], [CREATED]), [CREATING.(pc := Next(1, Some(first)))]));
  }

  lemma MoveBegins(first: Url, event: nat)
    ensures Begun(World(Rows(event, first), [CREATED]), BOTH, true, false) == MOVING
  {
    var row, claim := Ref("a", Some(event), Some(first)), Ref("b", None, None);
    assert [row, claim][1..] == [claim] && [claim][1..] == [] && [row][1..] == [];
    assert Movable([claim]) == Movable([]);
    assert Movable([row, claim]) == [row];
    assert With([], Some("a"), false) == [] && With([row], Some("a"), false) == With([row][1..], Some("a"), false);
    assert With([row], Some("a"), true) == [row];
    assert Ordered([row, claim], BOTH) == [row];
    assert Dests([row]) == ["a"];
    assert FirstUrl([row, claim]) == Some(first);
  }

  /**
   A create is between a co-host's claim and its event when a move begins, is
   given a new link, and is about to store it.
   */
  lemma CrossedIsReached(first: Url, second: Url, event: nat)
    ensures Reaches(EMPTY, BOTH, Crossed(first, second, event))
  {
    OrganizerRecorded(first, event);
    MoveBegins(first, event);
    hide Reaches, Inviting, Begun, Movable, Ordered, Without, FirstUrl, WithUrl, Filled;
    var recorded := State(World([Ref("a", Some(event), Some(first))], [CREATED]),
                          [CREATING.(pc := Next(1, Some(first)))]);
    var creating := CREATING.(pc := Holding(1, Some(first)));
    var claimed := State(World(Rows(event, first), [CREATED]), [creating]);
    assert recorded.w.refs + [Ref("b", None, None)] == Rows(event, first);
    Then(EMPTY, BOTH, recorded, Claim(0, false, false), claimed);
    var begun := claimed.(jobs := [creating, MOVING]);
    assert [creating] + [MOVING] == begun.jobs;
    Then(EMPTY, BOTH, claimed, Begin(true, false), begun);
    assert [CREATED] + [Update("a", false, false)] == Crossed(first, second, event).w.calls;
    Then(EMPTY, BOTH, begun, Move(1, Updates(Some(second))), Crossed(first, second, event));
  }

  lemma CrossedIsSound(first: Url, second: Url, event: nat)
    ensures RoomInv(Crossed(first, second, event), BOTH)
  {
    var s := Crossed(first, second, event);
    assert s.w.refs[0].dest == "a" && Written(s.w.refs, "a");
    forall u | Known(s, u) ensures u == first {
    }
  }

  /** It happens: two rooms are stored for one booking. */
  lemma MoveOvertakesCreate(first: Url, second: Url, event: nat, other: nat) returns (run: seq<Act>, t: State)
    requires first != second
    ensures Runs(EMPTY, BOTH, run + [Link(1), Land(0, other, None), Record(0)], t) && !OneRoom(t.w.refs)
  {
    CrossedIsReached(first, second, event);
    var crossed := Crossed(first, second, event);
    run :| Runs(EMPTY, BOTH, run, crossed);
    RunKeepsInv(EMPTY, BOTH, run, crossed);
    CrossedIsSound(first, second, event);
    t := CrossedSplitsTheRoom(crossed, BOTH, 1, 0, other, None);
    RunsOn(EMPTY, BOTH, run, crossed, [Link(1), Land(0, other, None), Record(0)], t);
  }

  lemma {:induction false} RunsOn(s: State, b: Booking, run: seq<Act>, m: State, more: seq<Act>, t: State)
    requires Runs(s, b, run, m) && Runs(m, b, more, t)
    ensures Runs(s, b, run + more, t)
    decreases |run|
  {
    if run == [] {
      assert run + more == more;
    } else {
      RunsOn(Take(s, b, run[0]), b, run[1..], m, more, t);
      assert (run + more)[1..] == run[1..] + more;
    }
  }

  // ------------------------------------- a job alone is one of these runs

  lemma {:induction false} ClaimUndone(refs: seq<Ref>, dest: Dest)
    requires !Claimed(refs, dest)
    ensures Without(refs + [Ref(dest, None, None)], dest) == refs
  {
    var all := refs + [Ref(dest, None, None)];
    if refs == [] {
      assert all[1..] == [];
    } else {
      assert all[1..] == refs[1..] + [Ref(dest, None, None)];
      assert refs[0].dest != dest && forall k :: 0 <= k < |refs[1..]| ==> refs[1..][k] == refs[k + 1];
      ClaimUndone(refs[1..], dest);
      assert [refs[0]] + refs[1..] == refs;
    }
  }

  /** What a job's own step makes of the state. */
  function Moved(s: State, j: nat, w: World, pc: Pc): State
    requires j < |s.jobs|
  {
    State(w, s.jobs[j := s.jobs[j].(pc := pc)])
  }

  /**
   A create that is given up after its claim: its worker dies there, or it
   throws, and its claim is given up or not.
   */
  lemma GivesUp(o: State, s: State, b: Booking, j: nat, i: nat, room: Option<Url>, fate: Fate) returns (t: State)
    requires Reaches(o, b, s) && j < |s.jobs| && i < |b.dests| && s.jobs[j].pc == Next(i, room)
    requires !Claimed(s.w.refs, b.dests[i]) && !fate.Lands? && !fate.ClaimFails? && !fate.DiesBeforeClaim?
    ensures Reaches(o, b, t) && |t.jobs| == |s.jobs|
    ensures var dest := b.dests[i];
      var call := Create(dest, GetsThere(fate), Releases(fate), b.wantsLink && i == 0, room,
                         s.jobs[j].inviting == Some(dest));
      t.w == World(if Releases(fate) then s.w.refs else s.w.refs + [Ref(dest, None, None)],
                   if fate.DiesAfterClaim? then s.w.calls else s.w.calls + [call])
  {
    hide Reaches, Without, WithUrl, Filled, Begun;
    var dest := b.dests[i];
    var claims := s.w.refs + [Ref(dest, None, None)];
    t := Moved(s, j, World(claims, s.w.calls), Holding(i, room));
    Then(o, b, s, Claim(j, false, false), t);
    if !fate.DiesAfterClaim? {
      t := Called(o, t, b, j, i, room, fate);
      if Releases(fate) {
        var n := |s.w.calls|;
        var released := Moved(t, j, World(s.w.refs, t.w.calls[n := t.w.calls[n].(released := true)]), Over);
        ClaimUndone(s.w.refs, dest);
        Then(o, b, t, Release(j), released);
        t := released;
      }
    }
  }

  /** The call of a create, whether it lands or throws. */
  lemma Called(o: State, s: State, b: Booking, j: nat, i: nat, room: Option<Url>, fate: Fate) returns (t: State)
    requires Reaches(o, b, s) && j < |s.jobs| && i < |b.dests| && s.jobs[j].pc == Holding(i, room)
    requires Throws(fate) || fate.LandsUnrecorded?
    ensures Reaches(o, b, t)
    ensures var call := CreateCall(b, s.jobs[j], GetsThere(fate));
      t == Moved(s, j, World(s.w.refs, s.w.calls + [call]),
                 if Throws(fate) then Thrown(i, |s.w.calls|) else Created(i, room, 0, None))
  {
    hide Reaches, Without, WithUrl, Filled, Begun;
    var call := CreateCall(b, s.jobs[j], GetsThere(fate));
    t := Moved(s, j, World(s.w.refs, s.w.calls + [call]),
               if Throws(fate) then Thrown(i, |s.w.calls|) else Created(i, room, 0, None));
    Then(o, b, s, if Throws(fate) then Throw(j, GetsThere(fate)) else Land(j, 0, None), t);
  }

  /** A destination passed by. */
  lemma PassesBy(o: State, s: State, b: Booking, j: nat, i: nat, room: Option<Url>, fate: Fate) returns (t: State)
    requires Reaches(o, b, s) && j < |s.jobs| && i < |b.dests| && s.jobs[j].pc == Next(i, room)
    requires Skips(s.w.refs, b.dests[i], fate)
    ensures Reaches(o, b, t)
    ensures var tried := Tried(s.w.refs, b.dests[i], fate);
      t == Moved(s, j, s.w.(refs := tried),
                 Next(i + 1, if i == 0 && b.wantsLink then Adopted(tried, b.dests[0]) else room))
  {
    hide Reaches, Without, WithUrl, Filled, Begun, Adopted;
    var tried := Tried(s.w.refs, b.dests[i], fate);
    var claim := Claim(j, fate.ClaimFails?, fate.ClaimFails? && fate.kept);
    t := Moved(s, j, s.w.(refs := tried),
               Next(i + 1, if i == 0 && b.wantsLink then Adopted(tried, b.dests[0]) else room));
    if i == 0 && b.wantsLink {
      var adopting := Moved(s, j, s.w.(refs := tried), Adopting(0));
      Then(o, b, s, claim, adopting);
      Then(o, b, adopting, Adopt(j), t);
    } else {
      Then(o, b, s, claim, t);
    }
  }

  /** A create that lands, and is recorded. */
  lemma LandsAndRecords(o: State, s: State, b: Booking, j: nat, i: nat, room: Option<Url>, event: nat,
                        url: Option<Url>) returns (t: State)
    requires Reaches(o, b, s) && j < |s.jobs| && i < |b.dests| && s.jobs[j].pc == Next(i, room)
    requires !Claimed(s.w.refs, b.dests[i])
    ensures Reaches(o, b, t)
    ensures var dest := b.dests[i];
      var call := Create(dest, true, false, b.wantsLink && i == 0, room, s.jobs[j].inviting == Some(dest));
      t == Moved(s, j, World(s.w.refs + [Ref(dest, Some(event), if i == 0 then url else room)], s.w.calls + [call]),
                 Next(i + 1, if i == 0 && b.wantsLink then url else room))
  {
    var dest, stored := b.dests[i], if i == 0 then url else room;
    var claims, filled := s.w.refs + [Ref(dest, None, None)], s.w.refs + [Ref(dest, Some(event), stored)];
    assert Filled(claims, dest, event, stored) == filled;
    hide Reaches, Without, WithUrl, Filled, Begun;
    var call := Create(dest, true, false, b.wantsLink && i == 0, room, s.jobs[j].inviting == Some(dest));
    var claimed := Moved(s, j, World(claims, s.w.calls), Holding(i, room));
    var landed := Moved(s, j, World(claims, s.w.calls + [call]), Created(i, room, event, url));
    t := Moved(s, j, World(filled, s.w.calls + [call]), Next(i + 1, if i == 0 && b.wantsLink then url else room));
    Then(o, b, s, Claim(j, false, false), claimed);
    Then(o, b, claimed, Land(j, event, url), landed);
    Then(o, b, landed, Record(j), t);
  }

  /** A create job as `WriteOut` runs it alone is a run of its own steps. */
  lemma {:induction false} WriteIsARun(o: State, s: State, b: Booking, j: nat, invites: bool, fates: seq<Fate>, i: nat,
                                       room: Option<Url>) returns (t: State)
    requires Reaches(o, b, s) && |fates| == |b.dests| && i <= |b.dests| && j < |s.jobs| && s.jobs[j].pc == Next(i, room)
    requires s.jobs[j].inviting == if invites then Inviting(b, b.dests) else None
    ensures Reaches(o, b, t) && t.w == WriteFrom(s.w, b, invites, fates, i, room).0 && |t.jobs| == |s.jobs|
    decreases |b.dests| - i
  {
    hide Reaches, Inviting, Claimed, Adopted;
    if i == |b.dests| || fates[i] == DiesBeforeClaim {
      t := s;
    } else if Skips(s.w.refs, b.dests[i], fates[i]) {
      t := PassesBy(o, s, b, j, i, room, fates[i]);
      t := WriteIsARun(o, t, b, j, invites, fates, i + 1, t.jobs[j].pc.room);
    } else if fates[i].Lands? {
      t := LandsAndRecords(o, s, b, j, i, room, fates[i].event, fates[i].url);
      t := WriteIsARun(o, t, b, j, invites, fates, i + 1, t.jobs[j].pc.room);
    } else {
      t := GivesUp(o, s, b, j, i, room, fates[i]);
    }
  }

  /** Where a move is once event `i` has moved. */
  function PcMoved(b: Booking, ordered: seq<Ref>, i: nat, fate: MoveFate, minted: Option<Url>): Pc
    requires i < |ordered|
  {
    if fate == UpdateFails then Over
    else if i + 1 < |ordered| then Moving(Dests(ordered[i + 1..]), minted)
    else if minted.Some? then Linking(minted.value)
    else Over
  }

  lemma OneMove(s: State, b: Booking, j: nat, ordered: seq<Ref>, i: nat, fate: MoveFate, room: Option<Url>)
    requires i < |ordered| && j < |s.jobs| && s.jobs[j].pc == Moving(Dests(ordered[i..]), room)
    ensures Can(s, b, Move(j, fate))
    ensures var dest := ordered[i].dest;
      var call := Update(dest, s.jobs[j].asks && Some(dest) == Organizer(b), s.jobs[j].inviting == Some(dest));
      var minted := if fate.Updates? && Some(dest) == Organizer(b) then fate.url else room;
      Take(s, b, Move(j, fate)) ==
        Moved(s, j, World(s.w.refs, s.w.calls + [call]), PcMoved(b, ordered, i, fate, minted))
  {
    hide Inviting, Begun, Without, WithUrl, Filled, Adopted;
    assert ordered[i..][1..] == ordered[i + 1..];
    assert Dests(ordered[i..]) == [ordered[i].dest] + Dests(ordered[i + 1..]);
    assert i + 1 < |ordered| <==> Dests(ordered[i + 1..]) != [];
  }

  /** A move as `WriteOut` runs it alone, up to its last update, is a run of its own steps. */
  lemma {:induction false} MoveIsARun(o: State, s: State, b: Booking, j: nat, ordered: seq<Ref>, stored: Option<Url>,
                                      invites: bool, fates: seq<MoveFate>, i: nat, room: Option<Url>) returns (t: State)
    requires Reaches(o, b, s) && |fates| == |ordered| && i < |ordered| && j < |s.jobs|
    requires s.jobs[j].pc == Moving(Dests(ordered[i..]), room) && s.jobs[j].asks == (b.wantsLink && stored.None?)
    requires s.jobs[j].inviting == if invites then Inviting(b, Dests(ordered)) else None
    ensures Reaches(o, b, t) && |t.jobs| == |s.jobs|
    ensures var (calls, done, minted) := MoveFrom(s.w.calls, b, ordered, stored, invites, fates, i, room);
      && t.w == World(s.w.refs, calls)
      && (done && minted.Some? ==> t.jobs[j].pc == Linking(minted.value))
    decreases |ordered| - i
  {
    hide Reaches, Inviting, Can, Take;
    var dest, fate := ordered[i].dest, fates[i];
    OneMove(s, b, j, ordered, i, fate, room);
    var call := Update(dest, b.wantsLink && Some(dest) == Organizer(b) && stored.None?,
                       invites && Inviting(b, Dests(ordered)) == Some(dest));
    var minted := if fate.Updates? && Some(dest) == Organizer(b) then fate.url else room;
    t := Moved(s, j, World(s.w.refs, s.w.calls + [call]), PcMoved(b, ordered, i, fate, minted));
    Then(o, b, s, Move(j, fate), t);
    if fate.Updates? && i + 1 < |ordered| {
      t := MoveIsARun(o, t, b, j, ordered, stored, invites, fates, i + 1, minted);
    }
  }

  lemma OrderedIsEmpty(refs: seq<Ref>, b: Booking)
    ensures Ordered(refs, b) == [] ==> Movable(refs) == []
  {
    if Movable(refs) != [] {
      var ref := Movable(refs)[0];
      WithKeeps(Movable(refs), Organizer(b), true, ref);
      WithKeeps(Movable(refs), Organizer(b), false, ref);
      assert ref in Ordered(refs, b);
    }
  }

  lemma JobIsARun(o: State, s: State, b: Booking, job: WriteOut.Job) returns (t: State)
    requires Reaches(o, b, s) && Fits(s.w, b, job)
    ensures Reaches(o, b, t) && t.w == RunJob(s.w, b, job).0
  {
    hide Reaches, WithUrl, Ordered, Movable, WriteFrom, MoveFrom, FirstUrl, Inviting;
    var j := |s.jobs|;
    t := s.(jobs := s.jobs + [Begun(s.w, b, job.MoveJob?, job.invites)]);
    Then(o, b, s, Begin(job.MoveJob?, job.invites), t);
    if job.CreateJob? || Movable(s.w.refs) == [] {
      t := WriteIsARun(o, t, b, j, job.invites, job.fates, 0, None);
    } else {
      var ordered, stored := Ordered(s.w.refs, b), FirstUrl(s.w.refs);
      OrderedIsEmpty(s.w.refs, b);
      assert ordered[0..] == ordered;
      t := MoveIsARun(o, t, b, j, ordered, stored, job.invites, job.moves, 0, None);
      var (calls, done, minted) := MoveFrom(s.w.calls, b, ordered, stored, job.invites, job.moves, 0, None);
      if done && minted.Some? && job.records {
        var linked := Moved(t, j, t.w.(refs := WithUrl(t.w.refs, minted.value)), Over);
        Then(o, b, t, Link(j), linked);
        t := linked;
      }
    }
  }

  /** Jobs one after the other are one way for them to overlap: what holds of every run here holds of theirs. */
  lemma {:induction false} JobsAreARun(o: State, s: State, b: Booking, jobs: seq<WriteOut.Job>, w: World)
    returns (t: State)
    requires Reaches(o, b, s) && RunsJobs(s.w, b, jobs, w)
    ensures Reaches(o, b, t) && t.w == w
    decreases |jobs|
  {
    hide Reaches, RunJob;
    t := s;
    if jobs != [] {
      t := JobIsARun(o, s, b, jobs[0]);
      t := JobsAreARun(o, t, b, jobs[1..], w);
    }
  }
}
