/**
 The .ics SEQUENCE of one meeting's emails, under concurrency.

 A meeting is a chain of bookings: a move either changes its booking in place or
 cancels it for a new one that takes over. Each change commits, then its email
 claims the meeting's next number, counted on the first booking, then reads the
 booking it is about, then is queued, looked at again and sent: separate steps,
 interleaved with those of every other change of the meeting, each of which may
 also fail.
 */
module IcsSequence {

  datatype Option<+T> = None | Some(value: T)

  datatype Kind = Confirmation | Reschedule | Cancellation | PendingRequest | Declined

  /** What a commit does: changes its booking, cancels it for a new one, or ends it. */
  datatype Effect = Change | Supersede | End

  /** One booking of the chain. `version`: which commit made it what it is. */
  datatype Booking = Booking(version: nat, live: bool)

  datatype Stage = Requested | Committed | Numbered | Loaded | Queued | Checked | Sent | Failed

  /**
   One change, and its email. `row`: the booking it is about, the new one for a
   change that superseded. `version`: the commit it made, 0 before. `read`: the
   version its email was built from; `asOf` and `superseded` only record how many
   commits there were by then, and whether its booking had been taken over.
   */
  datatype Email = Email(kind: Kind, effect: Effect, row: nat, stage: Stage, version: nat,
                         number: Option<nat>, read: Option<nat>, asOf: nat, superseded: bool)

  /** `commits` so far; the last booking of the chain is the one in force. */
  datatype State = State(rows: seq<Booking>, commits: nat, counter: nat, emails: seq<Email>)

  /** A first confirmation keeps the fixed 0; one inside a chain is counted. Requests and declines never are. */
  predicate Counted(e: Email) {
    e.kind == Reschedule || e.kind == Cancellation || (e.kind == Confirmation && e.row > 0)
  }

  /** Mails about a booking that must still be on when they go out. */
  predicate LiveKind(kind: Kind) { kind == Confirmation || kind == Reschedule }

  /** Which change a kind of email is about. */
  predicate Goes(kind: Kind, effect: Effect) {
    match kind
    case Confirmation => effect == Change
    case Reschedule => effect == Change || effect == Supersede
    case PendingRequest => effect == Change || effect == Supersede
    case Cancellation => effect == End
    case Declined => effect == End
  }

  /** The highest SEQUENCE an email carried before changes were counted. */
  const LEGACY_CEILING: nat := 2

  function Sequence(e: Email): nat
    requires e.number.Some?
  {
    LEGACY_CEILING + e.number.value
  }

  /** The fixed SEQUENCE of a kind of email that has an .ics. */
  function Fixed(kind: Kind): Option<nat> {
    match kind
    case Confirmation => Some(0)
    case Reschedule => Some(1)
    case Cancellation => Some(2)
    case _ => None
  }

  /** The SEQUENCE the email's .ics carries, when it has one: the number claimed for it, else its kind's fixed one. */
  function Carried(e: Email): Option<nat> {
    if Fixed(e.kind).Some? && e.number.Some? then Some(Sequence(e)) else Fixed(e.kind)
  }

  datatype Step =
    | Begin(kind: Kind, effect: Effect, row: nat)
    | Commit(i: nat)
    | Claim(i: nat)
    | Load(i: nat)
    | Queue(i: nat)
    | Check(i: nat)
    | Accept(i: nat)
    | PutOff(i: nat)
    | Fail(i: nat)

  /** The booking a change is about exists and is still on. */
  predicate OnNow(s: State, row: nat) { row < |s.rows| && s.rows[row].live }

  predicate Can(s: State, a: Step) {
    match a
    case Begin(kind, effect, row) => Goes(kind, effect) && row < |s.rows|
    case _ =>
      a.i < |s.emails| &&
      var e := s.emails[a.i];
      match a
      case Commit(_) => e.stage == Requested && OnNow(s, e.row)
      case Claim(_) => e.stage == Committed
      case Load(_) => e.stage == Numbered && e.row < |s.rows|
      case Queue(_) => e.stage == Loaded
      case Check(_) => e.stage == Queued && (LiveKind(e.kind) ==> OnNow(s, e.row))
      case Accept(_) => e.stage == Checked
      case PutOff(_) => e.stage == Checked
      case _ => e.stage != Sent
  }

  /** The chain once a change on booking `row` has committed. */
  function RowsAfter(s: State, row: nat, effect: Effect): seq<Booking>
    requires row < |s.rows|
  {
    match effect
    case Change => s.rows[row := Booking(s.commits + 1, true)]
    case End => s.rows[row := Booking(s.commits + 1, false)]
    case Supersede => s.rows[row := s.rows[row].(live := false)] + [Booking(s.commits + 1, true)]
  }

  function EmailAfter(s: State, a: Step): Email
    requires Can(s, a) && !a.Begin?
  {
    var e := s.emails[a.i];
    match a
    case Commit(_) => e.(stage := Committed, version := s.commits + 1,
                         row := if e.effect == Supersede then |s.rows| else e.row)
    case Claim(_) => e.(stage := Numbered, number := if Counted(e) then Some(s.counter + 1) else None)
    case Load(_) => e.(stage := Loaded, read := Some(s.rows[e.row].version), asOf := s.commits,
                       superseded := e.row + 1 < |s.rows|)
    case Queue(_) => e.(stage := Queued)
    case Check(_) => e.(stage := Checked)
    case Accept(_) => e.(stage := Sent)
    case PutOff(_) => e.(stage := Queued)
    case _ => e.(stage := Failed)
  }

  function Take(s: State, a: Step): State
    requires Can(s, a)
  {
    match a
    case Begin(kind, effect, row) =>
      s.(emails := s.emails + [Email(kind, effect, row, Requested, 0, None, None, 0, false)])
    case Commit(i) =>
      State(RowsAfter(s, s.emails[i].row, s.emails[i].effect), s.commits + 1, s.counter,
            s.emails[i := EmailAfter(s, a)])
    case Claim(i) =>
      s.(counter := if Counted(s.emails[i]) then s.counter + 1 else s.counter,
         emails := s.emails[i := EmailAfter(s, a)])
    case _ => s.(emails := s.emails[a.i := EmailAfter(s, a)])
  }

  predicate Runs(s: State, run: seq<Step>, t: State)
    decreases |run|
  {
    if run == [] then t == s else Can(s, run[0]) && Runs(Take(s, run[0]), run[1..], t)
  }

  /** A meeting as it was booked: one booking, nothing counted. */
  const START := State([Booking(0, true)], 0, 0, [])

  // --------------------------------------------------------- the invariant

  /** Later bookings of the chain are newer, the last is as new as the last commit, and only it may be on. */
  ghost predicate ChainOk(rows: seq<Booking>, commits: nat) {
    && rows != [] && rows[|rows| - 1].version == commits
    && (forall i, j :: 0 <= i < j < |rows| ==> rows[i].version < rows[j].version && !rows[i].live)
  }

  /** `version` is newer than all the bookings that booking `row` took over from. */
  ghost predicate NewerThanEarlier(rows: seq<Booking>, row: nat, version: nat) {
    row < |rows| && version <= rows[row].version && forall r :: 0 <= r < row ==> rows[r].version < version
  }

  predicate HasRead(stage: Stage) { stage in {Loaded, Queued, Checked, Sent} }

  /** An email's account of its own change. */
  ghost predicate EmailOk(s: State, e: Email) {
    && e.row < |s.rows| && Goes(e.kind, e.effect)
    && (e.stage == Requested ==> e.version == 0)
    && (e.version > 0 ==> NewerThanEarlier(s.rows, e.row, e.version))
    && (e.version == 0 ==> e.number.None? && e.read.None? && e.stage in {Requested, Failed})
    && (e.number.Some? ==> 0 < e.number.value <= s.counter && Counted(e))
    && (e.stage == Committed ==> e.number.None?)
    && (e.stage in {Committed, Numbered} ==> e.read.None?)
    && ((e.stage == Numbered || HasRead(e.stage)) && Counted(e) ==> e.number.Some?)
    && (HasRead(e.stage) ==> e.read.Some?)
    && (e.read.Some? ==> NewerThanEarlier(s.rows, e.row, e.read.value))
    && (e.read.Some? ==> (e.read.value == e.asOf <==> !e.superseded))
    && (e.effect == End && e.version > 0 ==> e.row == |s.rows| - 1 && !s.rows[e.row].live && e.version == s.commits)
    && (e.effect == End && e.read.Some? ==> e.read.value == s.commits)
  }

  ghost predicate AllOk(s: State) {
    ChainOk(s.rows, s.commits) && forall i :: 0 <= i < |s.emails| ==> EmailOk(s, s.emails[i])
  }

  predicate Before(d: Email, e: Email) {
    d.number.Some? && e.number.Some? && d.number.value <= e.number.value
  }

  /** Whoever read a booking after claiming a number read what claims up to it had made of that booking. */
  ghost predicate Ordered(s: State) {
    forall i, j :: 0 <= i < |s.emails| && 0 <= j < |s.emails| && Before(s.emails[i], s.emails[j]) ==>
      && (s.emails[i].number == s.emails[j].number ==> i == j)
      && (s.emails[j].read.Some? && s.emails[i].row == s.emails[j].row ==>
          s.emails[i].version <= s.emails[j].read.value)
  }

  predicate GoesOut(e: Email) { e.stage in {Checked, Sent} && LiveKind(e.kind) }

  /** What goes out about a booking that must be on is about none that a change numbered before took over or ended. */
  ghost predicate OutInOrder(s: State) {
    forall i, j ::
      0 <= i < |s.emails| && 0 <= j < |s.emails| && Before(s.emails[i], s.emails[j]) && GoesOut(s.emails[j]) ==>
        s.emails[i].row <= s.emails[j].row && s.emails[i].effect != End
  }

  ghost predicate Inv(s: State) { AllOk(s) && Ordered(s) && OutInOrder(s) }

  lemma RowsStayOk(s: State, row: nat, effect: Effect)
    requires ChainOk(s.rows, s.commits) && OnNow(s, row)
    ensures ChainOk(RowsAfter(s, row, effect), s.commits + 1)
    ensures row == |s.rows| - 1
    ensures forall r: nat, version: nat ::
      r < |s.rows| && version <= s.commits && NewerThanEarlier(s.rows, r, version) ==>
        NewerThanEarlier(RowsAfter(s, row, effect), r, version)
    ensures NewerThanEarlier(RowsAfter(s, row, effect), if effect == Supersede then |s.rows| else row, s.commits + 1)
  {
    var rows := RowsAfter(s, row, effect);
    assert forall r :: 0 <= r < |s.rows| - 1 ==> !s.rows[r].live;
    forall r | 0 <= r < |s.rows| ensures s.rows[r].version <= s.commits && rows[r].version >= s.rows[r].version {
      assert r < |s.rows| - 1 ==> s.rows[r].version < s.rows[|s.rows| - 1].version;
    }
    assert forall r :: 0 <= r < |s.rows| - 1 ==> rows[r].version == s.rows[r].version;
  }

  lemma CommitKeepsOk(s: State, i: nat)
    requires AllOk(s) && Can(s, Commit(i))
    ensures AllOk(Take(s, Commit(i)))
  {
    var t, e := Take(s, Commit(i)), s.emails[i];
    RowsStayOk(s, e.row, e.effect);
    forall k | 0 <= k < |t.emails| ensures EmailOk(t, t.emails[k]) {
      assert EmailOk(s, s.emails[k]) && EmailOk(s, e);
      hide ChainOk, RowsAfter;
      if k != i {
        VersionsAreCommits(s, s.emails[k]);
        assert t.emails[k] == s.emails[k];
      }
    }
  }

  lemma VersionsAreCommits(s: State, e: Email)
    requires ChainOk(s.rows, s.commits) && EmailOk(s, e)
    ensures e.version <= s.commits && (e.read.Some? ==> e.read.value <= s.commits)
  {
    assert e.row < |s.rows| - 1 ==> s.rows[e.row].version < s.rows[|s.rows| - 1].version;
  }

  lemma BeginKeepsOk(s: State, a: Step)
    requires AllOk(s) && Can(s, a) && a.Begin?
    ensures AllOk(Take(s, a))
  {
    var t := Take(s, a);
    forall k | 0 <= k < |t.emails| ensures EmailOk(t, t.emails[k]) {
      if k < |s.emails| {
        assert EmailOk(s, s.emails[k]) && t.emails[k] == s.emails[k];
      }
    }
  }

  lemma StepKeepsOk(s: State, a: Step)
    requires AllOk(s) && Can(s, a)
    ensures AllOk(Take(s, a))
  {
    if a.Commit? {
      CommitKeepsOk(s, a.i);
    } else if a.Begin? {
      BeginKeepsOk(s, a);
    } else {
      var t := Take(s, a);
      assert EmailOk(s, s.emails[a.i]);
      EmailStaysOk(s, a);
      forall k | 0 <= k < |t.emails| ensures EmailOk(t, t.emails[k]) {
        if k != a.i {
          assert EmailOk(s, s.emails[k]) && t.emails[k] == s.emails[k];
        }
      }
    }
  }

  lemma EmailStaysOk(s: State, a: Step)
    requires Can(s, a) && !a.Begin? && !a.Commit? && EmailOk(s, s.emails[a.i]) && ChainOk(s.rows, s.commits)
    ensures EmailOk(Take(s, a), Take(s, a).emails[a.i])
  {
    VersionsAreCommits(s, s.emails[a.i]);
  }

  lemma StepKeepsOrdered(s: State, a: Step)
    requires Inv(s) && Can(s, a)
    ensures Ordered(Take(s, a)) && OutInOrder(Take(s, a))
  {
    var t := Take(s, a);
    forall i, j | 0 <= i < |t.emails| && 0 <= j < |t.emails| && Before(t.emails[i], t.emails[j])
      ensures t.emails[i].number == t.emails[j].number ==> i == j
      ensures t.emails[j].read.Some? && t.emails[i].row == t.emails[j].row ==>
        t.emails[i].version <= t.emails[j].read.value
      ensures GoesOut(t.emails[j]) ==> t.emails[i].row <= t.emails[j].row && t.emails[i].effect != End
    {
      if i < |s.emails| && j < |s.emails| {
        PairStays(s, a, i, j);
      }
    }
  }

  /** Of the pair `d`, `e`: no two numbers are equal, and the later one read and goes out accordingly. */
  predicate InOrder(d: Email, e: Email, same: bool) {
    Before(d, e) ==>
      && (d.number == e.number ==> same)
      && (e.read.Some? && d.row == e.row ==> d.version <= e.read.value)
      && (GoesOut(e) ==> d.row <= e.row && d.effect != End)
  }

  lemma PairReads(s: State, a: Step, i: nat, j: nat)
    requires AllOk(s) && Can(s, a) && i < |s.emails| && j < |s.emails| && (a.Load? || a.Check? || a.Claim?)
    requires InOrder(s.emails[i], s.emails[j], i == j)
    ensures InOrder(Take(s, a).emails[i], Take(s, a).emails[j], i == j)
  {
    assert EmailOk(s, s.emails[i]) && EmailOk(s, s.emails[j]);
  }

  lemma PairMovesOn(s: State, a: Step, i: nat, j: nat)
    requires AllOk(s) && Can(s, a) && i < |s.emails| && j < |s.emails| && !(a.Load? || a.Check? || a.Claim?)
    requires InOrder(s.emails[i], s.emails[j], i == j)
    ensures InOrder(Take(s, a).emails[i], Take(s, a).emails[j], i == j)
  {
    assert EmailOk(s, s.emails[i]) && EmailOk(s, s.emails[j]);
  }

  lemma PairStays(s: State, a: Step, i: nat, j: nat)
    requires AllOk(s) && Can(s, a) && i < |s.emails| && j < |s.emails|
    requires InOrder(s.emails[i], s.emails[j], i == j)
    ensures InOrder(Take(s, a).emails[i], Take(s, a).emails[j], i == j)
  {
    if a.Load? || a.Check? || a.Claim? { PairReads(s, a, i, j); } else { PairMovesOn(s, a, i, j); }
  }

  lemma {:induction false} RunKeepsInv(s: State, run: seq<Step>, t: State)
    requires Inv(s) && Runs(s, run, t)
    ensures Inv(t)
    decreases |run|
  {
    if run != [] {
      StepKeepsOk(s, run[0]);
      StepKeepsOrdered(s, run[0]);
      RunKeepsInv(Take(s, run[0]), run[1..], t);
    }
  }

  // ------------------------------------------------------------ the results

  /** The email shows what the change made of the meeting, or something newer. */
  predicate AsNewAs(e: Email, d: Email) { e.read.Some? && d.version <= e.read.value }

  /**
   A queued email is as new as a change with its number or a lower one exactly
   when that change was not to a booking that took over from the email's own.
   */
  lemma QueuedIsNewerExactly(run: seq<Step>, t: State, d: nat, e: nat)
    requires Runs(START, run, t) && d < |t.emails| && e < |t.emails|
    requires t.emails[e].read.Some? && t.emails[d].number.Some? && t.emails[e].number.Some?
    requires Sequence(t.emails[d]) <= Sequence(t.emails[e])
    ensures AsNewAs(t.emails[e], t.emails[d]) <==> t.emails[d].row <= t.emails[e].row
    ensures Sequence(t.emails[d]) == Sequence(t.emails[e]) ==> d == e
  {
    RunKeepsInv(START, run, t);
    assert EmailOk(t, t.emails[d]) && EmailOk(t, t.emails[e]);
    assert Before(t.emails[d], t.emails[e]);
  }

  /** An email was built from the meeting as it then was exactly when its booking had not been taken over. */
  lemma ReadIsCurrentExactly(run: seq<Step>, t: State, e: nat)
    requires Runs(START, run, t) && e < |t.emails| && t.emails[e].read.Some?
    ensures t.emails[e].read.value == t.emails[e].asOf <==> !t.emails[e].superseded
  {
    RunKeepsInv(START, run, t);
    assert EmailOk(t, t.emails[e]);
  }

  lemma {:induction false} Then(s: State, run: seq<Step>, m: State, a: Step)
    requires Runs(s, run, m) && Can(m, a)
    ensures Runs(s, run + [a], Take(m, a))
    decreases |run|
  {
    if run == [] {
      assert run + [a] == [a] && [a][1..] == [];
    } else {
      Then(Take(s, run[0]), run[1..], m, a);
      assert (run + [a])[1..] == run[1..] + [a];
    }
  }

  const MOVED := Email(Reschedule, Change, 0, Committed, 1, None, None, 0, false)
  const TAKEN_OVER := Email(Reschedule, Supersede, 1, Committed, 2, None, None, 0, false)
  const CHAIN: seq<Booking> := [Booking(1, false), Booking(2, true)]

  lemma BothCommitted() returns (run: seq<Step>)
    ensures Runs(START, run, State(CHAIN, 2, 0, [MOVED, TAKEN_OVER]))
  {
    var a, b := MOVED.(stage := Requested, version := 0), TAKEN_OVER.(stage := Requested, version := 0, row := 0);
    run := [];
    Then(START, run, START, Begin(Reschedule, Change, 0));
    run := run + [Begin(Reschedule, Change, 0)];
    var s1 := State([Booking(0, true)], 0, 0, [a]);
    assert Take(START, Begin(Reschedule, Change, 0)) == s1;
    Then(START, run, s1, Begin(Reschedule, Supersede, 0));
    run := run + [Begin(Reschedule, Supersede, 0)];
    var s2 := State([Booking(0, true)], 0, 0, [a, b]);
    assert Take(s1, Begin(Reschedule, Supersede, 0)) == s2;
    Then(START, run, s2, Commit(0));
    run := run + [Commit(0)];
    var s3 := State([Booking(1, true)], 1, 0, [MOVED, b]);
    assert Take(s2, Commit(0)) == s3;
    Then(START, run, s3, Commit(1));
    run := run + [Commit(1)];
    assert Take(s3, Commit(1)) == State(CHAIN, 2, 0, [MOVED, TAKEN_OVER]);
  }

  /**
   A queued email can be older than one numbered below it: a move in place and a
   move to a new booking commit in that order and claim in the other, so the
   higher number is queued with the time the meeting no longer has.
   */
  lemma OvertakenByATakeover() returns (run: seq<Step>, t: State)
    ensures Runs(START, run, t) && |t.emails| == 2
    ensures t.emails[0].stage == Queued && t.emails[1].stage == Queued
    ensures t.emails[0].number.Some? && t.emails[1].number.Some? && Sequence(t.emails[1]) < Sequence(t.emails[0])
    ensures !AsNewAs(t.emails[0], t.emails[1]) && t.emails[0].superseded
  {
    run := BothCommitted();
    var b1 := TAKEN_OVER.(stage := Numbered, number := Some(1));
    var b2 := b1.(stage := Loaded, read := Some(2), asOf := 2);
    var b3 := b2.(stage := Queued);
    var a1 := MOVED.(stage := Numbered, number := Some(2));
    var a2 := a1.(stage := Loaded, read := Some(1), asOf := 2, superseded := true);
    var steps := [Claim(1), Load(1), Queue(1), Claim(0), Load(0), Queue(0)];
    var states := [
      State(CHAIN, 2, 0, [MOVED, TAKEN_OVER]), State(CHAIN, 2, 1, [MOVED, b1]), State(CHAIN, 2, 1, [MOVED, b2]),
      State(CHAIN, 2, 1, [MOVED, b3]), State(CHAIN, 2, 2, [a1, b3]), State(CHAIN, 2, 2, [a2, b3]),
      State(CHAIN, 2, 2, [a2.(stage := Queued), b3])];
    for i := 0 to |steps|
      invariant Runs(START, run, states[i])
    {
      assert Can(states[i], steps[i]) && Take(states[i], steps[i]) == states[i + 1];
      Then(START, run, states[i], steps[i]);
      run := run + [steps[i]];
    }
    t := states[6];
  }

  /** Some run of the meeting comes to this. */
  ghost predicate Reached(t: State) { exists run :: Runs(START, run, t) }

  lemma On(s: State, a: Step, t: State)
    requires Reached(s) && Can(s, a) && Take(s, a) == t
    ensures Reached(t)
  {
    hide Can, Take;
    var run :| Runs(START, run, s);
    Then(START, run, s, a);
  }

  const MOVE := Email(Reschedule, Change, 0, Requested, 0, None, None, 0, false)
  const SENT_MOVE := MOVE.(stage := Sent, version := 1, number := Some(1), read := Some(1), asOf := 1)
  const CANCEL := Email(Cancellation, End, 0, Requested, 0, None, None, 0, false)
  const SENT_CANCEL := CANCEL.(stage := Sent, version := 2, number := Some(2), read := Some(2), asOf := 2)
  const GIVEN_UP := MOVE.(stage := Failed)

  function Moving(counter: nat, e: Email): State { State([Booking(1, true)], 1, counter, [e]) }

  function Cancelling(counter: nat, e: Email): State { State([Booking(2, false)], 2, counter, [SENT_MOVE, e]) }

  lemma MoveCommitted()
    ensures Reached(Moving(0, MOVE.(stage := Committed, version := 1)))
  {
    assert Runs(START, [], START);
    hide Reached;
    var begun := State([Booking(0, true)], 0, 0, [MOVE]);
    On(START, Begin(Reschedule, Change, 0), begun);
    On(begun, Commit(0), Moving(0, MOVE.(stage := Committed, version := 1)));
  }

  lemma MoveRead()
    requires Reached(Moving(0, MOVE.(stage := Committed, version := 1)))
    ensures Reached(Moving(1, SENT_MOVE.(stage := Queued)))
  {
    hide Reached;
    var committed := MOVE.(stage := Committed, version := 1);
    var numbered := committed.(stage := Numbered, number := Some(1));
    On(Moving(0, committed), Claim(0), Moving(1, numbered));
    On(Moving(1, numbered), Load(0), Moving(1, SENT_MOVE.(stage := Loaded)));
    On(Moving(1, SENT_MOVE.(stage := Loaded)), Queue(0), Moving(1, SENT_MOVE.(stage := Queued)));
  }

  lemma MoveSent()
    requires Reached(Moving(1, SENT_MOVE.(stage := Queued)))
    ensures Reached(Moving(1, SENT_MOVE))
  {
    hide Reached;
    var queued, checked := Moving(1, SENT_MOVE.(stage := Queued)), Moving(1, SENT_MOVE.(stage := Checked));
    On(queued, Check(0), checked);
    On(checked, PutOff(0), queued);
    On(queued, Check(0), checked);
    On(checked, Accept(0), Moving(1, SENT_MOVE));
  }

  lemma CancelNumbered()
    requires Reached(Moving(1, SENT_MOVE))
    ensures Reached(Cancelling(2, SENT_CANCEL.(stage := Numbered, read := None, asOf := 0)))
  {
    hide Reached;
    var begun, committed :=
      Moving(1, SENT_MOVE).(emails := [SENT_MOVE, CANCEL]), CANCEL.(stage := Committed, version := 2);
    On(Moving(1, SENT_MOVE), Begin(Cancellation, End, 0), begun);
    On(begun, Commit(1), Cancelling(1, committed));
    On(Cancelling(1, committed), Claim(1), Cancelling(2, committed.(stage := Numbered, number := Some(2))));
  }

  lemma CancelSent()
    requires Reached(Cancelling(2, SENT_CANCEL.(stage := Numbered, read := None, asOf := 0)))
    ensures Reached(Cancelling(2, SENT_CANCEL))
  {
    hide Reached;
    var loaded, queued := SENT_CANCEL.(stage := Loaded), SENT_CANCEL.(stage := Queued);
    var checked := SENT_CANCEL.(stage := Checked);
    On(Cancelling(2, SENT_CANCEL.(stage := Numbered, read := None, asOf := 0)), Load(1), Cancelling(2, loaded));
    On(Cancelling(2, loaded), Queue(1), Cancelling(2, queued));
    On(Cancelling(2, queued), Check(1), Cancelling(2, checked));
    On(Cancelling(2, checked), Accept(1), Cancelling(2, SENT_CANCEL));
  }

  /**
   A run to the end: a booking moved, put off once and sent with 3; then
   cancelled, sent with 4; a later move gives up.
   */
  lemma MovedThenCancelled() returns (run: seq<Step>, t: State)
    ensures Runs(START, run, t) && t == State([Booking(2, false)], 2, 2, [SENT_MOVE, SENT_CANCEL, GIVEN_UP])
    ensures Carried(t.emails[0]) == Some(3) && Carried(t.emails[1]) == Some(4)
  {
    t := State([Booking(2, false)], 2, 2, [SENT_MOVE, SENT_CANCEL, GIVEN_UP]);
    MoveCommitted();
    MoveRead();
    MoveSent();
    CancelNumbered();
    CancelSent();
    var begun := Cancelling(2, SENT_CANCEL).(emails := [SENT_MOVE, SENT_CANCEL, MOVE]);
    On(Cancelling(2, SENT_CANCEL), Begin(Reschedule, Change, 0), begun);
    On(begun, Fail(2), t);
    hide Runs;
    run :| Runs(START, run, t);
  }

  /**
   No email that is sent is older than a change with its number or a lower one,
   however the changes interleaved: one whose booking was taken over meanwhile
   is not sent.
   */
  lemma SentIsNewest(run: seq<Step>, t: State, d: nat, e: nat)
    requires Runs(START, run, t) && d < |t.emails| && e < |t.emails| && t.emails[e].stage == Sent
    requires t.emails[d].number.Some? && t.emails[e].number.Some? && Sequence(t.emails[d]) <= Sequence(t.emails[e])
    ensures AsNewAs(t.emails[e], t.emails[d])
  {
    RunKeepsInv(START, run, t);
    assert EmailOk(t, t.emails[d]) && EmailOk(t, t.emails[e]);
    assert Before(t.emails[d], t.emails[e]);
    if !LiveKind(t.emails[e].kind) {
      VersionsAreCommits(t, t.emails[d]);
    }
  }

  /**
   Exactly which emails are numbered once they have read their booking: every
   move's, every cancellation's, and the confirmation of a booking that took over.
   */
  lemma NumberedExactly(run: seq<Step>, t: State, e: nat)
    requires Runs(START, run, t) && e < |t.emails| && HasRead(t.emails[e].stage)
    ensures t.emails[e].number.Some? <==>
      match t.emails[e].kind
      case Reschedule => true
      case Cancellation => true
      case Confirmation => t.emails[e].row > 0
      case PendingRequest => false
      case Declined => false
  {
    RunKeepsInv(START, run, t);
    assert EmailOk(t, t.emails[e]);
  }

  /**
   A move's email, a cancellation's, and the confirmation of a booking that took
   over each outrank whatever went out before changes were counted, of any kind,
   and every email numbered before them.
   */
  lemma CountedOutranksLegacy(run: seq<Step>, t: State, e: nat, d: nat, kind: Kind)
    requires Runs(START, run, t) && e < |t.emails| && d < |t.emails| && HasRead(t.emails[e].stage)
    requires t.emails[e].kind in {Reschedule, Cancellation} || (t.emails[e].kind == Confirmation && t.emails[e].row > 0)
    ensures Carried(t.emails[e]).Some? && t.emails[e].number.Some?
    ensures Fixed(kind).Some? ==> Fixed(kind).value <= LEGACY_CEILING < Carried(t.emails[e]).value
    ensures t.emails[d].number.None? || t.emails[d].number.value < t.emails[e].number.value ==>
      Carried(t.emails[d]).Some? ==> Carried(t.emails[d]).value < Carried(t.emails[e]).value
  {
    NumberedExactly(run, t, e);
    RunKeepsInv(START, run, t);
    assert EmailOk(t, t.emails[e]);
  }

  /** Before changes were counted a move outranked the confirmation, and the cancellation all the others. */
  lemma FixedNumbersRise()
    ensures Fixed(Confirmation) == Some(0) && Fixed(Reschedule) == Some(1)
      && Fixed(Cancellation) == Some(LEGACY_CEILING)
    ensures Fixed(Confirmation).value < Fixed(Reschedule).value < Fixed(Cancellation).value
  {
  }

  ghost predicate HasNumber(s: State, n: nat) { exists i :: 0 <= i < |s.emails| && s.emails[i].number == Some(n) }

  /** Every number up to the count was claimed, by an email. */
  ghost predicate AllClaimed(s: State) { forall n: nat :: 1 <= n <= s.counter ==> HasNumber(s, n) }

  lemma StepKeepsClaimed(s: State, a: Step)
    requires AllOk(s) && AllClaimed(s) && Can(s, a)
    ensures AllClaimed(Take(s, a))
  {
    var t := Take(s, a);
    forall i | 0 <= i < |s.emails| && s.emails[i].number.Some? ensures t.emails[i].number == s.emails[i].number {
      assert EmailOk(s, s.emails[i]);
    }
    forall n: nat | 1 <= n <= t.counter ensures HasNumber(t, n) {
      if n <= s.counter {
        assert HasNumber(s, n);
        var i :| 0 <= i < |s.emails| && s.emails[i].number == Some(n);
        assert t.emails[i].number == Some(n);
      } else {
        assert a.Claim? && t.emails[a.i].number == Some(n);
      }
    }
  }

  /** Whatever fails, no number is skipped: those claimed are 1, 2, 3 and so on, each by one email. */
  lemma {:induction false} NoNumberIsSkipped(s: State, run: seq<Step>, t: State)
    requires Inv(s) && AllClaimed(s) && Runs(s, run, t)
    ensures AllClaimed(t)
    ensures forall i :: 0 <= i < |t.emails| && t.emails[i].number.Some? ==> 1 <= t.emails[i].number.value <= t.counter
    ensures forall i, j ::
      0 <= i < |t.emails| && 0 <= j < |t.emails| && t.emails[i].number.Some?
        && t.emails[i].number == t.emails[j].number ==>
        i == j
    decreases |run|
  {
    if run != [] {
      StepKeepsOk(s, run[0]);
      StepKeepsOrdered(s, run[0]);
      StepKeepsClaimed(s, run[0]);
      NoNumberIsSkipped(Take(s, run[0]), run[1..], t);
    } else {
      forall i | 0 <= i < |t.emails| && t.emails[i].number.Some? ensures 1 <= t.emails[i].number.value <= t.counter {
        assert EmailOk(t, t.emails[i]);
      }
      forall i, j | 0 <= i < |t.emails| && 0 <= j < |t.emails| && t.emails[i].number.Some?
                    && t.emails[i].number == t.emails[j].number ensures i == j {
        assert Before(t.emails[i], t.emails[j]);
      }
    }
  }

  /**
   A calendar drops the meeting and keeps it dropped: a cancellation that is
   numbered outranks every confirmation and every move's email that is sent,
   those sent after it included.
   */
  lemma CancellationOutranksAllSent(run: seq<Step>, t: State, e: nat, d: nat)
    requires Runs(START, run, t) && e < |t.emails| && d < |t.emails|
    requires t.emails[e].kind == Cancellation && HasRead(t.emails[e].stage)
    requires t.emails[d].kind in {Confirmation, Reschedule} && t.emails[d].stage == Sent
    ensures Carried(t.emails[d]).Some? && Carried(t.emails[e]).Some?
    ensures Carried(t.emails[d]).value < Carried(t.emails[e]).value
  {
    RunKeepsInv(START, run, t);
    assert EmailOk(t, t.emails[e]) && EmailOk(t, t.emails[d]);
    CountedOutranksLegacy(run, t, e, d, Cancellation);
    if t.emails[d].number.Some? && t.emails[e].number.value <= t.emails[d].number.value {
      assert Before(t.emails[e], t.emails[d]) && GoesOut(t.emails[d]);
      assert false;
    }
  }

  /** The highest SEQUENCE of the emails sent, the one a calendar keeps. */
  ghost predicate Kept(t: State, top: nat) {
    && top < |t.emails| && t.emails[top].stage == Sent && t.emails[top].number.Some?
    && forall i :: 0 <= i < |t.emails| && t.emails[i].stage == Sent && t.emails[i].number.Some? ==>
        Sequence(t.emails[i]) <= Sequence(t.emails[top])
  }

  /**
   Once the email of the last change to commit is sent, what a calendar keeps
   shows the meeting as it is, whatever became of the other changes' emails.
   */
  lemma HighestSequenceIsCurrent(run: seq<Step>, t: State, last: nat, top: nat)
    requires Runs(START, run, t) && last < |t.emails| && Kept(t, top)
    requires t.emails[last].version == t.commits && t.emails[last].stage == Sent && t.emails[last].number.Some?
    ensures t.emails[top].read == Some(t.commits)
  {
    SentIsNewest(run, t, last, top);
    RunKeepsInv(START, run, t);
    assert EmailOk(t, t.emails[top]);
    VersionsAreCommits(t, t.emails[top]);
  }

  /**
   Of the emails queued the one numbered highest, the last change's among them,
   shows the meeting as it is exactly when it is about the booking in force.
   */
  lemma HighestQueuedIsCurrentExactly(run: seq<Step>, t: State, last: nat, top: nat)
    requires Runs(START, run, t) && last < |t.emails| && top < |t.emails|
    requires t.emails[last].version == t.commits && t.emails[last].number.Some?
    requires t.emails[top].read.Some? && t.emails[top].number.Some?
      && Sequence(t.emails[last]) <= Sequence(t.emails[top])
    ensures t.emails[top].read == Some(t.commits) <==> t.emails[top].row == |t.rows| - 1
  {
    QueuedIsNewerExactly(run, t, last, top);
    RunKeepsInv(START, run, t);
    assert EmailOk(t, t.emails[top]) && EmailOk(t, t.emails[last]);
    VersionsAreCommits(t, t.emails[top]);
    assert t.emails[last].row < |t.rows| - 1 ==> t.rows[t.emails[last].row].version < t.rows[|t.rows| - 1].version;
  }
}
