/**
 What the invitation protocol promises, over every run: every interleaving of
 the requests, the calendar jobs, the emails and the reinvites, with a throw or
 a death between any two calls.
 */
module InvitationResults {
  import opened Invitations
  import opened InvitationInvariant
  import opened InvitationDecisions

  /** What some run comes to, whatever the booking started with. */
  ghost predicate Reachable(t: State) { exists s, run :: Init(s) && Runs(s, run, t) }

  lemma ReachableIsSound(t: State)
    requires Reachable(t)
    ensures Inv(t)
  {
    hide Init, Runs, Inv;
    var s, run :| Init(s) && Runs(s, run, t);
    RunIsSound(s, run, t);
  }

  /** The guest was told of change `c`: by our email, by the provider, or by the reinvite. */
  predicate Told(s: State, c: Id) requires c in s.cal {
    var row := s.cal[c];
    || (exists why :: why in row.whys && Loud(why))
    || (row.mark.Some? && row.mark.value.email in s.mail && s.mail[row.mark.value.email].accepted)
    || row.reasked
  }

  /** Change `c`'s email is still queued, or its reinvite is queued or stands in the outbox as failed. */
  ghost predicate Outstanding(s: State, c: Id) requires c in s.cal {
    s.cal[c].mark.Some? &&
    var e := s.cal[c].mark.value.email;
    || (e in s.mail && s.mail[e].status == Pending)
    || (exists r :: r in s.again && s.again[r].email == e && s.again[r].status in {Pending, Failed})
  }

  /** Its reinvite looked for the organizer's event, and found none with anybody besides the guest on it. */
  ghost predicate NoEventToInviteFrom(run: seq<Act>, s: State, c: Id) requires c in s.cal {
    s.cal[c].mark.Some? &&
    exists r :: r in s.again && s.again[r].email == s.cal[c].mark.value.email && Found(run, r, None) == Some(false)
  }

  /** The change came with the booking, marked by an email that stayed with the one taken over. */
  predicate MarkedBefore(s: State, c: Id) requires c in s.cal {
    s.cal[c].mark.Some? && s.cal[c].mark.value.email < s.first
  }

  /** The reinvite of a change that came with the booking found it need not look: its email was sent after all. */
  ghost predicate SentBefore(run: seq<Act>, s: State, c: Id) requires c in s.cal {
    MarkedBefore(s, c) && exists r :: r in s.again && s.again[r].email == s.cal[c].mark.value.email
                                      && s.again[r].status == Done && Found(run, r, None) == None
  }

  /**
   Nobody tells the guest: every write was quiet, and the email ended without
   the mail service accepting it, having last looked for its change before the
   request that queued both had marked it. Of a change that came with the
   booking, quiet before that, nothing here follows the email up, unless a
   reinvite came with it.
   */
  ghost predicate LeftUntold(s: State, c: Id) requires c in s.cal {
    var row := s.cal[c];
    && (forall why :: why in row.whys ==> !Loud(why))
    && row.mark.Some?
    && var e := row.mark.value.email;
    if e < s.first then !HasReinvite(s, e)
    else e in s.mail && Over(s.mail[e]) && s.mail[e].early && !s.mail[e].accepted
  }

  /** Exactly when the guest of a written create or move is told, or will be, over every run. */
  lemma NobodyIsLeftUntold(s: State, run: seq<Act>, t: State, c: Id)
    requires Init(s) && Runs(s, run, t)
    requires t.on && c in t.cal && t.cal[c].change != Delete && t.cal[c].whys != {}
    ensures Told(t, c) || Outstanding(t, c) || NoEventToInviteFrom(run, t, c) || SentBefore(run, t, c)
       <==> !LeftUntold(t, c)
  {
    RunIsSound(s, run, t);
    if LeftUntold(t, c) {
      UntoldIsLost(run, t, c);
    } else {
      QuietIsFollowedUp(s, run, t, c);
    }
  }

  lemma QuietIsFollowedUp(s: State, run: seq<Act>, t: State, c: Id)
    requires Init(s) && Runs(s, run, t)
    requires t.on && c in t.cal && t.cal[c].change != Delete && t.cal[c].whys != {} && !LeftUntold(t, c)
    ensures Told(t, c) || Outstanding(t, c) || NoEventToInviteFrom(run, t, c) || SentBefore(run, t, c)
  {
    RunIsSound(s, run, t);
    var row := t.cal[c];
    assert CalOk(t, c);
    var why :| why in row.whys;
    if !Loud(why) && !Told(t, c) {
      var e := row.mark.value.email;
      assert Marks(t, c, e) && (e in t.mail ==> MailOk(t, e));
      if e < t.first || Over(t.mail[e]) {
        var r :| r in t.again && t.again[r].email == e;
        assert AgainOk(t, r) && NoticesOk(t, c);
        if t.again[r].status == Done { DoneAsFound(s, run, t, r); }
      }
    }
  }

  lemma UntoldIsLost(run: seq<Act>, t: State, c: Id)
    requires Inv(t) && c in t.cal && LeftUntold(t, c)
    ensures !Told(t, c) && !Outstanding(t, c) && !NoEventToInviteFrom(run, t, c) && !SentBefore(run, t, c)
  {
    var e := t.cal[c].mark.value.email;
    assert (e in t.mail ==> MailOk(t, e)) && NoticesOk(t, c);
    forall r | r in t.again ensures t.again[r].email != e {
      assert t.again[r].email == e ==> HasReinvite(t, e);
    }
  }

  /**
   A confirmation or a reschedule notice that ended unsent has its reinvite, and
   never a second one, exactly when its change was marked by the time it last
   looked: the follow-up comes before the end, however often that is held back.
   */
  lemma EndsUnsentAfterFollowUp(t: State, e: Id, c: Id)
    requires Reachable(t) && t.on
    requires e in t.mail && t.mail[e].kind != Cancellation && Over(t.mail[e]) && Marks(t, c, e)
    ensures HasReinvite(t, e) <==> !t.mail[e].early
    ensures forall r, other :: r in t.again && other in t.again && t.again[r].email == e == t.again[other].email ==>
      r == other
  {
    ReachableIsSound(t);
    assert MailOk(t, e);
  }

  /** Once the quiet write is recorded, no later attempt of that change writes with invitations on. */
  lemma {:induction false} MutedStaysQuiet(s: State, run: seq<Act>, t: State, c: Id)
    requires Inv(s) && Runs(s, run, t)
    requires c in s.cal && s.cal[c].change != Delete && Muted(s.cal[c])
    ensures c in t.cal && Muted(t.cal[c])
    ensures forall why :: why in t.cal[c].whys && Loud(why) ==> why in s.cal[c].whys
    decreases |run|
  {
    if run != [] {
      var _ := StepEvolves(s, run[0]);
      assert CalOk(s, c);
      StepKeepsInv(s, run[0]);
      MutedStaysQuiet(Take(s, run[0]), run[1..], t, c);
    }
  }

  /** However often it is retried, a change's reinvite makes the provider notify the guest at most once. */
  lemma ReinviteNotifiesAtMostOnce(t: State, c: Id)
    requires Reachable(t) && c in t.cal
    ensures t.cal[c].notices <= 1
  {
    ReachableIsSound(t);
    assert NoticesOk(t, c);
  }

  /** A delete is written quietly only once the mail service has accepted its cancellation email. */
  lemma QuietDeleteHasItsEmailAccepted(t: State, c: Id)
    requires Reachable(t)
    requires c in t.cal && t.cal[c].change == Delete && EmailReplaces in t.cal[c].whys
    ensures t.cal[c].mark.Some? && t.cal[c].mark.value.email in t.mail
    ensures t.mail[t.cal[c].mark.value.email].accepted
  {
    ReachableIsSound(t);
    assert CalOk(t, c);
    assert MailOk(t, t.cal[c].mark.value.email);
  }

  /** The provider told the guest of change `c`. */
  predicate ProviderTold(s: State, c: Id) requires c in s.cal { exists why :: why in s.cal[c].whys && Loud(why) }

  /** Reasons to have the provider notify that do not look at the email. */
  predicate WhateverTheEmail(why: Why) { why == OtherGuests || why == NoTransport || why == Untagged }

  /**
   The guest hears of a cancellation from both sides only when the delete was
   written before its email had marked it, with other guests on the booking or
   no delivering transport, or while the email was being sent at the last look;
   or when the worker that sent the email ended without recording so.
   */
  lemma BothSidesOnlyIf(t: State, c: Id, why: Why)
    requires Reachable(t)
    requires c in t.cal && t.cal[c].change == Delete && t.cal[c].mark.Some?
    requires why in t.cal[c].whys && Loud(why)
    requires var e := t.cal[c].mark.value.email; e in t.mail && t.mail[e].accepted
    ensures WhateverTheEmail(why) || why == MidSend || t.mail[t.cal[c].mark.value.email].lost
  {
    ReachableIsSound(t);
    assert CalOk(t, c);
    assert MailOk(t, t.cal[c].mark.value.email);
  }

  /**
   A tagged single guest on a delivering transport, whom the provider told of
   the cancellation: "by email too only if it was being sent at the last look"
   fails exactly when it was not, and the email's worker ended without recording
   that the email had been accepted.
   */
  lemma BothSidesExactly(t: State, c: Id)
    requires Reachable(t)
    requires c in t.cal && t.cal[c].change == Delete && t.cal[c].mark.Some?
    requires ProviderTold(t, c) && forall why :: why in t.cal[c].whys ==> !WhateverTheEmail(why)
    ensures var e := t.cal[c].mark.value.email;
      && e in t.mail
      && ((t.mail[e].accepted ==> MidSend in t.cal[c].whys) <==> !(t.mail[e].lost && MidSend !in t.cal[c].whys))
      && (MidSend !in t.cal[c].whys ==> (t.mail[e].accepted <==> t.mail[e].lost))
  {
    ReachableIsSound(t);
    assert CalOk(t, c);
    assert MailOk(t, t.cal[c].mark.value.email);
    var why :| why in t.cal[c].whys && Loud(why);
    assert why in {MidSend, EmailEnded, TookBack};
  }

  /**
   A delete its email never marked has the provider notify whenever it is
   written: the guest hears twice when mailed as well.
   */
  lemma UnmarkedDeleteTellsTwiceIfMailed(t: State, c: Id)
    requires Reachable(t)
    requires c in t.cal && t.cal[c].change == Delete && t.cal[c].mark.None?
    ensures forall why :: why in t.cal[c].whys ==> WhateverTheEmail(why)
    ensures ProviderTold(t, c) <==> t.cal[c].whys != {}
  {
    ReachableIsSound(t);
    assert CalOk(t, c);
    forall why | why in t.cal[c].whys ensures WhateverTheEmail(why) {
      assert !Wrote(t.cal[c], EmailReplaces) && !Wrote(t.cal[c], EmailEnded) && !Wrote(t.cal[c], TookBack)
        && !Wrote(t.cal[c], MidSend);
      assert Wrote(t.cal[c], why);
    }
    if t.cal[c].whys != {} {
      var why :| why in t.cal[c].whys;
      assert Loud(why);
    }
  }

  /** How many looks at its cancellation email the run has row `c` take. */
  function LooksTaken(run: seq<Act>, c: Id): nat {
    if run == [] then 0
    else (if run[0].Cal? && run[0].c == c && run[0].a.CountLook? then 1 else 0) + LooksTaken(run[1..], c)
  }

  function LooksCounted(s: State, c: Id): nat {
    if c in s.cal && s.cal[c].mark.Some? then s.cal[c].mark.value.looks else 0
  }

  lemma CalCountsLooks(s: State, c: Id, a: CalAct, d: Id)
    requires CanCal(s, c, a) && CalOk(s, c)
    ensures LooksCounted(TakeCal(s, c, a), d) == LooksCounted(s, d) + if c == d && a.CountLook? then 1 else 0
  {
  }

  lemma RequestCountsNoLooks(s: State, a: RequestAct, d: Id)
    requires CanRequest(s, a) && s.next !in s.cal
    ensures LooksCounted(TakeRequest(s, a), d) == LooksCounted(s, d)
  {
  }

  lemma AgainCountsNoLooks(s: State, i: Id, a: ReinviteAct, d: Id)
    requires CanAgain(s, i, a) && AgainOk(s, i)
    ensures LooksCounted(TakeAgain(s, i, a), d) == LooksCounted(s, d)
  {
    AgainMakesStep(s, i, a);
    hide TakeAgain, CanAgain, AgainOk;
  }

  lemma StepCountsLooks(s: State, a: Act, c: Id)
    requires Inv(s) && Can(s, a)
    ensures LooksCounted(Take(s, a), c) == LooksCounted(s, c) + LooksTaken([a], c)
  {
    hide CanRequest, TakeRequest, CanCal, TakeCal, CanAgain, TakeAgain, CalOk, AgainOk, MailOk, NoticesOk;
    match a {
      case Request(r) => Fresh(s); RequestCountsNoLooks(s, r, c);
      case Cal(d, x) => InvCal(s, d, x); CalCountsLooks(s, d, x, c);
      case Mail(_, _) =>
      case Again(i, x) => InvAgain(s, i, x); AgainCountsNoLooks(s, i, x, c);
    }
  }

  lemma InvCal(s: State, c: Id, a: CalAct)
    requires Inv(s) && CanCal(s, c, a)
    ensures c in s.cal && CalOk(s, c)
  {
  }

  lemma InvAgain(s: State, i: Id, a: ReinviteAct)
    requires Inv(s) && CanAgain(s, i, a)
    ensures i in s.again && AgainOk(s, i)
  {
  }

  lemma {:induction false} RunCountsLooks(s: State, run: seq<Act>, t: State, c: Id)
    requires Inv(s) && Runs(s, run, t)
    ensures LooksCounted(t, c) == LooksCounted(s, c) + LooksTaken(run, c)
    decreases |run|
  {
    if run != [] {
      StepCountsLooks(s, run[0], c);
      StepKeepsInv(s, run[0]);
      RunCountsLooks(Take(s, run[0]), run[1..], t, c);
      assert LooksTaken([run[0]], c) + LooksTaken(run[1..], c) == LooksTaken(run, c);
    }
  }

  /** Over its whole life, through every retry, a delete looks at its email at most `MAX_LOOKS` times. */
  lemma DeleteLooksAreBounded(s: State, run: seq<Act>, t: State, c: Id)
    requires Init(s) && Runs(s, run, t)
    ensures LooksTaken(run, c) <= MAX_LOOKS
  {
    InitKeepsInv(s);
    RunCountsLooks(s, run, t, c);
    RunIsSound(s, run, t);
    assert c in t.cal ==> CalOk(t, c);
  }

  /** An email that has ended, one taken back by a delete included, is never sent afterwards. */
  lemma {:induction false} EndedMailIsNeverSent(s: State, run: seq<Act>, t: State, e: Id)
    requires Inv(s) && Runs(s, run, t)
    requires e in s.mail && s.mail[e].status != Pending
    ensures e in t.mail && t.mail[e].status == s.mail[e].status && t.mail[e].accepted == s.mail[e].accepted
    decreases |run|
  {
    if run != [] {
      assert MailOk(s, e);
      var _ := StepEvolves(s, run[0]);
      StepKeepsInv(s, run[0]);
      EndedMailIsNeverSent(Take(s, run[0]), run[1..], t, e);
    }
  }

  // ------------------------------------------- two runs that lose or repeat

  ghost predicate Reaches(s: State, t: State) { exists run :: Runs(s, run, t) }

  lemma {:induction false} RunsThen(s: State, run: seq<Act>, m: State, a: Act, t: State)
    requires Runs(s, run, m) && Can(m, a) && Take(m, a) == t
    ensures Runs(s, run + [a], t)
    decreases |run|
  {
    if run == [] {
      assert run + [a] == [a] && [a][1..] == [];
    } else {
      RunsThen(Take(s, run[0]), run[1..], m, a, t);
      assert (run + [a])[1..] == run[1..] + [a];
    }
  }

  lemma Then(s: State, m: State, a: Act, t: State)
    requires Reaches(s, m) && Can(m, a) && Take(m, a) == t
    ensures Reaches(s, t)
  {
    hide Can, Take;
    var run :| Runs(s, run, m);
    RunsThen(s, run, m, a, t);
  }

  const EMPTY := State(true, true, false, map[], map[], map[], 0, 0)
  const MARK := Mark(1, false, 0, false, false)

  lemma Starts()
    ensures Init(EMPTY) && Reaches(EMPTY, EMPTY)
  {
    assert Runs(EMPTY, [], EMPTY);
  }

  // A change and its email race each other.

  const UNMARKED := CalRow(Create, Pending, false, Waiting, None, None, {}, false, 0)
  const CLAIMED := UNMARKED.(due := true, mark := Some(MARK), seen := Some(MARK), pc := Started)
  const WRITTEN :=
    CLAIMED.(mark := Some(MARK.(muted := true)), pc := Waiting, status := Done, whys := {} + {EmailReplaces})
  const QUEUED := MailRow(Confirmation, Pending, Idle, false, false, false, false)
  const ENDING := QUEUED.(pc := MailEnding(Skip), early := true)
  const TAGGED := ENDING.(tagged := true)

  function Racing(row: CalRow, mail: MailRow): State {
    State(true, true, row.whys != {}, map[0 := row], map[1 := mail], map[], 2, 0)
  }

  lemma BothQueued()
    ensures Reaches(EMPTY, Racing(UNMARKED, QUEUED))
  {
    Starts();
    hide Reaches, HasReinvite, Marked, Head, CanCal, TakeCal, CanMail, TakeMail, CanAgain, TakeAgain, Init;
    var m := EMPTY.(cal := map[0 := UNMARKED], next := 1);
    Then(EMPTY, EMPTY, Request(QueueChange(Create)), m);
    Then(EMPTY, m, Request(QueueMail(Confirmation)), Racing(UNMARKED, QUEUED));
  }

  /** The email is refused, and looks for its change, before the request has marked the calendar row. */
  lemma RefusedBeforeTagged()
    requires Reaches(EMPTY, Racing(UNMARKED, QUEUED))
    ensures Reaches(EMPTY, Racing(UNMARKED, ENDING))
  {
    hide Reaches, HasReinvite, Marked, Head, CanCal, TakeCal, CanAgain, TakeAgain, CanRequest, TakeRequest;
    var sending := Racing(UNMARKED, QUEUED.(pc := Sending));
    var finding := Racing(UNMARKED, QUEUED.(pc := Finding(Skip)));
    Then(EMPTY, Racing(UNMARKED, QUEUED), Mail(1, ClaimMail), sending);
    Then(EMPTY, sending, Mail(1, Refuse), finding);
    Then(EMPTY, finding, Mail(1, FindChange(None)), Racing(UNMARKED, ENDING));
  }

  /** Only now does the mark land, and the change is claimed with it. */
  lemma MarkedAndClaimed()
    requires Reaches(EMPTY, Racing(UNMARKED, ENDING))
    ensures Reaches(EMPTY, Racing(CLAIMED, TAGGED))
  {
    hide Reaches, HasReinvite, Marked, CanMail, TakeMail, CanAgain, TakeAgain;
    var marked := UNMARKED.(mark := Some(MARK));
    Then(EMPTY, Racing(UNMARKED, ENDING), Request(Tag(1, Some(0))), Racing(marked, TAGGED));
    Then(EMPTY, Racing(marked, TAGGED), Request(FallDue(0)), Racing(marked.(due := true), TAGGED));
    Then(EMPTY, Racing(marked.(due := true), TAGGED), Cal(0, Claim), Racing(CLAIMED, TAGGED));
  }

  const MUTED := CLAIMED.(mark := Some(MARK.(muted := true)), pc := Writing(EmailReplaces))

  lemma DecidedQuiet()
    requires Reaches(EMPTY, Racing(CLAIMED, TAGGED))
    ensures Reaches(EMPTY, Racing(MUTED, TAGGED))
  {
    hide Reaches, HasReinvite, Marked, CanMail, TakeMail, CanAgain, TakeAgain, CanRequest, TakeRequest;
    var ready, muting := Racing(CLAIMED.(pc := Ready), TAGGED), Racing(CLAIMED.(pc := Muting), TAGGED);
    Then(EMPTY, Racing(CLAIMED, TAGGED), Cal(0, CheckBooking), ready);
    Then(EMPTY, ready, Cal(0, Decide(false)), muting);
    Then(EMPTY, muting, Cal(0, RecordMute), Racing(MUTED, TAGGED));
  }

  lemma WrittenQuietly()
    requires Reaches(EMPTY, Racing(MUTED, TAGGED))
    ensures Reaches(EMPTY, Racing(WRITTEN, TAGGED))
  {
    hide Reaches, HasReinvite, Marked, CanMail, TakeMail, CanAgain, TakeAgain, CanRequest, TakeRequest;
    var written := Racing(MUTED.(pc := Ending(Finish), whys := {} + {EmailReplaces}), TAGGED);
    Then(EMPTY, Racing(MUTED, TAGGED), Cal(0, Write(true, Finish)), written);
    Then(EMPTY, written, Cal(0, Record), Racing(WRITTEN, TAGGED));
  }

  lemma SkippedAtLast()
    requires Reaches(EMPTY, Racing(WRITTEN, TAGGED))
    ensures Reaches(EMPTY, Racing(WRITTEN, TAGGED.(status := Skipped, pc := Idle)))
  {
    hide Reaches, HasReinvite, Marked, CanCal, TakeCal, CanAgain, TakeAgain, CanRequest, TakeRequest;
    Then(EMPTY, Racing(WRITTEN, TAGGED), Mail(1, RecordEnd), Racing(WRITTEN, TAGGED.(status := Skipped, pc := Idle)));
  }

  /**
   The race is real: an email refused before its request marks the calendar
   row, and recorded as skipped only after that row has counted on it, leaves
   nobody to tell the guest and nothing outstanding.
   */
  lemma LateTagLosesTheGuest() returns (s: State, run: seq<Act>, t: State)
    ensures Init(s) && Runs(s, run, t) && t.on && 0 in t.cal
    ensures t.cal[0].change != Delete && t.cal[0].whys != {} && t.cal[0].status == Done
    ensures LeftUntold(t, 0) && !Told(t, 0) && !Outstanding(t, 0) && !NoEventToInviteFrom(run, t, 0)
  {
    s, t := EMPTY, Racing(WRITTEN, TAGGED.(status := Skipped, pc := Idle));
    Starts();
    BothQueued();
    RefusedBeforeTagged();
    MarkedAndClaimed();
    DecidedQuiet();
    WrittenQuietly();
    SkippedAtLast();
    hide Runs, Init, Can, Take;
    run :| Runs(s, run, t);
  }

  // An email is refused after all, and the provider invites instead.

  const COUNTED := UNMARKED.(mark := Some(MARK))
  const TAGGED_ONCE := QUEUED.(tagged := true)
  const REFUSED := TAGGED_ONCE.(pc := Finding(Skip))
  const GONE := TAGGED_ONCE.(status := Skipped)
  const AGAIN := Reinvite(1, Pending, false, Resting, Unsettled)
  const SETTLED_MARK := MARK.(muted := true)

  function Redoing(row: CalRow, mail: MailRow, again: Reinvite, guestOn: bool): State {
    State(true, true, guestOn, map[0 := row], map[1 := mail], map[2 := again], 3, 0)
  }

  lemma QueuedAndTagged()
    ensures Reaches(EMPTY, Racing(COUNTED.(due := true), TAGGED_ONCE))
  {
    BothQueued();
    hide Reaches, HasReinvite, Marked, Head, CanCal, TakeCal, CanMail, TakeMail, CanAgain, TakeAgain;
    Then(EMPTY, Racing(UNMARKED, QUEUED), Request(Tag(1, Some(0))), Racing(COUNTED, TAGGED_ONCE));
    Then(EMPTY, Racing(COUNTED, TAGGED_ONCE), Request(FallDue(0)), Racing(COUNTED.(due := true), TAGGED_ONCE));
  }

  lemma CountsOnTheEmail()
    ensures Reaches(EMPTY, Racing(MUTED, TAGGED_ONCE))
  {
    QueuedAndTagged();
    hide Reaches, HasReinvite, Marked, CanMail, TakeMail, CanAgain, TakeAgain, CanRequest, TakeRequest;
    var ready, muting := Racing(CLAIMED.(pc := Ready), TAGGED_ONCE), Racing(CLAIMED.(pc := Muting), TAGGED_ONCE);
    Then(EMPTY, Racing(COUNTED.(due := true), TAGGED_ONCE), Cal(0, Claim), Racing(CLAIMED, TAGGED_ONCE));
    Then(EMPTY, Racing(CLAIMED, TAGGED_ONCE), Cal(0, CheckBooking), ready);
    Then(EMPTY, ready, Cal(0, Decide(false)), muting);
    Then(EMPTY, muting, Cal(0, RecordMute), Racing(MUTED, TAGGED_ONCE));
  }

  lemma WritesOnIt()
    requires Reaches(EMPTY, Racing(MUTED, TAGGED_ONCE))
    ensures Reaches(EMPTY, Racing(WRITTEN, TAGGED_ONCE))
  {
    hide Reaches, HasReinvite, Marked, CanMail, TakeMail, CanAgain, TakeAgain, CanRequest, TakeRequest;
    var written := Racing(MUTED.(pc := Ending(Finish), whys := {} + {EmailReplaces}), TAGGED_ONCE);
    Then(EMPTY, Racing(MUTED, TAGGED_ONCE), Cal(0, Write(true, Finish)), written);
    Then(EMPTY, written, Cal(0, Record), Racing(WRITTEN, TAGGED_ONCE));
  }

  lemma RefusedAndFollowedUp()
    requires Reaches(EMPTY, Racing(WRITTEN, TAGGED_ONCE))
    ensures Reaches(EMPTY, Racing(WRITTEN, REFUSED.(pc := Queueing(Skip))))
  {
    hide Reaches, HasReinvite, Marked, Head, CanCal, TakeCal, CanAgain, TakeAgain, CanRequest, TakeRequest;
    var sending := Racing(WRITTEN, TAGGED_ONCE.(pc := Sending));
    var checking := Racing(WRITTEN, REFUSED.(pc := Checking(Skip)));
    Then(EMPTY, Racing(WRITTEN, TAGGED_ONCE), Mail(1, ClaimMail), sending);
    Then(EMPTY, sending, Mail(1, Refuse), Racing(WRITTEN, REFUSED));
    assert Marks(Racing(WRITTEN, REFUSED), 0, 1);
    Then(EMPTY, Racing(WRITTEN, REFUSED), Mail(1, FindChange(Some(0))), checking);
    Then(EMPTY, checking, Mail(1, CheckLive), Racing(WRITTEN, REFUSED.(pc := Queueing(Skip))));
  }

  lemma QueuesAReinvite()
    requires Reaches(EMPTY, Racing(WRITTEN, REFUSED.(pc := Queueing(Skip))))
    ensures Reaches(EMPTY, Redoing(WRITTEN, GONE, AGAIN, true))
  {
    hide Reaches, Marked, Head, CanCal, TakeCal, CanAgain, TakeAgain, CanRequest, TakeRequest;
    var queueing, ending := Racing(WRITTEN, REFUSED.(pc := Queueing(Skip))), REFUSED.(pc := MailEnding(Skip));
    assert !HasReinvite(queueing, 1);
    Then(EMPTY, queueing, Mail(1, QueueReinvite), Redoing(WRITTEN, ending, AGAIN, true));
    hide HasReinvite;
    Then(EMPTY, Redoing(WRITTEN, ending, AGAIN, true), Mail(1, RecordEnd), Redoing(WRITTEN, GONE, AGAIN, true));
  }

  const AGAIN_CLAIMED := AGAIN.(tried := true, pc := Claimed)
  const OFF_MARK := SETTLED_MARK.(removed := true)
  const ASKED := WRITTEN.(mark := Some(OFF_MARK), reasked := true, notices := 1)
  const INVITED := AGAIN_CLAIMED.(pc := Resting, status := Done, outcome := Invited)

  lemma ReinviteFindsItsChange()
    requires Reaches(EMPTY, Redoing(WRITTEN, GONE, AGAIN, true))
    ensures Reaches(EMPTY, Redoing(WRITTEN, GONE, AGAIN_CLAIMED.(pc := MailCheck(0, SETTLED_MARK)), true))
  {
    hide Reaches, HasReinvite, Marked, CanCal, TakeCal, CanMail, TakeMail, CanRequest, TakeRequest;
    var claimed := Redoing(WRITTEN, GONE, AGAIN_CLAIMED, true);
    var looking := Redoing(WRITTEN, GONE, AGAIN_CLAIMED.(pc := Lookup), true);
    var reading := Redoing(WRITTEN, GONE, AGAIN_CLAIMED.(pc := MailCheck(0, SETTLED_MARK)), true);
    Then(EMPTY, Redoing(WRITTEN, GONE, AGAIN, true), Again(2, ClaimReinvite), claimed);
    Then(EMPTY, claimed, Again(2, CheckOn), looking);
    assert Marks(looking, 0, 1);
    Then(EMPTY, looking, Again(2, FindMarked(Some(0), Retry)), reading);
  }

  lemma ReinviteFindsTheEvent()
    requires Reaches(EMPTY, Redoing(WRITTEN, GONE, AGAIN_CLAIMED.(pc := MailCheck(0, SETTLED_MARK)), true))
    ensures Reaches(EMPTY, Redoing(WRITTEN, GONE, AGAIN_CLAIMED.(pc := Removing(0, SETTLED_MARK)), true))
  {
    hide Reaches, HasReinvite, Marked, Head, CanCal, TakeCal, CanMail, TakeMail, CanRequest, TakeRequest;
    var reading := Redoing(WRITTEN, GONE, AGAIN_CLAIMED.(pc := MailCheck(0, SETTLED_MARK)), true);
    var found := Redoing(WRITTEN, GONE, AGAIN_CLAIMED.(pc := Targeting(0, SETTLED_MARK)), true);
    var removing := Redoing(WRITTEN, GONE, AGAIN_CLAIMED.(pc := Removing(0, SETTLED_MARK)), true);
    Then(EMPTY, reading, Again(2, ReadMail(Retry, None)), found);
    Then(EMPTY, found, Again(2, FindTarget(true)), removing);
  }

  lemma GuestOffAndOn()
    requires Reaches(EMPTY, Redoing(WRITTEN, GONE, AGAIN_CLAIMED.(pc := Removing(0, SETTLED_MARK)), true))
    ensures Reaches(EMPTY, Redoing(ASKED, GONE, AGAIN_CLAIMED.(pc := Added(0, OFF_MARK)), true))
  {
    hide Reaches, HasReinvite, Marked, Head, CanCal, TakeCal, CanMail, TakeMail, CanRequest, TakeRequest;
    var removing := Redoing(WRITTEN, GONE, AGAIN_CLAIMED.(pc := Removing(0, SETTLED_MARK)), true);
    var removed := Redoing(WRITTEN, GONE, AGAIN_CLAIMED.(pc := Removed(0, OFF_MARK)), false);
    var adding := Redoing(WRITTEN.(mark := Some(OFF_MARK)), GONE, AGAIN_CLAIMED.(pc := Adding(0, OFF_MARK)), false);
    Then(EMPTY, removing, Again(2, RemoveGuest), removed);
    Then(EMPTY, removed, Again(2, RecordRemoved), adding);
    Then(EMPTY, adding, Again(2, AddGuest), Redoing(ASKED, GONE, AGAIN_CLAIMED.(pc := Added(0, OFF_MARK)), true));
  }

  lemma ReinviteRecorded()
    requires Reaches(EMPTY, Redoing(ASKED, GONE, AGAIN_CLAIMED.(pc := Added(0, OFF_MARK)), true))
    ensures Reaches(EMPTY, Redoing(ASKED.(mark := Some(OFF_MARK.(reinvited := true))), GONE, INVITED, true))
  {
    hide Reaches, HasReinvite, Marked, Head, CanCal, TakeCal, CanMail, TakeMail, CanRequest, TakeRequest;
    var told := ASKED.(mark := Some(OFF_MARK.(reinvited := true)));
    var ending := Redoing(told, GONE, AGAIN_CLAIMED.(pc := ReinviteEnding(Finish), outcome := Invited), true);
    Then(EMPTY, Redoing(ASKED, GONE, AGAIN_CLAIMED.(pc := Added(0, OFF_MARK)), true), Again(2, RecordAdded), ending);
    Then(EMPTY, ending, Again(2, RecordReinvite), Redoing(told, GONE, INVITED, true));
  }

  /**
   The protocol to its end: a create counts on its email and is written quietly,
   the email is refused, its follow-up is queued, and the reinvite takes the guest
   off the event and has the provider invite them, once.
   */
  lemma RefusedEmailIsMadeUpFor() returns (s: State, run: seq<Act>, t: State)
    ensures Init(s) && Runs(s, run, t) && 0 in t.cal && 1 in t.mail && 2 in t.again
    ensures t.cal[0].whys == {EmailReplaces} && t.mail[1].status == Skipped && !t.mail[1].accepted
    ensures t.cal[0].reasked && t.cal[0].notices == 1 && t.guestOn && t.again[2].status == Done
  {
    s, t := EMPTY, Redoing(ASKED.(mark := Some(OFF_MARK.(reinvited := true))), GONE, INVITED, true);
    Starts();
    hide Init, Runs;
    CountsOnTheEmail();
    WritesOnIt();
    RefusedAndFollowedUp();
    QueuesAReinvite();
    ReinviteFindsItsChange();
    ReinviteFindsTheEvent();
    GuestOffAndOn();
    ReinviteRecorded();
    run :| Runs(s, run, t);
  }

  // A cancellation is heard of twice.

  const TO_DELETE := CalRow(Delete, Pending, false, Waiting, Some(MARK), None, {}, false, 0)
  const DELETING := TO_DELETE.(due := true, seen := Some(MARK), pc := Writing(EmailEnded))
  const FAREWELL := MailRow(Cancellation, Pending, Idle, true, false, false, false)
  const UNRECORDED := FAREWELL.(status := Failed, accepted := true, lost := true)

  function Cancelling(row: CalRow, mail: MailRow): State {
    State(true, false, false, map[0 := row], map[1 := mail], map[], 2, 0)
  }

  lemma CancellationQueued()
    ensures Reaches(EMPTY, Cancelling(TO_DELETE, FAREWELL))
  {
    Starts();
    hide Reaches, HasReinvite, Marked, Head, CanCal, TakeCal, CanMail, TakeMail, CanAgain, TakeAgain, Init;
    var row, mail := TO_DELETE.(mark := None), FAREWELL.(tagged := false);
    var off := EMPTY.(on := false);
    var queued := off.(cal := map[0 := row], next := 1);
    Then(EMPTY, EMPTY, Request(CancelBooking), off);
    Then(EMPTY, off, Request(QueueChange(Delete)), queued);
    Then(EMPTY, queued, Request(QueueMail(Cancellation)), Cancelling(row, mail));
    Then(EMPTY, Cancelling(row, mail), Request(Tag(1, Some(0))), Cancelling(TO_DELETE, FAREWELL));
  }

  /** The mail service takes the email, and the worker that sent it cannot record so. */
  lemma AcceptedUnrecorded()
    requires Reaches(EMPTY, Cancelling(TO_DELETE, FAREWELL))
    ensures Reaches(EMPTY, Cancelling(TO_DELETE, UNRECORDED))
  {
    hide Reaches, HasReinvite, Marked, Head, CanCal, TakeCal, CanAgain, TakeAgain, CanRequest, TakeRequest;
    var sending, sent := FAREWELL.(pc := Sending), FAREWELL.(pc := Accepted, accepted := true);
    var looking := sent.(pc := Finding(GiveUp), lost := true);
    var ending := looking.(pc := MailEnding(GiveUp));
    Then(EMPTY, Cancelling(TO_DELETE, FAREWELL), Mail(1, ClaimMail), Cancelling(TO_DELETE, sending));
    Then(EMPTY, Cancelling(TO_DELETE, sending), Mail(1, Accept), Cancelling(TO_DELETE, sent));
    Then(EMPTY, Cancelling(TO_DELETE, sent), Mail(1, RecordDoneFails(GiveUp)), Cancelling(TO_DELETE, looking));
    assert Marks(Cancelling(TO_DELETE, looking), 0, 1);
    Then(EMPTY, Cancelling(TO_DELETE, looking), Mail(1, FindChange(Some(0))), Cancelling(TO_DELETE, ending));
    Then(EMPTY, Cancelling(TO_DELETE, ending), Mail(1, RecordEnd), Cancelling(TO_DELETE, UNRECORDED));
  }

  lemma DeleteDecides()
    requires Reaches(EMPTY, Cancelling(TO_DELETE, UNRECORDED))
    ensures Reaches(EMPTY, Cancelling(DELETING, UNRECORDED))
  {
    hide Reaches, HasReinvite, Marked, CanMail, TakeMail, CanAgain, TakeAgain;
    var due := TO_DELETE.(due := true);
    var claimed := due.(seen := Some(MARK), pc := Started);
    var ready := Cancelling(claimed.(pc := Ready), UNRECORDED);
    Then(EMPTY, Cancelling(TO_DELETE, UNRECORDED), Request(FallDue(0)), Cancelling(due, UNRECORDED));
    Then(EMPTY, Cancelling(due, UNRECORDED), Cal(0, Claim), Cancelling(claimed, UNRECORDED));
    Then(EMPTY, Cancelling(claimed, UNRECORDED), Cal(0, CheckBooking), ready);
    Then(EMPTY, ready, Cal(0, Decide(false)), Cancelling(DELETING, UNRECORDED));
  }

  const CANCELLED := DELETING.(whys := {} + {EmailEnded}, pc := Ending(Finish))

  lemma CancelledLoudly()
    requires Reaches(EMPTY, Cancelling(DELETING, UNRECORDED))
    ensures Reaches(EMPTY, Cancelling(CANCELLED, UNRECORDED))
  {
    hide Reaches, HasReinvite, Marked, CanMail, TakeMail, CanAgain, TakeAgain, CanRequest, TakeRequest;
    Then(EMPTY, Cancelling(DELETING, UNRECORDED), Cal(0, Write(true, Finish)), Cancelling(CANCELLED, UNRECORDED));
  }

  /**
   A cancellation email that was accepted but could only be recorded as failed:
   the delete then has the provider cancel as well, and was never mid-send.
   */
  lemma LostRecordTellsTwice() returns (s: State, run: seq<Act>, t: State)
    ensures Init(s) && Runs(s, run, t) && 0 in t.cal && 1 in t.mail
    ensures t.cal[0].change == Delete && t.cal[0].mark.Some? && t.cal[0].mark.value.email == 1
    ensures ProviderTold(t, 0) && t.cal[0].whys == {EmailEnded} && t.mail[1].accepted && t.mail[1].lost
  {
    s, t := EMPTY, Cancelling(CANCELLED, UNRECORDED);
    Starts();
    CancellationQueued();
    AcceptedUnrecorded();
    DeleteDecides();
    CancelledLoudly();
    hide Runs, Init, Can, Take;
    run :| Runs(s, run, t);
    assert EmailEnded in t.cal[0].whys;
  }
}
