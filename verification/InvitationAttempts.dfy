/**
 How an attempt at a row begins, goes on and ends: in order, never stuck, cut
 short anywhere, and with nothing written or asked for a booking that is off.
 */
module InvitationAttempts {
  import opened Invitations
  import opened InvitationInvariant
  import opened InvitationDecisions

  // ---------------------------------------------------------- the claim

  /** A row that is due and not at rest for good: it holds back the booking's later ones. */
  ghost predicate HoldsBack(s: State, id: Id) {
    || (id in s.cal && s.cal[id].status == Pending && s.cal[id].due)
    || (id in s.again && s.again[id].status == Pending)
  }

  /**
   Exactly which calendar rows can be claimed: queued, due, in nobody's hands,
   and with none before them that holds them back.
   */
  lemma ClaimsExactly(s: State, c: Id)
    ensures CanCal(s, c, Claim) <==>
      && c in s.cal && s.cal[c].status == Pending && s.cal[c].pc == Waiting && s.cal[c].due
      && (forall id: nat :: HoldsBack(s, id) ==> id >= c)
  {
    assert forall d: nat :: d in s.cal && d < c && s.cal[d].status == Pending && s.cal[d].due ==> HoldsBack(s, d);
    assert forall r: nat :: r in s.again && r < c && s.again[r].status == Pending ==> HoldsBack(s, r);
  }

  lemma ReinviteClaimsExactly(s: State, i: Id)
    ensures CanAgain(s, i, ClaimReinvite) <==>
      && i in s.again && s.again[i].status == Pending && s.again[i].pc == Resting
      && (forall id: nat :: HoldsBack(s, id) ==> id >= i)
  {
    assert forall d: nat :: d in s.cal && d < i && s.cal[d].status == Pending && s.cal[d].due ==> HoldsBack(s, d);
    assert forall r: nat :: r in s.again && r < i && s.again[r].status == Pending ==> HoldsBack(s, r);
  }

  // ------------------------------------------------------- never stuck

  /** An attempt at a calendar row can always go on, throw, or die. */
  lemma CalGoesOn(s: State, c: Id, others: bool, lands: bool, end: End)
    requires c in s.cal && s.cal[c].pc != Waiting && (end == Retry || end == GiveUp)
    ensures CanCal(s, c, Die)
    ensures s.cal[c].pc.Ending? ==> CanCal(s, c, Record)
    ensures !s.cal[c].pc.Ending? ==> CanCal(s, c, Throw(end))
    ensures s.cal[c].pc == Started ==> CanCal(s, c, CheckBooking)
    ensures s.cal[c].pc == Ready ==> CanCal(s, c, Decide(others)) && CanCal(s, c, NothingToWrite)
    ensures s.cal[c].pc == Muting ==> CanCal(s, c, RecordMute)
    ensures s.cal[c].pc == Looking ==> CanCal(s, c, CountLook(end))
    ensures s.cal[c].pc == TakingBack ==> CanCal(s, c, TakeBack)
    ensures s.cal[c].pc == Rereading ==> CanCal(s, c, Reread)
    ensures s.cal[c].pc.Writing? ==> CanCal(s, c, Write(lands, end)) && CanCal(s, c, Write(lands, Finish))
  {
    hide Head;
  }

  lemma MailGoesOn(s: State, e: Id, end: End)
    requires e in s.mail && s.mail[e].pc != Idle && (end == Retry || end == GiveUp)
    ensures CanMail(s, e, MailDies)
    ensures s.mail[e].pc == Sending ==> CanMail(s, e, Accept) && CanMail(s, e, Refuse) && CanMail(s, e, SendFails(end))
    ensures s.mail[e].pc == Accepted ==> CanMail(s, e, RecordDone) && CanMail(s, e, RecordDoneFails(end))
    ensures s.mail[e].pc.Finding? ==> CanMail(s, e, FollowUpFails) && exists row :: CanMail(s, e, FindChange(row))
    ensures s.mail[e].pc.Checking? ==> CanMail(s, e, FollowUpFails) && CanMail(s, e, CheckLive)
    ensures s.mail[e].pc.Queueing? ==> CanMail(s, e, FollowUpFails) && CanMail(s, e, QueueReinvite)
    ensures s.mail[e].pc.MailEnding? ==> CanMail(s, e, RecordEnd)
  {
    if s.mail[e].pc.Finding? {
      if c :| c in s.cal && Marks(s, c, e) {
        assert CanMail(s, e, FindChange(Some(c)));
      } else {
        assert CanMail(s, e, FindChange(None));
      }
    }
  }

  lemma ReinviteGoesOn(s: State, i: Id, end: End, has: bool, former: Option<Status>)
    requires i in s.again && AgainOk(s, i) && s.again[i].pc != Resting && (end == Retry || end == GiveUp)
    ensures CanAgain(s, i, ReinviteDies)
    ensures s.again[i].pc.ReinviteEnding? ==> CanAgain(s, i, RecordReinvite)
    ensures !s.again[i].pc.ReinviteEnding? ==> CanAgain(s, i, ReinviteThrows(end))
    ensures s.again[i].pc == Claimed ==> CanAgain(s, i, CheckOn)
    ensures s.again[i].pc == Lookup ==> exists row :: CanAgain(s, i, FindMarked(row, end))
    ensures s.again[i].pc.MailCheck? ==> CanAgain(s, i, ReadMail(end, former))
    ensures s.again[i].pc.Targeting? ==> CanAgain(s, i, FindTarget(has))
    ensures s.again[i].pc.Removing? ==> CanAgain(s, i, RemoveGuest)
    ensures s.again[i].pc.Removed? ==> CanAgain(s, i, RecordRemoved)
    ensures s.again[i].pc.Adding? ==> CanAgain(s, i, AddGuest)
    ensures s.again[i].pc.Added? ==> CanAgain(s, i, RecordAdded)
  {
    hide Head, HasReinvite;
    if s.again[i].pc == Lookup {
      if c :| c in s.cal && Marks(s, c, s.again[i].email) {
        assert CanAgain(s, i, FindMarked(Some(c), end));
      } else {
        assert CanAgain(s, i, FindMarked(None, end));
      }
    }
  }

  // ---------------------------------------------------------- the ends

  /**
   A calendar attempt that throws, or looks once more, is tried again or given
   up; what it wrote and recorded stays.
   */
  lemma CutShortIsRetried(s: State, c: Id, a: CalAct)
    requires CanCal(s, c, a) && (a.Throw? || a.CountLook?) && CalOk(s, c)
    ensures var row, after := s.cal[c], TakeCal(s, c, a).cal[c];
      && after.pc in {Ending(Retry), Ending(GiveUp)} && after.pc == Ending(a.end)
      && after.status == row.status && after.whys == row.whys
      && (a.Throw? ==> after.mark == row.mark)
  {
    hide Head;
  }

  /** How an attempt ends: as it is recorded, or, if its worker died, as it began. */
  lemma AttemptEnds(s: State, c: Id, a: CalAct)
    requires CanCal(s, c, a) && (a in {Record, Die, NothingToWrite} || a.Write?)
    ensures var row, after := s.cal[c], TakeCal(s, c, a).cal[c];
      match a
      case Record =>
        after == row.(pc := Waiting, status := match row.pc.end
                        case Finish => Done
                        case GiveUp => Failed
                        case Skip => Skipped
                        case Retry => Pending)
      case Die => after == row.(pc := Waiting)
      case NothingToWrite => after == row.(pc := Ending(Finish))
      case Write(lands, end) =>
        && after == row.(pc := Ending(end), whys := if lands then row.whys + {row.pc.why} else row.whys) && end != Skip
        && TakeCal(s, c, a).guestOn == (s.guestOn || (lands && row.change != Delete))
      case _ => true
  {
    hide Head;
  }

  /**
   An email: sent once it is recorded so; refused or given up, it goes on to its
   follow-up; put off, or with its follow-up failing, it stays queued; and so it
   does when its worker dies.
   */
  lemma EmailEnds(s: State, e: Id, a: MailAct)
    requires CanMail(s, e, a) && MailOk(s, e)
    ensures var row, after := s.mail[e], TakeMail(s, e, a).mail[e];
      match a
      case Accept => after.pc == Accepted && after.accepted && after.status == Pending
      case Refuse => after.pc == Finding(Skip) && after.status == Pending
      case SendFails(end) => after.pc == (if end == GiveUp then Finding(GiveUp) else MailEnding(Retry))
        && end in {Retry, GiveUp}
      case RecordDone => after.status == Done && after.pc == Idle
      case RecordDoneFails(end) => after.pc == (if end == GiveUp then Finding(GiveUp) else MailEnding(Retry))
        && end in {Retry, GiveUp}
      case FollowUpFails => after.pc == MailEnding(Retry)
      case RecordEnd => after.pc == Idle && after.status == (match row.pc.end
        case Finish => Done
        case GiveUp => Failed
        case Skip => Skipped
        case Retry => Pending)
      case MailDies => after.pc == Idle && after.status == row.status && after.accepted == row.accepted
      case _ => true
  {
    hide HasReinvite, Marked, Marks;
  }

  /** An unsent email's follow-up: only a create's or a move's, only while the booking is on, and then one reinvite. */
  lemma FollowsUpExactly(s: State, e: Id, a: MailAct)
    requires CanMail(s, e, a) && MailOk(s, e)
    ensures var row, t := s.mail[e], TakeMail(s, e, a);
      match a
      case FindChange(found) =>
        t.mail[e].pc == (if row.kind != Cancellation && found.Some? && s.cal[found.value].change != Delete
                         then Checking(row.pc.end) else MailEnding(row.pc.end))
      case CheckLive => t.mail[e].pc == if s.on then Queueing(row.pc.end) else MailEnding(row.pc.end)
      case QueueReinvite =>
        && t.mail[e].pc == MailEnding(row.pc.end)
        && t.again == (if exists r :: r in s.again && s.again[r].email == e then s.again
                       else s.again[s.next := Reinvite(e, Pending, false, Resting, Unsettled)])
      case _ => t.again == s.again
  {
  }

  /** How an attempt at a reinvite ends; thrown, it is tried again or given up. */
  lemma ReinviteEnds(s: State, i: Id, a: ReinviteAct)
    requires CanAgain(s, i, a) && (a in {RecordReinvite, ReinviteDies, RecordAdded} || a.ReinviteThrows?)
    ensures var row, t := s.again[i], TakeAgain(s, i, a);
      match a
      case RecordReinvite =>
        t.again[i] == row.(pc := Resting, status := match row.pc.end
                             case Finish => Done
                             case GiveUp => Failed
                             case Skip => Skipped
                             case Retry => Pending)
      case ReinviteDies => t.again[i] == row.(pc := Resting)
      case ReinviteThrows(end) => t.again[i] == row.(pc := ReinviteEnding(end)) && end in {Retry, GiveUp}
      case RecordAdded => t.again[i].pc == ReinviteEnding(Finish)
      case _ => true
  {
    hide Head, Marks;
  }

  /** What a reinvite makes of the change it finds, and of its email's status: nothing, wait, or go on. */
  lemma ReinviteReadsExactly(s: State, i: Id, a: ReinviteAct)
    requires CanAgain(s, i, a) && AgainOk(s, i)
    ensures var row, pc := s.again[i], TakeAgain(s, i, a).again[i].pc;
      match a
      case CheckOn => pc == if s.on then Lookup else ReinviteEnding(Skip)
      case FindMarked(found, end) =>
        if found.None? || s.cal[found.value].change == Delete then pc == ReinviteEnding(Finish)
        else
          var change := s.cal[found.value];
          var owed := Muted(change) && !change.mark.value.reinvited;
          && (change.status == Pending ==> pc == ReinviteEnding(end))
          && (change.status != Pending ==>
              pc == if owed then MailCheck(found.value, change.mark.value) else ReinviteEnding(Finish))
      case ReadMail(end, former) =>
        var status := if row.email < s.first then former
                      else if row.email in s.mail then Some(s.mail[row.email].status) else None;
        pc == (if status == Some(Done) then ReinviteEnding(Finish)
               else if status == Some(Pending) then ReinviteEnding(end)
               else Targeting(row.pc.c, row.pc.m))
      case _ => true
  {
    hide Head, HasReinvite, Marked;
  }

  /** What the requests leave: a row queued and not yet due, an email queued, one of them marked by the other. */
  lemma RequestsLeave(s: State, a: RequestAct)
    requires CanRequest(s, a)
    ensures var t := TakeRequest(s, a);
      match a
      case QueueChange(change) =>
        t == s.(next := s.next + 1,
                cal := s.cal[s.next := CalRow(change, Pending, false, Waiting, None, None, {}, false, 0)])
      case CancelBooking => t == s.(on := false)
      case QueueMail(kind) => s.next in t.mail && t.mail[s.next].kind == kind && t.mail[s.next].status == Pending
        && !t.mail[s.next].tagged
      case Tag(e, row) =>
        && t.mail == s.mail[e := s.mail[e].(tagged := true)]
        && (row.Some? ==> t.cal == s.cal[row.value := s.cal[row.value].(mark := Some(Mark(e, false, 0, false, false)))])
      case DropMail(e) => t == s.(mail := map f | f in s.mail && f != e :: s.mail[f])
      case FallDue(c) => t == s.(cal := s.cal[c := s.cal[c].(due := true)])
  {
  }

  // ------------------------------------------------ once the booking is off

  /** The attempt, if there is one, has not got past its look at the booking. */
  predicate NotBegun(row: CalRow) { row.pc == Waiting || row.pc == Started || row.pc.Ending? }

  lemma CalOff(s: State, d: Id, a: CalAct, c: Id)
    requires CanCal(s, d, a) && !s.on && c in s.cal && s.cal[c].change != Delete && NotBegun(s.cal[c])
    ensures var t := TakeCal(s, d, a);
      && !t.on && c in t.cal && t.cal[c].change == s.cal[c].change && NotBegun(t.cal[c])
        && t.cal[c].whys == s.cal[c].whys
  {
    hide Head, Decision;
  }

  lemma RequestOff(s: State, a: RequestAct, c: Id)
    requires CanRequest(s, a) && !s.on && c in s.cal && c != s.next
    ensures var t := TakeRequest(s, a);
      !t.on && c in t.cal && t.cal[c].change == s.cal[c].change && t.cal[c].pc == s.cal[c].pc
        && t.cal[c].whys == s.cal[c].whys
  {
  }

  lemma AgainOff(s: State, i: Id, a: ReinviteAct, c: Id)
    requires CanAgain(s, i, a) && c in s.cal
    ensures var t := TakeAgain(s, i, a);
      t.on == s.on && c in t.cal && t.cal[c].change == s.cal[c].change && t.cal[c].pc == s.cal[c].pc
        && t.cal[c].whys == s.cal[c].whys
  {
    hide Head, AgainAfter;
  }

  lemma StepOff(s: State, a: Act, c: Id)
    requires Inv(s) && Can(s, a) && !s.on && c in s.cal && s.cal[c].change != Delete && NotBegun(s.cal[c])
    ensures var t := Take(s, a);
      && !t.on && c in t.cal && t.cal[c].change == s.cal[c].change && NotBegun(t.cal[c])
        && t.cal[c].whys == s.cal[c].whys
  {
    Fresh(s);
    hide Inv, CanRequest, TakeRequest, CanCal, TakeCal, CanAgain, TakeAgain, CanMail, MailAfter, HasReinvite;
    match a {
      case Request(r) => RequestOff(s, r, c);
      case Cal(d, x) => CalOff(s, d, x, c);
      case Mail(_, _) =>
      case Again(i, x) => AgainOff(s, i, x, c);
    }
  }

  /**
   Once a booking is off, a create or a move that has not begun is never written,
   whatever happens and however often it is tried.
   */
  lemma {:induction false} OffIsNotWritten(s: State, run: seq<Act>, t: State, c: Id)
    requires Inv(s) && Runs(s, run, t) && !s.on && c in s.cal && s.cal[c].change != Delete && NotBegun(s.cal[c])
    ensures c in t.cal && t.cal[c].whys == s.cal[c].whys
    decreases |run|
  {
    if run != [] {
      StepOff(s, run[0], c);
      StepKeepsInv(s, run[0]);
      OffIsNotWritten(Take(s, run[0]), run[1..], t, c);
    }
  }

  /** A calendar row is skipped only for a booking that is off, and a delete never is. */
  predicate SkipsOnlyOff(s: State) {
    forall c :: c in s.cal && (s.cal[c].status == Skipped || s.cal[c].pc == Ending(Skip)) ==>
      !s.on && s.cal[c].change != Delete
  }

  lemma StepSkips(s: State, a: Act)
    requires Can(s, a) && SkipsOnlyOff(s)
    ensures SkipsOnlyOff(Take(s, a))
  {
    hide CanRequest, TakeRequest, CanCal, TakeCal, CanAgain, TakeAgain, CanMail, MailAfter, HasReinvite;
    match a {
      case Request(r) => RequestSkips(s, r);
      case Cal(d, x) => CalSkips(s, d, x);
      case Mail(_, _) =>
      case Again(i, x) => AgainSkips(s, i, x);
    }
  }

  lemma RequestSkips(s: State, a: RequestAct)
    requires CanRequest(s, a) && SkipsOnlyOff(s)
    ensures SkipsOnlyOff(TakeRequest(s, a))
  {
  }

  lemma CalSkips(s: State, d: Id, a: CalAct)
    requires CanCal(s, d, a) && SkipsOnlyOff(s)
    ensures SkipsOnlyOff(TakeCal(s, d, a))
  {
    hide CalAfter, Head, Decision, TakesBack;
    CalRowSkips(s, d, a);
  }

  lemma CalRowSkips(s: State, d: Id, a: CalAct)
    requires CanCal(s, d, a) && SkipsOnlyOff(s)
    ensures var row := TakeCal(s, d, a).cal[d];
      row.status == Skipped || row.pc == Ending(Skip) ==> !s.on && row.change != Delete
  {
    if a.Decide? || a == Reread || a == TakeBack { DecidingSkipsNothing(s, d, a); } else { hide Head, Decision; }
  }

  lemma DecidingSkipsNothing(s: State, d: Id, a: CalAct)
    requires CanCal(s, d, a) && (a.Decide? || a == Reread || a == TakeBack)
    ensures var row := TakeCal(s, d, a).cal[d];
      row.pc != Ending(Skip) && row.status == s.cal[d].status && row.change == s.cal[d].change
  {
  }

  lemma AgainSkips(s: State, i: Id, a: ReinviteAct)
    requires CanAgain(s, i, a) && SkipsOnlyOff(s)
    ensures SkipsOnlyOff(TakeAgain(s, i, a))
  {
    hide Head, AgainAfter;
  }

  lemma {:induction false} SkippedOnlyOff(s: State, run: seq<Act>, t: State)
    requires SkipsOnlyOff(s) && Runs(s, run, t)
    ensures SkipsOnlyOff(t)
    decreases |run|
  {
    if run != [] {
      StepSkips(s, run[0]);
      SkippedOnlyOff(Take(s, run[0]), run[1..], t);
    }
  }

  /** No reinvite has got past its look at the booking. */
  predicate NoneAsking(s: State) {
    forall i :: i in s.again ==>
      s.again[i].pc == Resting || s.again[i].pc == Claimed || s.again[i].pc.ReinviteEnding?
  }

  lemma OwnStepOff(s: State, i: Id, a: ReinviteAct)
    requires CanAgain(s, i, a) && !s.on && NoneAsking(s)
    ensures NoneAsking(TakeAgain(s, i, a)) && !TakeAgain(s, i, a).on && TakeAgain(s, i, a).cal == s.cal
  {
    hide Head, Marks;
  }

  lemma CalStepOff(s: State, d: Id, a: CalAct, c: Id)
    requires CanCal(s, d, a)
    ensures TakeCal(s, d, a).again == s.again && TakeCal(s, d, a).on == s.on
    ensures c in TakeCal(s, d, a).cal ==> c in s.cal && TakeCal(s, d, a).cal[c].reasked == s.cal[c].reasked
  {
    CalLeavesThem(s, d, a);
    if c in TakeCal(s, d, a).cal { CalReasks(s, d, a, c); }
    hide Head, CalAfter;
  }

  lemma RequestStepOff(s: State, a: RequestAct, c: Id)
    requires CanRequest(s, a) && !s.on
    ensures TakeRequest(s, a).again == s.again && !TakeRequest(s, a).on
    ensures c in TakeRequest(s, a).cal && TakeRequest(s, a).cal[c].reasked ==> c in s.cal && s.cal[c].reasked
  {
  }

  lemma StepAsksNobody(s: State, a: Act, c: Id)
    requires Can(s, a) && !s.on && NoneAsking(s)
    ensures NoneAsking(Take(s, a)) && !Take(s, a).on
    ensures c in Take(s, a).cal && Take(s, a).cal[c].reasked ==> c in s.cal && s.cal[c].reasked
  {
    hide CanRequest, TakeRequest, CanCal, TakeCal, CanAgain, TakeAgain, CanMail, MailAfter, HasReinvite;
    match a {
      case Request(r) => RequestStepOff(s, r, c);
      case Cal(d, x) => CalStepOff(s, d, x, c);
      case Mail(_, _) =>
      case Again(i, x) => OwnStepOff(s, i, x);
    }
  }

  /** Once a booking is off and no reinvite is under way, nobody is invited after all. */
  lemma {:induction false} OffIsNotReinvited(s: State, run: seq<Act>, t: State, c: Id)
    requires Runs(s, run, t) && !s.on && NoneAsking(s) && c in t.cal && t.cal[c].reasked
    ensures c in s.cal && s.cal[c].reasked
    decreases |run|
  {
    if run != [] {
      StepKeepsNobody(s, run[0]);
      OffIsNotReinvited(Take(s, run[0]), run[1..], t, c);
      StepAsksNobody(s, run[0], c);
    }
  }

  lemma StepKeepsNobody(s: State, a: Act)
    requires Can(s, a) && !s.on && NoneAsking(s)
    ensures NoneAsking(Take(s, a)) && !Take(s, a).on
  {
    StepAsksNobody(s, a, 0);
  }
}
