/**
 What the decisions of the invitation protocol rest on: when a calendar write is
 quiet, what a delete does while its email is queued, and what a reinvite makes
 of what it finds. Each for the step itself, then for whole runs.
 */
module InvitationDecisions {
  import opened Invitations
  import opened InvitationInvariant

  // ------------------------------------------------ quiet, loud or later

  /** An earlier attempt at a create or a move recorded that it is written quietly. */
  predicate QuietForGood(row: CalRow) { row.change != Delete && Muted(row) }

  /** The email that marked the row has this status. */
  predicate MarkedBy(s: State, row: CalRow, status: Status) {
    row.mark.Some? && row.mark.value.email in s.mail && s.mail[row.mark.value.email].status == status
  }

  /**
   Whatever its email: with other guests on the booking, or a transport that
   does not deliver, or no mark, the provider invites. Nobody else tells them.
   */
  lemma OthersHearFromTheProvider(s: State, c: Id, others: bool)
    requires CanCal(s, c, Decide(others)) && CalOk(s, c) && !QuietForGood(s.cal[c])
    requires others || !s.delivers || s.cal[c].mark.None?
    ensures var pc := TakeCal(s, c, Decide(others)).cal[c].pc; pc.Writing? && Loud(pc.why)
  {
  }

  /** Exactly when a row is written quietly, waits for its email, takes it back, or has the provider invite, and why. */
  lemma DecidesExactly(s: State, c: Id, others: bool)
    requires CanCal(s, c, Decide(others)) && CalOk(s, c)
    ensures var row, pc := s.cal[c], TakeCal(s, c, Decide(others)).cal[c].pc;
      var queued, sent := MarkedBy(s, row, Pending), MarkedBy(s, row, Done);
      if QuietForGood(row) then pc == Writing(EmailReplaces)
      else
        && (pc == Writing(OtherGuests) <==> others)
        && (pc == Writing(NoTransport) <==> !others && !s.delivers)
        && (pc == Writing(Untagged) <==> !others && s.delivers && row.mark.None?)
        && (pc == Writing(EmailEnded) <==> !others && s.delivers && row.mark.Some? && !queued && !sent)
        && (pc == Muting <==> !others && s.delivers && (sent || (queued && row.change != Delete)))
        && (pc == Looking <==> !others && s.delivers && queued && row.change == Delete && row.mark.value.looks < 3)
        && (pc == TakingBack <==> !others && s.delivers && queued && row.change == Delete && row.mark.value.looks >= 3)
  {
  }

  /**
   An email that could not be taken back: it is looked at again six times in all,
   and decides as it has ended by then.
   */
  lemma RereadsExactly(s: State, c: Id)
    requires CanCal(s, c, Reread) && CalOk(s, c)
    ensures var row, pc := s.cal[c], TakeCal(s, c, Reread).cal[c].pc;
      var queued := MarkedBy(s, row, Pending);
      && (pc == Looking <==> queued && row.mark.value.looks < 6)
      && (pc == Writing(MidSend) <==> queued && row.mark.value.looks >= 6)
      && (pc == Muting <==> MarkedBy(s, row, Done))
      && (pc == Writing(EmailEnded) <==> !queued && !MarkedBy(s, row, Done))
  {
  }

  /** A delete takes back exactly an email still queued that nobody is sending, which then ends unsent. */
  lemma TakesBackExactly(s: State, c: Id)
    requires CanCal(s, c, TakeBack) && CalOk(s, c)
    ensures var row, t := s.cal[c], TakeCal(s, c, TakeBack);
      && row.mark.Some?
      && var e := row.mark.value.email;
         if MarkedBy(s, row, Pending) && s.mail[e].pc == Idle then
           t.cal[c].pc == Writing(TookBack) && t.mail == s.mail[e := s.mail[e].(status := Skipped)]
         else t.cal[c].pc == Rereading && t.mail == s.mail
  {
    TakenBack(s, c);
  }

  /** The row is written quietly, or on its way there. */
  predicate Quieting(row: CalRow) {
    Muted(row) || Wrote(row, EmailReplaces) || row.pc in {Muting, Looking, TakingBack, Rereading}
  }

  lemma CalQuiets(s: State, c: Id, a: CalAct)
    requires CanCal(s, c, a) && CalOk(s, c) && Quieting(TakeCal(s, c, a).cal[c]) && !Quieting(s.cal[c])
    ensures a == Decide(false) && s.delivers
  {
    hide HasReinvite, Head;
  }

  lemma RequestQuiets(s: State, a: RequestAct, c: Id)
    requires CanRequest(s, a) && c in TakeRequest(s, a).cal && Quieting(TakeRequest(s, a).cal[c])
    ensures c in s.cal && Quieting(s.cal[c])
  {
  }

  lemma AgainQuiets(s: State, i: Id, a: ReinviteAct, c: Id)
    requires CanAgain(s, i, a) && AgainOk(s, i) && c in TakeAgain(s, i, a).cal && Quieting(TakeAgain(s, i, a).cal[c])
    ensures c in s.cal && Quieting(s.cal[c])
  {
    hide HasReinvite, Head, Marked;
  }

  lemma CalTouchesOne(s: State, d: Id, a: CalAct, c: Id)
    requires Inv(s) && CanCal(s, d, a)
    ensures d in s.cal && CalOk(s, d)
    ensures c in TakeCal(s, d, a).cal ==> c in s.cal && (c != d ==> TakeCal(s, d, a).cal[c] == s.cal[c])
  {
    hide CalOk, CalAfter;
  }

  /**
   Only the decision itself, with no other guest and a transport that delivers,
   sets a row on its way to a quiet write.
   */
  lemma StepQuiets(s: State, a: Act, c: Id)
    requires Inv(s) && Can(s, a) && c in Take(s, a).cal && Quieting(Take(s, a).cal[c])
      && !(c in s.cal && Quieting(s.cal[c]))
    ensures a == Cal(c, Decide(false)) && s.delivers
  {
    hide Inv, CanRequest, TakeRequest, CanCal, TakeCal, CanAgain, TakeAgain, CanMail, MailAfter, CalOk, AgainOk,
      Quieting;
    match a {
      case Request(r) => RequestQuiets(s, r, c);
      case Cal(d, x) =>
        CalTouchesOne(s, d, x, c);
        if c == d { CalQuiets(s, c, x); }
      case Mail(_, _) =>
      case Again(i, x) =>
        ItsOwnStep(s, i, x);
        ReinviteOk(s, i);
        AgainQuiets(s, i, x, c);
    }
  }

  lemma Delivers(s: State, a: Act)
    requires Can(s, a)
    ensures Take(s, a).delivers == s.delivers
  {
    match a {
      case Request(r) => assert TakeRequest(s, r).delivers == s.delivers by { hide CanRequest; }
      case Cal(c, x) => assert TakeCal(s, c, x).delivers == s.delivers by { hide CanCal, CalAfter; }
      case Mail(e, x) => assert TakeMail(s, e, x).delivers == s.delivers by { hide CanMail, MailAfter, HasReinvite; }
      case Again(i, x) => assert TakeAgain(s, i, x).delivers == s.delivers by { hide CanAgain, AgainAfter; }
    }
  }

  lemma {:induction false} QuietComesFromADecision(s: State, run: seq<Act>, t: State, c: Id)
    requires Inv(s) && Runs(s, run, t) && c in t.cal && Quieting(t.cal[c]) && !(c in s.cal && Quieting(s.cal[c]))
    ensures s.delivers && t.delivers == s.delivers && Cal(c, Decide(false)) in run
    decreases |run|
  {
    if run != [] {
      var m := Take(s, run[0]);
      StepKeepsInv(s, run[0]);
      Delivers(s, run[0]);
      if c in m.cal && Quieting(m.cal[c]) {
        StepQuiets(s, run[0], c);
        SameTransport(m, run[1..], t);
      } else {
        QuietComesFromADecision(m, run[1..], t, c);
      }
    }
  }

  lemma {:induction false} SameTransport(s: State, run: seq<Act>, t: State)
    requires Runs(s, run, t)
    ensures t.delivers == s.delivers
    decreases |run|
  {
    if run != [] {
      Delivers(s, run[0]);
      SameTransport(Take(s, run[0]), run[1..], t);
    }
  }

  /**
   Over every run: a row is written quietly only on a transport that delivers,
   and only after a decision taken with no other guest on the booking; unless it
   was inherited quiet already.
   */
  lemma QuietWriteIsDecided(s: State, run: seq<Act>, t: State, c: Id)
    requires Init(s) && Runs(s, run, t) && c in t.cal && EmailReplaces in t.cal[c].whys
    requires !(c in s.cal && Muted(s.cal[c]))
    ensures t.delivers && Cal(c, Decide(false)) in run
  {
    InitKeepsInv(s);
    assert c in s.cal ==> CalCame(s, s.cal[c]);
    QuietComesFromADecision(s, run, t, c);
  }

  // -------------------------------------------------------- the reinvite

  /**
   What reinvite `i`'s last attempt found, if it got so far: an event with
   somebody besides the guest on it, or none.
   */
  function Found(run: seq<Act>, i: Id, before: Option<bool>): Option<bool> {
    if run == [] then before else Found(run[1..], i, FoundAfter(run[0], i, before))
  }

  function FoundAfter(a: Act, i: Id, before: Option<bool>): Option<bool> {
    if !a.Again? || a.i != i then before
    else if a.g == ClaimReinvite then None
    else if a.g.FindTarget? then Some(a.g.has)
    else before
  }

  /** The attempt has not looked for an event yet. */
  predicate Seeking(row: Reinvite) { row.pc in {Claimed, Lookup} || row.pc.MailCheck? || row.pc.Targeting? }

  /** The attempt works on the event it found. */
  predicate Working(row: Reinvite) { row.pc.Removing? || row.pc.Removed? || row.pc.Adding? || row.pc.Added? }

  /** The attempt's account agrees with what it found. */
  predicate AgreesWith(row: Reinvite, found: Option<bool>) {
    && (Seeking(row) ==> found == None)
    && (Working(row) ==> found == Some(true))
    && (Seeking(row) || Working(row) ==> row.outcome == Unsettled)
    && (row.outcome == Nothing ==> found == None)
    && (row.outcome == NoTarget ==> found == Some(false))
    && (row.outcome == Invited ==> found == Some(true))
  }

  lemma AgainAgrees(s: State, i: Id, a: ReinviteAct, found: Option<bool>)
    requires CanAgain(s, i, a) && AgreesWith(s.again[i], found)
    ensures AgreesWith(TakeAgain(s, i, a).again[i], FoundAfter(Again(i, a), i, found))
  {
    hide Head, Marks;
  }

  lemma RequestsLeaveThem(s: State, r: RequestAct)
    requires CanRequest(s, r)
    ensures TakeRequest(s, r).again == s.again
  {
  }

  lemma CalLeavesThem(s: State, c: Id, a: CalAct)
    requires CanCal(s, c, a)
    ensures TakeCal(s, c, a).again == s.again
  {
    hide Head, CalAfter;
  }

  lemma MailQueuesOne(s: State, e: Id, a: MailAct)
    requires CanMail(s, e, a)
    ensures var again := TakeMail(s, e, a).again;
      again == s.again || again == s.again[s.next := Reinvite(e, Pending, false, Resting, Unsettled)]
  {
    hide MailAfter, Marks;
  }

  lemma AgainTouchesOne(s: State, i: Id, a: ReinviteAct)
    requires CanAgain(s, i, a)
    ensures TakeAgain(s, i, a).again == s.again[i := TakeAgain(s, i, a).again[i]]
  {
    hide AgainAfter, Head, Marks;
  }

  /** A step that is not reinvite `i`'s leaves it alone, or queues it. */
  lemma OthersLeaveIt(s: State, a: Act, i: Id)
    requires Can(s, a) && !(a.Again? && a.i == i)
    ensures i in s.again ==> i in Take(s, a).again && (i == s.next || Take(s, a).again[i] == s.again[i])
    ensures i !in s.again && i in Take(s, a).again ==>
      Take(s, a).again[i].pc == Resting && Take(s, a).again[i].outcome == Unsettled
  {
    hide CanRequest, TakeRequest, CanCal, TakeCal, CanMail, TakeMail, CanAgain, TakeAgain;
    match a {
      case Request(r) => RequestsLeaveThem(s, r);
      case Cal(c, x) => CalLeavesThem(s, c, x);
      case Mail(e, x) => MailQueuesOne(s, e, x);
      case Again(j, x) => AgainTouchesOne(s, j, x);
    }
  }

  lemma StepAgrees(s: State, a: Act, i: Id, found: Option<bool>)
    requires s.next !in s.again && Can(s, a) && (if i in s.again then AgreesWith(s.again[i], found) else found == None)
    ensures if i in Take(s, a).again then AgreesWith(Take(s, a).again[i], FoundAfter(a, i, found))
            else FoundAfter(a, i, found) == None
  {
    hide Can, Take, AgreesWith, CanAgain, TakeAgain;
    if a.Again? && a.i == i {
      ItsOwnStep(s, i, a.g);
      AgainAgrees(s, i, a.g, found);
    } else {
      OthersLeaveIt(s, a, i);
      if i !in s.again && i in Take(s, a).again { FreshAgrees(Take(s, a).again[i]); }
    }
  }

  lemma FreshAgrees(row: Reinvite)
    requires row.pc == Resting && row.outcome == Unsettled
    ensures AgreesWith(row, None)
  {
  }

  lemma ItsOwnStep(s: State, i: Id, a: ReinviteAct)
    requires Can(s, Again(i, a))
    ensures i in s.again && CanAgain(s, i, a) && Take(s, Again(i, a)) == TakeAgain(s, i, a)
      && i in TakeAgain(s, i, a).again
  {
    hide AgainAfter;
  }

  lemma {:induction false} RunAgrees(s: State, run: seq<Act>, t: State, i: Id, found: Option<bool>)
    requires Inv(s) && Runs(s, run, t) && (if i in s.again then AgreesWith(s.again[i], found) else found == None)
    ensures i in t.again ==> AgreesWith(t.again[i], Found(run, i, found))
    decreases |run|
  {
    if run != [] {
      Fresh(s);
      StepAgrees(s, run[0], i, found);
      StepKeepsInv(s, run[0]);
      RunAgrees(Take(s, run[0]), run[1..], t, i, FoundAfter(run[0], i, found));
    }
  }

  /**
   Over every run, a reinvite that is done: one that found no event to invite
   from ended with that; one that found an event has asked the provider to
   invite, and recorded so; one that looked for none had nothing to do.
   */
  lemma DoneAsFound(s: State, run: seq<Act>, t: State, i: Id)
    requires Init(s) && Runs(s, run, t) && i in t.again && t.again[i].status == Done
    ensures t.again[i].outcome == match Found(run, i, None)
      case None => Nothing
      case Some(has) => if has then Invited else NoTarget
    ensures Found(run, i, None) == Some(true) ==> forall c :: Marks(t, c, t.again[i].email) ==>
      t.cal[c].reasked && t.cal[c].mark.value.reinvited
  {
    InitKeepsInv(s);
    assert i in s.again ==> AgainCame(s, i);
    RunAgrees(s, run, t, i, None);
    RunKeepsInv(s, run, t);
    assert AgainOk(t, i);
    forall c | Marks(t, c, t.again[i].email) ensures t.cal[c].mark.value.reinvited ==> t.cal[c].reasked {
      assert NoticesOk(t, c);
    }
  }

  /** An event found is worked on: the guest is taken off it, unless that is done, then put back; none found ends it. */
  lemma FindsExactly(s: State, i: Id, has: bool)
    requires CanAgain(s, i, FindTarget(has))
    ensures var c, m, pc := s.again[i].pc.c, s.again[i].pc.m, TakeAgain(s, i, FindTarget(has)).again[i].pc;
      && (pc == Removing(c, m) <==> has && !m.removed)
      && (pc == Adding(c, m) <==> has && m.removed)
      && (pc == ReinviteEnding(Finish) <==> !has)
  {
  }

  /** The email never went out, as far as this booking's own emails go. */
  predicate Unsent(s: State, e: Id) { e < s.first || (e in s.mail ==> Over(s.mail[e])) }

  predicate Asking(row: Reinvite) {
    row.pc.Targeting? || row.pc.Removing? || row.pc.Removed? || row.pc.Adding? || row.pc.Added?
  }

  /** Only for a change written quietly whose email ended unsent is the provider asked. */
  ghost predicate AsksForTheUnsent(s: State) {
    && (forall i :: i in s.again && Asking(s.again[i]) ==> Unsent(s, s.again[i].email))
    && (forall c :: c in s.cal && s.cal[c].reasked ==>
          s.cal[c].mark.Some? && Muted(s.cal[c]) && Unsent(s, s.cal[c].mark.value.email))
  }

  lemma UnsentStays(s: State, a: Act, e: Id)
    requires Inv(s) && Can(s, a) && Unsent(s, e) && e < s.next
    ensures Unsent(Take(s, a), e)
  {
    var _ := StepEvolves(s, a);
  }

  lemma AgainAsks(s: State, i: Id, a: ReinviteAct)
    requires CanAgain(s, i, a) && AgainOk(s, i) && (Asking(s.again[i]) ==> Unsent(s, s.again[i].email))
    requires Asking(TakeAgain(s, i, a).again[i]) && (s.again[i].email in s.mail ==> MailOk(s, s.again[i].email))
    ensures TakeAgain(s, i, a).again[i].email == s.again[i].email && Unsent(s, s.again[i].email)
  {
    hide Head, HasReinvite, Marked;
  }

  lemma StepAsks(s: State, a: Act)
    requires Inv(s) && Can(s, a) && AsksForTheUnsent(s)
    ensures AsksForTheUnsent(Take(s, a))
  {
    var t := Take(s, a);
    var _ := StepEvolves(s, a);
    forall i | i in t.again && Asking(t.again[i]) ensures Unsent(t, t.again[i].email) {
      StepAsksOf(s, a, i);
      assert AgainOk(s, i);
      UnsentStays(s, a, s.again[i].email);
    }
    forall c | c in t.cal && t.cal[c].reasked
      ensures t.cal[c].mark.Some? && Muted(t.cal[c]) && Unsent(t, t.cal[c].mark.value.email)
    {
      StepReasks(s, a, c);
      assert CalOk(s, c);
      UnsentStays(s, a, s.cal[c].mark.value.email);
    }
  }

  lemma StepAsksOf(s: State, a: Act, i: Id)
    requires Inv(s) && Can(s, a) && AsksForTheUnsent(s) && i in Take(s, a).again && Asking(Take(s, a).again[i])
    ensures i in s.again && Take(s, a).again[i].email == s.again[i].email && Unsent(s, s.again[i].email)
  {
    Fresh(s);
    hide Inv, Can, Take, AgainOk, MailOk, HasReinvite;
    if a.Again? && a.i == i {
      ItsOwnStep(s, i, a.g);
      ReinviteOk(s, i);
      EmailIsOk(s, s.again[i].email);
      AgainAsks(s, i, a.g);
    } else {
      OthersLeaveIt(s, a, i);
    }
  }

  lemma EmailIsOk(s: State, e: Id)
    requires Inv(s)
    ensures e in s.mail ==> MailOk(s, e)
  {
  }

  lemma CalReasks(s: State, c: Id, a: CalAct, d: Id)
    requires CanCal(s, c, a) && d in TakeCal(s, c, a).cal
    ensures d in s.cal && TakeCal(s, c, a).cal[d].reasked == s.cal[d].reasked
  {
    hide Head, Decision;
  }

  lemma RequestReasks(s: State, a: RequestAct, d: Id)
    requires CanRequest(s, a) && d in TakeRequest(s, a).cal && TakeRequest(s, a).cal[d].reasked
    ensures d in s.cal && s.cal[d].reasked
  {
  }

  /** The guest is put back only by a reinvite whose change is muted. */
  lemma AgainReasks(s: State, i: Id, a: ReinviteAct, d: Id)
    requires CanAgain(s, i, a) && AgainOk(s, i) && d in TakeAgain(s, i, a).cal && TakeAgain(s, i, a).cal[d].reasked
    ensures d in s.cal
    ensures s.cal[d].reasked || (Asking(s.again[i]) && Marks(s, d, s.again[i].email) && Muted(s.cal[d]))
  {
    hide Head, HasReinvite, Marked;
  }

  lemma StepReasks(s: State, a: Act, c: Id)
    requires Inv(s) && Can(s, a) && AsksForTheUnsent(s) && c in Take(s, a).cal && Take(s, a).cal[c].reasked
    ensures c in s.cal && s.cal[c].mark.Some? && Muted(s.cal[c]) && Unsent(s, s.cal[c].mark.value.email)
  {
    hide Inv, CanRequest, TakeRequest, CanCal, TakeCal, CanAgain, TakeAgain, CanMail, MailAfter;
    match a {
      case Request(r) => RequestReasks(s, r, c);
      case Cal(d, x) => CalReasks(s, d, x, c);
      case Mail(_, _) =>
      case Again(i, x) =>
        ItsOwnStep(s, i, x);
        assert AgainOk(s, i) by { ReinviteOk(s, i); }
        AgainReasks(s, i, x, c);
    }
  }

  lemma ReinviteOk(s: State, i: Id)
    requires Inv(s) && i in s.again
    ensures AgainOk(s, i)
  {
  }

  lemma {:induction false} RunAsks(s: State, run: seq<Act>, t: State)
    requires Inv(s) && AsksForTheUnsent(s) && Runs(s, run, t)
    ensures AsksForTheUnsent(t)
    decreases |run|
  {
    if run != [] {
      StepAsks(s, run[0]);
      StepKeepsInv(s, run[0]);
      RunAsks(Take(s, run[0]), run[1..], t);
    }
  }

  /**
   Over every run, the provider is asked to invite after all only for a change
   written quietly whose email ended unsent.
   */
  lemma ReinvitesOnlyTheUnsent(s: State, run: seq<Act>, t: State, c: Id)
    requires Init(s) && Runs(s, run, t) && c in t.cal && t.cal[c].reasked
    ensures t.cal[c].mark.Some? && Muted(t.cal[c]) && Unsent(t, t.cal[c].mark.value.email)
  {
    InitKeepsInv(s);
    assert forall d :: d in s.cal ==> CalCame(s, s.cal[d]);
    assert forall i :: i in s.again ==> AgainCame(s, i);
    RunAsks(s, run, t);
  }
}
