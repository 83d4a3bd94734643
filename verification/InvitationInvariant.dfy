/**
 What every step of the invitation protocol keeps. One lemma per kind of step:
 a step touches a row or two (`CalTouched` and its siblings), and `Evolves`,
 which every step respects, carries the invariant over to all the others.
 */
module InvitationInvariant {
  import opened Invitations

  predicate Muted(row: CalRow) { row.mark.Some? && row.mark.value.muted }

  predicate Loud(why: Why) { why != EmailReplaces }

  /** The write `why` has landed, or is the one about to be made. */
  predicate Wrote(row: CalRow, why: Why) { why in row.whys || row.pc == Writing(why) }

  predicate Over(mail: MailRow) { mail.status == Skipped || mail.status == Failed }

  predicate Leaving(mail: MailRow) {
    Over(mail) || mail.pc == MailEnding(Skip) || mail.pc == MailEnding(GiveUp)
  }

  predicate HoldsMark(row: CalRow) {
    row.pc in {Started, Ready, Muting, Looking, TakingBack, Rereading}
  }

  ghost predicate MarkOk(s: State, row: CalRow) {
    row.mark.Some? ==>
      var e := row.mark.value.email;
      && e < s.next
      && row.mark.value.looks <= MAX_LOOKS
      && (e in s.mail ==> s.mail[e].tagged && ChangeFor(s.mail[e].kind) == row.change)
      && (e !in s.mail ==> row.change != Delete && (!s.on || e < s.first))
  }

  ghost predicate DeleteOk(s: State, row: CalRow) {
    row.change == Delete ==>
      && (row.pc == Looking ==> row.mark.Some? && row.mark.value.looks < MAX_LOOKS)
      && (row.pc == Muting || Wrote(row, EmailReplaces) ==>
            row.mark.Some? && row.mark.value.email in s.mail && s.mail[row.mark.value.email].status == Done)
      && (Wrote(row, EmailEnded) || Wrote(row, TookBack) ==>
            row.mark.Some? && row.mark.value.email in s.mail && Over(s.mail[row.mark.value.email]))
      && (Wrote(row, MidSend) ==> row.mark.Some?)
  }

  ghost predicate CalOk(s: State, c: Id) requires c in s.cal {
    var row := s.cal[c];
    && c < s.next
    && MarkOk(s, row)
    && (HoldsMark(row) ==> row.seen == row.mark)
    && (row.pc in {Muting, Looking, TakingBack, Rereading} ==> row.mark.Some?)
    && (row.pc in {Looking, TakingBack, Rereading} ==> row.change == Delete)
    && (row.status != Pending ==> row.pc == Waiting)
    && (row.change != Delete && Muted(row) ==> row.pc.Writing? ==> !Loud(row.pc.why))
    && (row.change != Delete && Wrote(row, EmailReplaces) ==> Muted(row))
    && DeleteOk(s, row)
  }

  ghost predicate MailOk(s: State, e: Id) requires e in s.mail {
    var mail := s.mail[e];
    && s.first <= e < s.next
    && (mail.status != Pending ==> mail.pc == Idle)
    && (mail.status == Done || mail.pc == Accepted ==> mail.accepted)
    && (mail.accepted && !mail.lost ==> mail.status == Done || mail.pc == Accepted)
    && (mail.lost ==> mail.accepted)
    && (mail.pc.Finding? || mail.pc.Checking? || mail.pc.Queueing? ==> mail.pc.end == Skip || mail.pc.end == GiveUp)
    && (mail.pc.MailEnding? ==> mail.pc.end != Finish)
    && (!mail.tagged ==> forall c :: c in s.cal ==> !Marks(s, c, e))
    && (Leaving(mail) && mail.kind != Cancellation && !mail.tagged ==> mail.early)
    && (mail.pc.Checking? || mail.pc.Queueing? ==>
          mail.kind != Cancellation && Marked(s, e))
    && (mail.pc.Checking? || mail.pc.Queueing? || HasReinvite(s, e) ==> mail.tagged && !mail.early)
    && (Leaving(mail) && mail.kind != Cancellation && s.on && !mail.early ==>
          forall c :: Marks(s, c, e) ==> HasReinvite(s, e))
  }

  /** A reinvite that ended with nothing to do: its change told the guest another way. */
  ghost predicate NothingOwed(s: State, c: Id) requires c in s.cal {
    var row := s.cal[c];
    && row.status != Pending
    && (Muted(row) ==> row.mark.value.reinvited || row.mark.value.email < s.first
                       || (row.mark.value.email in s.mail && s.mail[row.mark.value.email].accepted))
  }

  ghost predicate HoldsOk(s: State, row: Reinvite, c: Id, m: Mark) {
    && Marks(s, c, row.email) && s.cal[c].change != Delete && s.cal[c].status != Pending
    && m.muted && m.email == row.email && s.cal[c].mark.value == m
  }

  ghost predicate ReinvitePcOk(s: State, row: Reinvite) {
    match row.pc
    case MailCheck(c, m) => HoldsOk(s, row, c, m)
    case Targeting(c, m) => HoldsOk(s, row, c, m)
    case Removing(c, m) => HoldsOk(s, row, c, m) && !m.removed
    case Removed(c, m) => m.removed && HoldsOk(s, row, c, m.(removed := false))
    case Adding(c, m) => HoldsOk(s, row, c, m) && m.removed
    case Added(c, m) => HoldsOk(s, row, c, m) && m.removed && s.cal[c].reasked
    case ReinviteEnding(end) => end == Skip ==> !s.on
    case _ => true
  }

  ghost predicate AgainOk(s: State, i: Id) requires i in s.again {
    var row := s.again[i];
    && i < s.next && row.email < s.next
    && (s.first <= row.email ==> Marked(s, row.email))
    && (row.status != Pending ==> row.pc == Resting)
    && (row.status == Skipped ==> !s.on)
    && ReinvitePcOk(s, row)
    && (row.pc != Resting || row.status != Pending ==> row.tried)
    && (row.tried ==> forall r :: r in s.again && r < i ==> s.again[r].status != Pending)
    && (row.status == Done || row.pc == ReinviteEnding(Finish) ==> row.outcome != Unsettled)
    && (row.outcome == Invited ==> forall c :: Marks(s, c, row.email) ==> s.cal[c].mark.value.reinvited)
    && (row.outcome == Nothing && s.on ==> forall c :: Marks(s, c, row.email) ==> NothingOwed(s, c))
  }

  ghost predicate NoticesOk(s: State, c: Id) requires c in s.cal {
    var row := s.cal[c];
    && row.notices <= 1
    && (row.status == Pending && row.mark.Some? ==> !row.mark.value.removed)
    && (row.notices > 0 ==> row.reasked)
    && (row.reasked ==> row.mark.Some? && row.mark.value.removed && HasReinvite(s, row.mark.value.email))
    && (row.mark.Some? && row.mark.value.reinvited ==> row.reasked)
    && (row.reasked ==> forall r :: r in s.again && s.again[r].email == row.mark.value.email ==>
          s.again[r].tried && (s.again[r].status == Pending ==> s.guestOn))
  }

  ghost predicate Inv(s: State) {
    && s.first <= s.next
    && (forall c {:trigger CalOk(s, c)} :: c in s.cal ==> CalOk(s, c))
    && (forall e {:trigger MailOk(s, e)} :: e in s.mail ==> MailOk(s, e))
    && (forall i {:trigger AgainOk(s, i)} :: i in s.again ==> AgainOk(s, i))
    && (forall c {:trigger NoticesOk(s, c)} :: c in s.cal ==> NoticesOk(s, c))
    && (forall c, d, e :: Marks(s, c, e) && Marks(s, d, e) ==> c == d)
    && (forall i, j :: i in s.again && j in s.again && s.again[i].email == s.again[j].email ==> i == j)
  }

  // ------------------------------------------------- every step keeps it

  predicate SameMarkBut(m: Option<Mark>, n: Option<Mark>) {
    m.Some? ==>
      && n.Some? && n.value.email == m.value.email
      && (m.value.muted ==> n.value.muted)
      && (m.value.removed ==> n.value.removed)
      && (m.value.reinvited ==> n.value.reinvited)
  }

  ghost predicate NewMark(s: State, t: State, c: Id, e: Id) {
    Marks(t, c, e) && !Marks(s, c, e)
  }

  /** What becomes of calendar rows. Only a reinvite touches a settled change's mark: that of its own email, `actor`. */
  ghost predicate CalEvolve(s: State, t: State, actor: Option<Id>) {
    forall c :: c in s.cal ==>
      && c in t.cal
      && t.cal[c].change == s.cal[c].change
      && SameMarkBut(s.cal[c].mark, t.cal[c].mark)
      && (s.cal[c].reasked ==> t.cal[c].reasked)
      && (forall why :: why in t.cal[c].whys ==> why in s.cal[c].whys || s.cal[c].pc == Writing(why))
      && (s.cal[c].status != Pending ==>
            && t.cal[c].status == s.cal[c].status
            && (s.cal[c].mark.Some? && Some(s.cal[c].mark.value.email) != actor ==> t.cal[c].mark == s.cal[c].mark))
  }

  /** What becomes of emails: only one that is no cancellation can be dropped, unsent, once the booking is off. */
  ghost predicate MailEvolve(s: State, t: State) {
    && (forall e :: e in t.mail && e < s.next ==>
          && e in s.mail
          && t.mail[e].kind == s.mail[e].kind
          && (s.mail[e].tagged ==> t.mail[e].tagged)
          && (s.mail[e].accepted ==> t.mail[e].accepted)
          && (s.mail[e].status != Pending ==> t.mail[e] == s.mail[e].(tagged := t.mail[e].tagged)))
    && (forall e :: e in s.mail && e !in t.mail ==>
          !t.on && s.mail[e].kind != Cancellation && s.mail[e].status == Pending)
  }

  /** What becomes of reinvites: one ended stays as it is, and an email gets one at most, from its own job. */
  ghost predicate AgainEvolve(s: State, t: State) {
    && (forall r :: r in s.again ==>
          && r in t.again
          && t.again[r].email == s.again[r].email
          && (s.again[r].tried ==> t.again[r].tried)
          && (s.again[r].status != Pending ==> t.again[r] == s.again[r]))
    && (forall r :: r in t.again && r !in s.again ==> s.next <= r && !HasReinvite(s, t.again[r].email))
    && (forall r :: r in t.again && r !in s.again && t.again[r].email in s.mail && t.again[r].email in t.mail ==>
          t.mail[t.again[r].email] != s.mail[t.again[r].email])
  }

  /** What becomes of marks: an email marks one row, once. */
  ghost predicate MarksEvolve(s: State, t: State) {
    && (forall c, e :: NewMark(s, t, c, e) ==>
          s.first <= e && e in s.mail && !s.mail[e].tagged && e in t.mail && t.mail[e].tagged
            && forall d :: !Marks(s, d, e))
    && (forall c, d, e :: NewMark(s, t, c, e) && NewMark(s, t, d, e) ==> c == d)
  }

  /**
   What every step respects, whatever row it acts on; `actor` is the email of the
   reinvite that acts, when one does.
   */
  ghost predicate Evolves(s: State, t: State, actor: Option<Id>) {
    && s.next <= t.next && t.first == s.first
    && (t.on ==> s.on)
    && CalEvolve(s, t, actor) && MailEvolve(s, t) && AgainEvolve(s, t) && MarksEvolve(s, t)
  }

  lemma CalStays(s: State, t: State, actor: Option<Id>, c: Id)
    requires Evolves(s, t, actor) && c in s.cal && CalOk(s, c) && t.cal[c] == s.cal[c]
    ensures CalOk(t, c)
  {
  }

  lemma MailStays(s: State, t: State, actor: Option<Id>, e: Id)
    requires Evolves(s, t, actor) && e in s.mail && MailOk(s, e) && e in t.mail && t.mail[e] == s.mail[e]
    ensures MailOk(t, e)
  {
    forall c | Marks(t, c, e) ensures Marks(s, c, e) {
      assert Marks(s, c, e) || NewMark(s, t, c, e);
    }
  }

  lemma AgainStays(s: State, t: State, actor: Option<Id>, i: Id)
    requires Evolves(s, t, actor) && i in s.again && AgainOk(s, i) && t.again[i] == s.again[i]
    requires actor != Some(s.again[i].email)
    ensures AgainOk(t, i)
  {
    hide HasReinvite;
    var e := s.again[i].email;
    forall c | Marks(t, c, e) ensures Marks(s, c, e) {
      assert s.first <= e ==> Marked(s, e);
      assert Marks(s, c, e) || NewMark(s, t, c, e);
    }
    assert ReinvitePcOk(t, t.again[i]);
  }

  lemma NoticesStays(s: State, t: State, actor: Option<Id>, c: Id)
    requires Evolves(s, t, actor) && c in s.cal && NoticesOk(s, c) && t.cal[c] == s.cal[c]
    requires t.guestOn || !s.guestOn
    ensures NoticesOk(t, c)
  {
  }

  lemma UniqueStays(s: State, t: State, actor: Option<Id>)
    requires Evolves(s, t, actor)
    requires forall c, d, e :: Marks(s, c, e) && Marks(s, d, e) ==> c == d
    requires forall i, j :: i in s.again && j in s.again && s.again[i].email == s.again[j].email ==> i == j
    requires forall i, j :: i in t.again && j in t.again && i !in s.again && j !in s.again ==> i == j
    ensures forall c, d, e :: Marks(t, c, e) && Marks(t, d, e) ==> c == d
    ensures forall i, j :: i in t.again && j in t.again && t.again[i].email == t.again[j].email ==> i == j
  {
    forall c, d, e | Marks(t, c, e) && Marks(t, d, e) ensures c == d {
      assert Marks(s, c, e) || NewMark(s, t, c, e);
      assert Marks(s, d, e) || NewMark(s, t, d, e);
    }
  }

  /** The step changed, or made, row `c`, `e` or `i`. */
  predicate CalTouched(s: State, t: State, c: Id) { c in t.cal && (c !in s.cal || t.cal[c] != s.cal[c]) }

  predicate MailTouched(s: State, t: State, e: Id) { e in t.mail && (e !in s.mail || t.mail[e] != s.mail[e]) }

  predicate AgainTouched(s: State, t: State, i: Id) { i in t.again && (i !in s.again || t.again[i] != s.again[i]) }

  lemma Assemble(s: State, t: State, actor: Option<Id>)
    requires Inv(s) && Evolves(s, t, actor)
    requires forall c :: CalTouched(s, t, c) ==> CalOk(t, c) && NoticesOk(t, c)
    requires forall e :: MailTouched(s, t, e) ==> MailOk(t, e)
    requires forall i :: AgainTouched(s, t, i) ==> AgainOk(t, i)
    requires actor.Some? ==> forall i :: i in t.again && t.again[i].email == actor.value ==> AgainOk(t, i)
    requires forall i, j :: i in t.again && j in t.again && i !in s.again && j !in s.again ==> i == j
    requires s.guestOn && !t.guestOn ==> forall c :: c in t.cal ==> NoticesOk(t, c)
    ensures Inv(t)
  {
    forall c | c in t.cal ensures CalOk(t, c) && NoticesOk(t, c) {
      if !CalTouched(s, t, c) {
        CalStays(s, t, actor, c);
        if t.guestOn || !s.guestOn { NoticesStays(s, t, actor, c); }
      }
    }
    forall e | e in t.mail ensures MailOk(t, e) {
      if !MailTouched(s, t, e) { MailStays(s, t, actor, e); }
    }
    forall i | i in t.again ensures AgainOk(t, i) {
      if !AgainTouched(s, t, i) && actor != Some(t.again[i].email) { AgainStays(s, t, actor, i); }
    }
    UniqueStays(s, t, actor);
  }

  // Requests.

  lemma Fresh(s: State)
    requires Inv(s)
    ensures s.next !in s.cal && s.next !in s.mail && s.next !in s.again && !HasReinvite(s, s.next)
    ensures forall e :: e in s.mail ==> e < s.next
  {
    assert s.next in s.cal ==> CalOk(s, s.next);
    forall r | r in s.again ensures r < s.next && s.again[r].email < s.next { assert AgainOk(s, r); }
    forall e | e in s.mail ensures e < s.next { assert MailOk(s, e); }
  }

  lemma TagEvolves(s: State, t: State, e: Id, row: Option<Id>)
    requires s.first <= e && e in s.mail && !s.mail[e].tagged && forall c :: c in s.cal ==> !Marks(s, c, e)
    requires row.Some? ==> row.value in s.cal && s.cal[row.value].mark.None? && s.cal[row.value].status == Pending
    requires t.mail == s.mail[e := s.mail[e].(tagged := true)]
    requires t.again == s.again && t.on == s.on && t.next == s.next && t.first == s.first
    requires row.None? ==> t.cal == s.cal
    requires row.Some? ==>
      t.cal == s.cal[row.value := s.cal[row.value].(mark := Some(Mark(e, false, 0, false, false)))]
    ensures Evolves(s, t, None)
  {
    TagMarksOnce(s, t, e, row);
    hide Marks, NewMark, HasReinvite, MarksEvolve;
    assert t.mail.Keys == s.mail.Keys;
    assert row.Some? ==> t.cal.Keys == s.cal.Keys;
  }

  lemma TagMarksOnce(s: State, t: State, e: Id, row: Option<Id>)
    requires s.first <= e && e in s.mail && !s.mail[e].tagged && forall c :: c in s.cal ==> !Marks(s, c, e)
    requires t.mail == s.mail[e := s.mail[e].(tagged := true)]
    requires row.None? ==> t.cal == s.cal
    requires row.Some? ==> row.value in s.cal
    requires row.Some? ==>
      t.cal == s.cal[row.value := s.cal[row.value].(mark := Some(Mark(e, false, 0, false, false)))]
    ensures MarksEvolve(s, t)
  {
    forall c: Id, d: Id | NewMark(s, t, c, d) ensures d == e && row == Some(c) {
    }
    forall d: Id ensures !Marks(s, d, e) {
    }
    hide Marks, NewMark;
  }

  lemma RequestEvolves(s: State, a: RequestAct)
    requires CanRequest(s, a) && !a.Tag?
    requires s.next !in s.cal && forall e :: e in s.mail ==> e < s.next
    ensures Evolves(s, TakeRequest(s, a), None)
  {
    RequestMarksNothing(s, a);
    if a.QueueMail? || a.DropMail? { MailRequestEvolves(s, a); } else { CalRequestEvolves(s, a); }
    hide *;
    assert Evolves(s, TakeRequest(s, a), None) by {
    }
  }

  lemma MailRequestEvolves(s: State, a: RequestAct)
    requires CanRequest(s, a) && (a.QueueMail? || a.DropMail?) && forall e :: e in s.mail ==> e < s.next
    ensures CalEvolve(s, TakeRequest(s, a), None) && MailEvolve(s, TakeRequest(s, a))
      && AgainEvolve(s, TakeRequest(s, a))
  {
    hide HasReinvite, Marks;
  }

  lemma CalRequestEvolves(s: State, a: RequestAct)
    requires CanRequest(s, a) && (a.QueueChange? || a.FallDue? || a == CancelBooking) && s.next !in s.cal
    requires forall e :: e in s.mail ==> e < s.next
    ensures CalEvolve(s, TakeRequest(s, a), None) && MailEvolve(s, TakeRequest(s, a))
      && AgainEvolve(s, TakeRequest(s, a))
  {
    hide HasReinvite, Marks;
  }

  lemma RequestMarksNothing(s: State, a: RequestAct)
    requires CanRequest(s, a) && !a.Tag? && s.next !in s.cal
    ensures MarksEvolve(s, TakeRequest(s, a))
  {
    forall c: Id, d: Id ensures !NewMark(s, TakeRequest(s, a), c, d) {
    }
  }

  lemma NewMailOk(s: State, kind: Kind)
    requires (forall c :: c in s.cal ==> CalOk(s, c)) && !HasReinvite(s, s.next) && s.first <= s.next
    ensures MailOk(TakeRequest(s, QueueMail(kind)), s.next)
  {
    var t := TakeRequest(s, QueueMail(kind));
    forall c: Id | c in s.cal ensures !Marks(t, c, s.next) {
      assert CalOk(s, c);
    }
  }

  lemma TaggedOk(s: State, e: Id, row: Option<Id>)
    requires CanRequest(s, Tag(e, row)) && MailOk(s, e)
    requires row.Some? ==> CalOk(s, row.value) && NoticesOk(s, row.value)
    requires Evolves(s, TakeRequest(s, Tag(e, row)), None)
    ensures MailOk(TakeRequest(s, Tag(e, row)), e)
    ensures row.Some? ==> var t := TakeRequest(s, Tag(e, row)); CalOk(t, row.value) && NoticesOk(t, row.value)
  {
    var t := TakeRequest(s, Tag(e, row));
  }

  lemma DueOk(s: State, c: Id)
    requires c in s.cal && CalOk(s, c) && NoticesOk(s, c)
    ensures var t := TakeRequest(s, FallDue(c)); CalOk(t, c) && NoticesOk(t, c)
  {
  }

  lemma TagTouches(s: State, e: Id, row: Option<Id>)
    requires CanRequest(s, Tag(e, row))
    ensures var t := TakeRequest(s, Tag(e, row));
      && t.again == s.again && t.guestOn == s.guestOn
      && (forall c: Id :: CalTouched(s, t, c) ==> row == Some(c)) && (forall f: Id :: MailTouched(s, t, f) ==> f == e)
  {
  }

  lemma TagKeepsInv(s: State, e: Id, row: Option<Id>)
    requires Inv(s) && CanRequest(s, Tag(e, row))
    ensures Inv(TakeRequest(s, Tag(e, row)))
  {
    TagInvEvolves(s, e, row);
    assert MailOk(s, e);
    assert row.Some? ==> row.value in s.cal && CalOk(s, row.value) && NoticesOk(s, row.value);
    TagTouches(s, e, row);
    hide CalOk, NoticesOk, AgainOk, HasReinvite, Evolves, MailOk, Inv, TakeRequest, CalTouched, MailTouched;
    TaggedOk(s, e, row);
    Assemble(s, TakeRequest(s, Tag(e, row)), None);
  }

  lemma TagInvEvolves(s: State, e: Id, row: Option<Id>)
    requires Inv(s) && CanRequest(s, Tag(e, row))
    ensures Evolves(s, TakeRequest(s, Tag(e, row)), None)
  {
    assert MailOk(s, e);
    hide CalOk, NoticesOk, AgainOk, HasReinvite;
    TagEvolves(s, TakeRequest(s, Tag(e, row)), e, row);
  }

  lemma QueueMailKeepsInv(s: State, kind: Kind)
    requires Inv(s)
    ensures Inv(TakeRequest(s, QueueMail(kind)))
  {
    var t := TakeRequest(s, QueueMail(kind));
    Fresh(s);
    assert forall c :: c in s.cal ==> CalOk(s, c);
    RequestEvolves(s, QueueMail(kind));
    NewMailOk(s, kind);
    Assemble(s, t, None);
  }

  lemma CalRequestKeepsInv(s: State, a: RequestAct)
    requires Inv(s) && CanRequest(s, a) && (a.QueueChange? || a.FallDue?)
    ensures Inv(TakeRequest(s, a))
  {
    Fresh(s);
    RequestEvolves(s, a);
    if a.FallDue? { DueOk(s, a.c); }
    Assemble(s, TakeRequest(s, a), None);
  }

  lemma RequestKeepsInv(s: State, a: RequestAct)
    requires Inv(s) && CanRequest(s, a)
    ensures Inv(TakeRequest(s, a))
  {
    match a {
      case Tag(e, row) => TagKeepsInv(s, e, row);
      case QueueMail(kind) => QueueMailKeepsInv(s, kind);
      case QueueChange(_) => CalRequestKeepsInv(s, a);
      case FallDue(_) => CalRequestKeepsInv(s, a);
      case _ =>
        Fresh(s);
        RequestEvolves(s, a);
        Assemble(s, TakeRequest(s, a), None);
    }
  }

  // The calendar job.

  /** A step of the calendar job: what it may change, and in which rows. */
  ghost predicate CalStep(s: State, t: State, c: Id) {
    && c in s.cal && c in t.cal
    && t.cal == s.cal[c := t.cal[c]]
    && t.again == s.again && t.on == s.on && t.next == s.next && t.first == s.first && (s.guestOn ==> t.guestOn)
    && t.cal[c].change == s.cal[c].change && s.cal[c].status == Pending
    && t.cal[c].reasked == s.cal[c].reasked && t.cal[c].notices == s.cal[c].notices
    && SameMarkBut(s.cal[c].mark, t.cal[c].mark)
    && (s.cal[c].mark.None? ==> t.cal[c].mark.None?)
    && (s.cal[c].mark.Some? ==>
          && t.cal[c].mark.value.reinvited == s.cal[c].mark.value.reinvited
          && t.cal[c].mark.value.removed == s.cal[c].mark.value.removed)
    && (forall why :: why in t.cal[c].whys ==> why in s.cal[c].whys || s.cal[c].pc == Writing(why))
    && (t.mail == s.mail
        || (s.cal[c].change == Delete && s.cal[c].mark.Some?
            && var e := s.cal[c].mark.value.email;
            TakesBack(s, e) && t.mail == s.mail[e := s.mail[e].(status := Skipped)]))
  }

  lemma CalBegins(s: State, c: Id, a: CalAct)
    requires CanCal(s, c, a) && CalOk(s, c) && a in {Claim, CheckBooking, NothingToWrite}
    ensures CalStep(s, TakeCal(s, c, a), c) && CalOk(TakeCal(s, c, a), c)
  {
    hide HasReinvite, Head, Decision;
  }

  lemma CalCutShort(s: State, c: Id, a: CalAct)
    requires CanCal(s, c, a) && CalOk(s, c) && (a.Throw? || a in {Record, Die})
    ensures CalStep(s, TakeCal(s, c, a), c) && CalOk(TakeCal(s, c, a), c)
  {
    hide HasReinvite, Head, Decision, TakesBack;
  }

  lemma CalDecides(s: State, c: Id, a: CalAct)
    requires CanCal(s, c, a) && CalOk(s, c) && (a.Decide? || a.Reread?)
    ensures CalStep(s, TakeCal(s, c, a), c) && CalOk(TakeCal(s, c, a), c)
  {
  }

  lemma CalWrites(s: State, c: Id, lands: bool, end: End)
    requires CanCal(s, c, Write(lands, end)) && CalOk(s, c)
    ensures CalStep(s, TakeCal(s, c, Write(lands, end)), c)
  {
  }

  lemma CalWritesOk(s: State, c: Id, lands: bool, end: End)
    requires CanCal(s, c, Write(lands, end)) && CalOk(s, c)
    ensures CalOk(TakeCal(s, c, Write(lands, end)), c)
  {
    hide HasReinvite, Head, Decision;
  }

  /** What a take-back makes of the row and of its email. */
  lemma TakenBack(s: State, c: Id)
    requires CanCal(s, c, TakeBack) && CalOk(s, c)
    ensures var row, t := s.cal[c], TakeCal(s, c, TakeBack);
      && row.mark.Some? && row.change == Delete && row.status == Pending && row.seen == row.mark
      && var e := row.mark.value.email;
         if TakesBack(s, e) then
           t == s.(cal := s.cal[c := row.(pc := Writing(TookBack))], mail := s.mail[e := s.mail[e].(status := Skipped)])
         else t == s.(cal := s.cal[c := row.(pc := Rereading)])
  {
    hide HasReinvite, Head, Decision, DeleteOk, MarkOk;
  }

  lemma CalTakesBack(s: State, c: Id)
    requires CanCal(s, c, TakeBack) && CalOk(s, c)
    ensures CalStep(s, TakeCal(s, c, TakeBack), c)
  {
    TakenBack(s, c);
    hide CalOk, CanCal, TakeCal;
  }

  lemma CalTakesBackOk(s: State, c: Id)
    requires CanCal(s, c, TakeBack) && CalOk(s, c)
    ensures CalOk(TakeCal(s, c, TakeBack), c)
  {
    TakenBack(s, c);
    hide CanCal, TakeCal;
  }

  lemma CalRecords(s: State, c: Id, a: CalAct)
    requires CanCal(s, c, a) && CalOk(s, c) && (a.CountLook? || a == RecordMute)
    ensures CalStep(s, TakeCal(s, c, a), c) && CalOk(TakeCal(s, c, a), c)
  {
  }

  lemma CalEvolves(s: State, t: State, c: Id)
    requires CalStep(s, t, c)
    ensures Evolves(s, t, None)
    ensures forall d, e :: !NewMark(s, t, d, e)
  {
    CalStepMail(s, t, c);
    hide Marks, NewMark, HasReinvite, MarksEvolve, MailEvolve, AgainEvolve;
  }

  lemma CalStepMail(s: State, t: State, c: Id)
    requires CalStep(s, t, c)
    ensures MailEvolve(s, t) && AgainEvolve(s, t)
  {
    hide HasReinvite;
    assert t.mail.Keys == s.mail.Keys;
  }

  lemma CalMakesStep(s: State, c: Id, a: CalAct)
    requires CanCal(s, c, a) && CalOk(s, c)
    ensures CalStep(s, TakeCal(s, c, a), c) && CalOk(TakeCal(s, c, a), c)
  {
    if a.Decide? || a.Reread? { CalDecides(s, c, a); }
    else if a.Write? { CalWrites(s, c, a.lands, a.end); CalWritesOk(s, c, a.lands, a.end); }
    else if a == TakeBack { CalTakesBack(s, c); CalTakesBackOk(s, c); }
    else if a.CountLook? || a == RecordMute { CalRecords(s, c, a); }
    else if a in {Claim, CheckBooking, NothingToWrite} { CalBegins(s, c, a); }
    else { CalCutShort(s, c, a); }
  }

  lemma CalKeepsInv(s: State, c: Id, a: CalAct)
    requires Inv(s) && CanCal(s, c, a)
    ensures Inv(TakeCal(s, c, a))
  {
    CalMakesStep(s, c, a);
    CalStepKeepsInv(s, TakeCal(s, c, a), c);
  }

  lemma CalStepKeepsInv(s: State, t: State, c: Id)
    requires Inv(s) && CalStep(s, t, c) && CalOk(t, c)
    ensures Inv(t)
  {
    CalEvolves(s, t, c);
    assert NoticesOk(s, c);
    if t.mail != s.mail { assert MailOk(s, s.cal[c].mark.value.email); }
    Assemble(s, t, None);
  }

  // The email job.

  ghost predicate MailStep(s: State, t: State, e: Id) {
    && e in s.mail && e in t.mail && t.mail == s.mail[e := t.mail[e]]
    && t.cal == s.cal && t.on == s.on && t.guestOn == s.guestOn && t.first == s.first
    && t.mail[e].kind == s.mail[e].kind && t.mail[e].tagged == s.mail[e].tagged
    && (s.mail[e].accepted ==> t.mail[e].accepted)
    && s.mail[e].status == Pending
    && ((t.again == s.again && t.next == s.next)
        || (&& !HasReinvite(s, e) && s.mail[e].pc.Queueing? && !t.mail[e].pc.Queueing? && t.next == s.next + 1
            && t.again == s.again[s.next := Reinvite(e, Pending, false, Resting, Unsettled)]))
  }

  lemma MailMakesStep(s: State, e: Id, a: MailAct)
    requires CanMail(s, e, a) && MailOk(s, e)
    ensures MailStep(s, TakeMail(s, e, a), e)
  {
  }

  lemma MailEvolves(s: State, t: State, e: Id)
    requires MailStep(s, t, e) && s.next !in s.again && e < s.next
    ensures Evolves(s, t, None)
    ensures forall d, f :: Marks(t, d, f) <==> Marks(s, d, f)
  {
  }

  predicate SendsMail(a: MailAct) {
    a in {ClaimMail, Accept, Refuse, RecordDone} || a.SendFails? || a.RecordDoneFails?
  }

  lemma MarkedAsBefore(s: State, e: Id, a: MailAct)
    requires CanMail(s, e, a)
    ensures forall c :: Marks(TakeMail(s, e, a), c, e) <==> Marks(s, c, e)
    ensures Marked(TakeMail(s, e, a), e) <==> Marked(s, e)
  {
    assert forall c :: Marks(TakeMail(s, e, a), c, e) <==> Marks(s, c, e);
    if Marked(s, e) { var c :| Marks(s, c, e) && s.cal[c].change != Delete; assert Marks(TakeMail(s, e, a), c, e); }
  }

  lemma MailSendsOk(s: State, e: Id, a: MailAct)
    requires CanMail(s, e, a) && MailOk(s, e) && SendsMail(a)
    ensures MailOk(TakeMail(s, e, a), e)
  {
    MarkedAsBefore(s, e, a);
  }

  lemma MailEndsOk(s: State, e: Id, a: MailAct)
    requires CanMail(s, e, a) && MailOk(s, e) && !SendsMail(a) && !a.FindChange? && !a.QueueReinvite?
    ensures MailOk(TakeMail(s, e, a), e)
  {
    MarkedAsBefore(s, e, a);
  }

  lemma FoundRowOk(s: State, e: Id, found: Option<Id>)
    requires CanMail(s, e, FindChange(found)) && MailOk(s, e)
    requires found.Some? ==> CalOk(s, found.value)
    ensures MailOk(TakeMail(s, e, FindChange(found)), e)
  {
    var t := TakeMail(s, e, FindChange(found));
    assert forall c :: Marks(t, c, e) <==> Marks(s, c, e);
    if found.Some? { assert Marks(t, found.value, e); }
  }

  lemma QueuedRowOk(s: State, e: Id)
    requires CanMail(s, e, QueueReinvite) && MailOk(s, e) && s.next !in s.again
    ensures var t := TakeMail(s, e, QueueReinvite);
      MailOk(t, e) && (s.next in t.again ==> AgainOk(t, s.next))
  {
    var t := TakeMail(s, e, QueueReinvite);
    var c :| Marks(s, c, e) && s.cal[c].change != Delete;
    assert Marks(t, c, e);
    assert HasReinvite(t, e) by {
      if !HasReinvite(s, e) { assert s.next in t.again && t.again[s.next].email == e; }
    }
  }

  /** The email, and the reinvite it may queue, after each of its steps. */
  lemma MailRowsOk(s: State, e: Id, a: MailAct)
    requires CanMail(s, e, a) && MailOk(s, e) && s.next !in s.again
    requires a.FindChange? && a.row.Some? ==> CalOk(s, a.row.value)
    ensures var t := TakeMail(s, e, a); MailOk(t, e) && (s.next in t.again ==> AgainOk(t, s.next))
  {
    assert a.FindChange? && a.row.Some? ==> a.row.value in s.cal;
    hide MailOk, CalOk, AgainOk, MailAfter, Marks;
    if a.FindChange? { FoundRowOk(s, e, a.row); }
    else if a.QueueReinvite? { QueuedRowOk(s, e); }
    else if SendsMail(a) { MailSendsOk(s, e, a); }
    else { MailEndsOk(s, e, a); }
  }

  lemma MailStepKeepsInv(s: State, t: State, e: Id)
    requires Inv(s) && MailStep(s, t, e) && MailOk(t, e)
    requires s.next in t.again ==> AgainOk(t, s.next)
    ensures Inv(t)
  {
    Fresh(s);
    MailEvolves(s, t, e);
    hide CalOk, MailOk, AgainOk, NoticesOk, HasReinvite, Evolves, Marks;
    Assemble(s, t, None);
  }

  lemma MailKeepsInv(s: State, e: Id, a: MailAct)
    requires Inv(s) && CanMail(s, e, a)
    ensures Inv(TakeMail(s, e, a))
  {
    Fresh(s);
    assert MailOk(s, e);
    assert a.FindChange? && a.row.Some? ==> CalOk(s, a.row.value);
    hide CalOk, MailOk, AgainOk, NoticesOk, HasReinvite, Inv, MailStep, TakeMail;
    MailMakesStep(s, e, a);
    MailRowsOk(s, e, a);
    MailStepKeepsInv(s, TakeMail(s, e, a), e);
  }

  // The reinvite job.

  /** Only the settled change `c` is written, and only its mark and its history. */
  predicate Remarked(s: State, t: State, c: Id) {
    && c in s.cal && c in t.cal && t.cal == s.cal[c := t.cal[c]]
    && s.cal[c].status != Pending
    && t.cal[c].change == s.cal[c].change && t.cal[c].status == s.cal[c].status && t.cal[c].whys == s.cal[c].whys
    && SameMarkBut(s.cal[c].mark, t.cal[c].mark)
    && t.cal[c].mark.Some? == s.cal[c].mark.Some?
    && (s.cal[c].mark.Some? ==> t.cal[c].mark.value.looks == s.cal[c].mark.value.looks)
    && (s.cal[c].reasked ==> t.cal[c].reasked)
  }

  ghost predicate AgainStep(s: State, t: State, i: Id) {
    && i in s.again && i in t.again && t.again == s.again[i := t.again[i]]
    && t.mail == s.mail && t.on == s.on && t.next == s.next && t.first == s.first
    && t.again[i].email == s.again[i].email && s.again[i].status == Pending
    && (s.again[i].tried ==> t.again[i].tried)
    && (t.cal == s.cal
        || exists c :: Marks(s, c, s.again[i].email) && Remarked(s, t, c))
  }

  lemma AgainMakesStep(s: State, i: Id, a: ReinviteAct)
    requires CanAgain(s, i, a) && AgainOk(s, i)
    ensures AgainStep(s, TakeAgain(s, i, a), i)
  {
    var t, row := TakeAgain(s, i, a), s.again[i];
    if a.RecordRemoved? || a.AddGuest? || a.RecordAdded? {
      assert Marks(s, row.pc.c, row.email) && Remarked(s, t, row.pc.c);
    }
  }

  lemma AgainEvolves(s: State, t: State, i: Id)
    requires AgainStep(s, t, i)
    ensures Evolves(s, t, Some(s.again[i].email))
    ensures forall d, f :: Marks(t, d, f) <==> Marks(s, d, f)
  {
    AgainStepMarks(s, t, i);
    hide NewMark, HasReinvite, Marks;
  }

  lemma AgainStepMarks(s: State, t: State, i: Id)
    requires AgainStep(s, t, i)
    ensures forall d, f :: Marks(t, d, f) <==> Marks(s, d, f)
    ensures MarksEvolve(s, t)
  {
    assert forall d, f :: Marks(t, d, f) <==> Marks(s, d, f);
    forall c, d ensures !NewMark(s, t, c, d) {
    }
  }

  ghost predicate UniqueMarks(s: State) {
    forall c, d, e :: Marks(s, c, e) && Marks(s, d, e) ==> c == d
  }

  lemma AgainReadsOk(s: State, i: Id, a: ReinviteAct)
    requires CanAgain(s, i, a) && AgainOk(s, i) && UniqueMarks(s)
    requires a.FindMarked? || a.ReadMail?
    requires s.again[i].email in s.mail ==> MailOk(s, s.again[i].email)
    requires s.again[i].email < s.first ==> forall c :: Marks(s, c, s.again[i].email) ==> s.cal[c].change != Delete
    ensures AgainOk(TakeAgain(s, i, a), i)
  {
    var t, e := TakeAgain(s, i, a), s.again[i].email;
    if Marked(s, e) {
      var c :| Marks(s, c, e) && s.cal[c].change != Delete;
      assert Marks(t, c, e);
    }
    assert forall d :: Marks(t, d, e) ==> Marks(s, d, e);
    hide HasReinvite;
  }

  lemma RecordedEndOk(s: State, i: Id, a: ReinviteAct)
    requires CanAgain(s, i, a) && AgainOk(s, i)
    requires a == RecordReinvite
    ensures AgainOk(TakeAgain(s, i, a), i)
  {
    var t, e := TakeAgain(s, i, a), s.again[i].email;
    if Marked(s, e) {
      var c :| Marks(s, c, e) && s.cal[c].change != Delete;
      assert Marks(t, c, e);
    }
    assert forall d :: Marks(t, d, e) ==> Marks(s, d, e);
    hide HasReinvite;
  }

  lemma CutShortOk(s: State, i: Id, a: ReinviteAct)
    requires CanAgain(s, i, a) && AgainOk(s, i)
    requires a == ReinviteDies || a.ReinviteThrows?
    ensures AgainOk(TakeAgain(s, i, a), i)
  {
    var t, e := TakeAgain(s, i, a), s.again[i].email;
    if Marked(s, e) {
      var c :| Marks(s, c, e) && s.cal[c].change != Delete;
      assert Marks(t, c, e);
    }
    assert forall d :: Marks(t, d, e) ==> Marks(s, d, e);
    hide HasReinvite;
  }

  lemma GuestRemovedOk(s: State, i: Id, a: ReinviteAct)
    requires CanAgain(s, i, a) && AgainOk(s, i)
    requires a == RemoveGuest
    ensures AgainOk(TakeAgain(s, i, a), i)
  {
    var t, e := TakeAgain(s, i, a), s.again[i].email;
    if Marked(s, e) {
      var c :| Marks(s, c, e) && s.cal[c].change != Delete;
      assert Marks(t, c, e);
    }
    assert forall d :: Marks(t, d, e) ==> Marks(s, d, e);
    hide HasReinvite;
  }

  lemma LookedUpOk(s: State, i: Id, a: ReinviteAct)
    requires CanAgain(s, i, a) && AgainOk(s, i)
    requires a == CheckOn || a.FindTarget?
    ensures AgainOk(TakeAgain(s, i, a), i)
  {
    var t, e := TakeAgain(s, i, a), s.again[i].email;
    if Marked(s, e) {
      var c :| Marks(s, c, e) && s.cal[c].change != Delete;
      assert Marks(t, c, e);
    }
    assert forall d :: Marks(t, d, e) ==> Marks(s, d, e);
    hide HasReinvite;
  }

  lemma ClaimedOk(s: State, i: Id)
    requires CanAgain(s, i, ClaimReinvite) && AgainOk(s, i)
    ensures AgainOk(TakeAgain(s, i, ClaimReinvite), i)
  {
    var t, e := TakeAgain(s, i, ClaimReinvite), s.again[i].email;
    if Marked(s, e) {
      var c :| Marks(s, c, e) && s.cal[c].change != Delete;
      assert Marks(t, c, e);
    }
  }

  lemma AgainWritesOk(s: State, i: Id, a: ReinviteAct)
    requires CanAgain(s, i, a) && AgainOk(s, i) && UniqueMarks(s)
    requires a.RecordRemoved? || a.AddGuest? || a.RecordAdded?
    ensures AgainOk(TakeAgain(s, i, a), i)
  {
    var t, e, c := TakeAgain(s, i, a), s.again[i].email, s.again[i].pc.c;
    assert Marks(s, c, e) && Marks(t, c, e);
    assert forall d :: Marks(t, d, e) ==> Marks(s, d, e);
  }

  lemma ChangeWrittenOk(s: State, i: Id, a: ReinviteAct)
    requires CanAgain(s, i, a) && AgainOk(s, i)
    requires a.RecordRemoved? || a.AddGuest? || a.RecordAdded?
    requires forall r :: r in s.again && s.again[r].email == s.again[i].email ==> r == i
    requires CalOk(s, s.again[i].pc.c) && NoticesOk(s, s.again[i].pc.c)
    ensures var t, c := TakeAgain(s, i, a), s.again[i].pc.c; CalOk(t, c) && NoticesOk(t, c)
  {
    var t := TakeAgain(s, i, a);
    assert t.again[i].email == s.again[i].email;
  }

  lemma GuestOffOk(s: State, i: Id, c: Id)
    requires Inv(s) && CanAgain(s, i, RemoveGuest) && c in s.cal
    ensures NoticesOk(TakeAgain(s, i, RemoveGuest), c)
  {
    var t := TakeAgain(s, i, RemoveGuest);
    assert NoticesOk(s, c) && AgainOk(s, i);
    if s.cal[c].reasked {
      var e := s.cal[c].mark.value.email;
      assert HasReinvite(t, e) by {
        var r :| r in s.again && s.again[r].email == e;
        assert t.again[r].email == e;
      }
      forall r | r in t.again && t.again[r].email == e ensures t.again[r].tried && t.again[r].status != Pending {
        assert AgainOk(s, r);
        assert Marks(s, c, e);
      }
    }
  }

  predicate WritesChange(a: ReinviteAct) { a.RecordRemoved? || a.AddGuest? || a.RecordAdded? }

  lemma AgainCalmRowsOk(s: State, i: Id, a: ReinviteAct)
    requires Inv(s) && CanAgain(s, i, a) && !WritesChange(a)
    ensures var t := TakeAgain(s, i, a);
      && AgainStep(s, t, i) && AgainOk(t, i) && t.cal == s.cal
  {
    var e := s.again[i].email;
    assert AgainOk(s, i);
    AgainMakesStep(s, i, a);
    if a.FindMarked? || a.ReadMail? {
      assert e in s.mail ==> MailOk(s, e);
      forall c | Marks(s, c, e) && e < s.first ensures s.cal[c].change != Delete { assert CalOk(s, c); }
      AgainReadsOk(s, i, a);
    } else if a == ClaimReinvite { ClaimedOk(s, i); }
    else if a == RemoveGuest { GuestRemovedOk(s, i, a); }
    else if a == CheckOn || a.FindTarget? { LookedUpOk(s, i, a); }
    else if a == RecordReinvite { RecordedEndOk(s, i, a); }
    else { CutShortOk(s, i, a); }
  }

  lemma AgainWriteRowsOk(s: State, i: Id, a: ReinviteAct)
    requires Inv(s) && CanAgain(s, i, a) && WritesChange(a)
    ensures var t := TakeAgain(s, i, a);
      && AgainStep(s, t, i) && AgainOk(t, i)
      && (forall c :: CalTouched(s, t, c) ==> CalOk(t, c) && NoticesOk(t, c))
  {
    var c := s.again[i].pc.c;
    assert AgainOk(s, i);
    assert CalOk(s, c) && NoticesOk(s, c);
    assert forall d :: d != c && d in s.cal ==> TakeAgain(s, i, a).cal[d] == s.cal[d];
    assert TakeAgain(s, i, a).cal.Keys == s.cal.Keys;
    hide CalOk, NoticesOk, AgainOk, MailOk, TakeAgain, CanAgain;
    AgainMakesStep(s, i, a);
    AgainWritesOk(s, i, a);
    ChangeWrittenOk(s, i, a);
  }

  lemma AgainStepKeepsInv(s: State, t: State, i: Id)
    requires Inv(s) && AgainStep(s, t, i) && AgainOk(t, i)
    requires forall c :: CalTouched(s, t, c) ==> CalOk(t, c) && NoticesOk(t, c)
    requires s.guestOn && !t.guestOn ==> forall c :: c in t.cal ==> NoticesOk(t, c)
    ensures Inv(t)
  {
    AgainEvolves(s, t, i);
    forall j | j in t.again && t.again[j].email == s.again[i].email ensures j == i {
      assert s.again[j].email == s.again[i].email;
    }
    Assemble(s, t, Some(s.again[i].email));
  }

  lemma AgainKeepsInv(s: State, i: Id, a: ReinviteAct)
    requires Inv(s) && CanAgain(s, i, a)
    ensures Inv(TakeAgain(s, i, a))
  {
    var t := TakeAgain(s, i, a);
    if WritesChange(a) { AgainWriteRowsOk(s, i, a); } else { AgainCalmRowsOk(s, i, a); }
    if a == RemoveGuest { forall c | c in t.cal ensures NoticesOk(t, c) { GuestOffOk(s, i, c); } }
    AgainStepKeepsInv(s, t, i);
  }

  lemma StepEvolves(s: State, a: Act) returns (actor: Option<Id>)
    requires Inv(s) && Can(s, a)
    ensures Evolves(s, Take(s, a), actor)
  {
    actor := None;
    match a {
      case Request(r) =>
        if r.Tag? { assert MailOk(s, r.e); TagEvolves(s, TakeRequest(s, r), r.e, r.row); }
        else { Fresh(s); RequestEvolves(s, r); }
      case Cal(c, x) => CalMakesStep(s, c, x); CalEvolves(s, TakeCal(s, c, x), c);
      case Mail(e, x) =>
        Fresh(s);
        assert MailOk(s, e);
        MailMakesStep(s, e, x);
        MailEvolves(s, TakeMail(s, e, x), e);
      case Again(i, x) =>
        assert AgainOk(s, i);
        AgainMakesStep(s, i, x);
        AgainEvolves(s, TakeAgain(s, i, x), i);
        actor := Some(s.again[i].email);
    }
  }

  lemma InitKeepsInv(s: State)
    requires Init(s)
    ensures Inv(s)
  {
    forall c | c in s.cal ensures CalOk(s, c) && NoticesOk(s, c) {
      assert CalCame(s, s.cal[c]);
    }
    forall i | i in s.again ensures AgainOk(s, i) {
      assert AgainCame(s, i);
      assert forall r :: r in s.again && r < i ==> AgainCame(s, r);
    }
  }

  /**
   A booking that takes over another starts as `Init` says, whatever that one's
   run has come to: what is promised of a run is promised of each booking of a
   chain. Nothing of the old booking is being worked on at that moment, and no
   delete of it is queued while it is on.
   */
  lemma TakeoverStarts(s: State)
    requires Inv(s) && s.on
    requires forall c :: c in s.cal && s.cal[c].status == Pending ==>
      s.cal[c].pc == Waiting && s.cal[c].change != Delete
    requires forall i :: i in s.again && s.again[i].status == Pending ==> s.again[i].pc == Resting
    ensures Init(TakenOver(s))
  {
    var t := TakenOver(s);
    assert forall c, e :: Marks(t, c, e) ==> Marks(s, c, e);
    forall c | c in t.cal ensures c < t.first && CalCame(t, t.cal[c]) {
      assert CalOk(s, c) && NoticesOk(s, c);
    }
    forall i | i in t.again ensures i < t.first && AgainCame(t, i) {
      assert AgainOk(s, i);
    }
  }

  lemma StepKeepsInv(s: State, a: Act)
    requires Inv(s) && Can(s, a)
    ensures Inv(Take(s, a))
  {
    match a
    case Request(r) => RequestKeepsInv(s, r);
    case Cal(c, x) => CalKeepsInv(s, c, x);
    case Mail(e, x) => MailKeepsInv(s, e, x);
    case Again(i, x) => AgainKeepsInv(s, i, x);
  }

  lemma {:induction false} RunKeepsInv(s: State, run: seq<Act>, t: State)
    requires Inv(s) && Runs(s, run, t)
    ensures Inv(t)
    decreases |run|
  {
    if run != [] {
      StepKeepsInv(s, run[0]);
      RunKeepsInv(Take(s, run[0]), run[1..], t);
    }
  }

  lemma RunIsSound(s: State, run: seq<Act>, t: State)
    requires Init(s) && Runs(s, run, t)
    ensures Inv(t)
  {
    InitKeepsInv(s);
    RunKeepsInv(s, run, t);
  }
}
