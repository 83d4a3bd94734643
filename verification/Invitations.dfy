/**
 The invitation protocol of one booking: its calendar rows, its invitee-email
 rows and its `reinvite` rows in the outbox, the requests that queue them, and
 the workers that run them, interleaved one database or provider call at a time.

 A row's position inside the job that runs it is its `pc`. A worker may throw
 or die between any two calls. Fields that only record what has happened
 (`whys`, `accepted`, `lost`, `early`, `reasked`, `notices`, `outcome`) are
 never read by a step.
 */
module Invitations {

  /** An outbox row; ids follow the order in which rows were queued. */
  type Id = nat

  datatype Option<+T> = None | Some(value: T)

  /** Looks a delete always takes at a queued cancellation email, and the most it ever takes. */
  const WAIT_LOOKS: nat := 3
  const MAX_LOOKS: nat := 2 * WAIT_LOOKS

  datatype Change = Create | Move | Delete
  datatype Kind = Confirmation | Reschedule | Cancellation

  function ChangeFor(kind: Kind): Change {
    match kind
    case Confirmation => Create
    case Reschedule => Move
    case Cancellation => Delete
  }

  datatype Status = Pending | Done | Failed | Skipped

  /** How an attempt at a row ends. */
  datatype End = Finish | GiveUp | Skip | Retry

  function StatusAfter(end: End): Status {
    match end
    case Finish => Done
    case GiveUp => Failed
    case Skip => Skipped
    case Retry => Pending
  }

  /** What a calendar row records about the invitee email it goes with. */
  datatype Mark = Mark(email: Id, muted: bool, looks: nat, removed: bool, reinvited: bool)

  /** Why the organizer's event was written with the provider inviting, or (`EmailReplaces`) quietly. */
  datatype Why = OtherGuests | NoTransport | Untagged | EmailEnded | TookBack | MidSend | EmailReplaces

  datatype CalPc =
    | Waiting
    | Started
    | Ready
    | Muting
    | Looking
    | TakingBack
    | Rereading
    | Writing(why: Why)
    | Ending(end: End)

  /** `seen` is the mark as claimed; `whys` are the writes of the organizer's event that landed. */
  datatype CalRow = CalRow(change: Change, status: Status, due: bool, pc: CalPc, mark: Option<Mark>,
                           seen: Option<Mark>, whys: set<Why>, reasked: bool, notices: nat)

  datatype MailPc =
    | Idle
    | Sending
    | Accepted
    | Finding(end: End)
    | Checking(end: End)
    | Queueing(end: End)
    | MailEnding(end: End)

  /**
   `tagged`: the request that queued the email has tried to mark a calendar row.
   `accepted`: the mail service took the email. `lost`: it did, and the attempt
   ended without recording so. `early`: when the email last looked for its calendar
   change, on its way to ending unsent, it was not `tagged` yet.
   */
  datatype MailRow = MailRow(kind: Kind, status: Status, pc: MailPc, tagged: bool,
                             accepted: bool, lost: bool, early: bool)

  datatype ReinvitePc =
    | Resting
    | Claimed
    | Lookup
    | MailCheck(c: Id, m: Mark)
    | Targeting(c: Id, m: Mark)
    | Removing(c: Id, m: Mark)
    | Removed(c: Id, m: Mark)
    | Adding(c: Id, m: Mark)
    | Added(c: Id, m: Mark)
    | ReinviteEnding(end: End)

  datatype Outcome = Unsettled | Nothing | NoTarget | Invited

  datatype Reinvite = Reinvite(email: Id, status: Status, tried: bool, pc: ReinvitePc, outcome: Outcome)

  /**
   `delivers`: the mail transport delivers. `on`: the booking is accepted.
   `guestOn`: the guest is on the organizer's event. `next`: the next row id.
   Calendar rows and reinvites before `first` came from a booking this one took
   over; the emails queued before it stayed with that one.
   */
  datatype State = State(delivers: bool, on: bool, guestOn: bool, cal: map<Id, CalRow>,
                         mail: map<Id, MailRow>, again: map<Id, Reinvite>, next: Id, first: Id)

  // ---------------------------------------------------------------- the steps

  datatype RequestAct =
    | QueueChange(change: Change)
    | CancelBooking
    | QueueMail(kind: Kind)
    | Tag(e: Id, row: Option<Id>)
    | DropMail(e: Id)
    | FallDue(c: Id)

  datatype CalAct =
    | Claim
    | CheckBooking
    | NothingToWrite
    | Decide(others: bool)
    | CountLook(end: End)
    | TakeBack
    | Reread
    | RecordMute
    | Write(lands: bool, end: End)
    | Throw(end: End)
    | Record
    | Die

  datatype MailAct =
    | ClaimMail
    | Accept
    | Refuse
    | SendFails(end: End)
    | RecordDone
    | RecordDoneFails(end: End)
    | FindChange(row: Option<Id>)
    | CheckLive
    | QueueReinvite
    | FollowUpFails
    | RecordEnd
    | MailDies

  datatype ReinviteAct =
    | ClaimReinvite
    | CheckOn
    | FindMarked(row: Option<Id>, end: End)
    | ReadMail(end: End, former: Option<Status>)
    | FindTarget(has: bool)
    | RemoveGuest
    | RecordRemoved
    | AddGuest
    | RecordAdded
    | ReinviteThrows(end: End)
    | RecordReinvite
    | ReinviteDies

  datatype Act = Request(r: RequestAct) | Cal(c: Id, a: CalAct) | Mail(e: Id, m: MailAct) | Again(i: Id, g: ReinviteAct)

  predicate Marks(s: State, c: Id, e: Id) {
    c in s.cal && s.cal[c].mark.Some? && s.cal[c].mark.value.email == e
  }

  ghost predicate HasReinvite(s: State, e: Id) {
    exists r :: r in s.again && s.again[r].email == e
  }

  /** A create or a move carries this email's mark. */
  ghost predicate Marked(s: State, e: Id) {
    exists c :: Marks(s, c, e) && s.cal[c].change != Delete
  }

  /** The status of an email of this booking: one that marked a row before the takeover is not. */
  function MailStatus(s: State, e: Id): Option<Status> {
    if e in s.mail then Some(s.mail[e].status) else None
  }

  /**
   The in-order claim: only the oldest ACTIVE calendar row of the booking can be
   claimed. A row scheduled for later and never tried holds nobody back.
   */
  ghost predicate Head(s: State, id: Id) {
    && (forall c :: c in s.cal && c < id ==> !(s.cal[c].status == Pending && s.cal[c].due))
    && (forall r :: r in s.again && r < id ==> s.again[r].status != Pending)
  }

  predicate Fails(end: End) { end == Retry || end == GiveUp }

  // Requests: a booking change queues its calendar row and its invitee email,
  // each on its own, then the email marks a row still waiting for its change.

  ghost predicate CanRequest(s: State, a: RequestAct) {
    match a
    case QueueChange(change) => true
    case CancelBooking => s.on
    case QueueMail(kind) => true
    case Tag(e, row) =>
      && e in s.mail && !s.mail[e].tagged
      && (row.Some? ==>
            && row.value in s.cal
            && var c := s.cal[row.value];
            c.change == ChangeFor(s.mail[e].kind) && c.status == Pending && c.pc == Waiting && c.mark.None?)
    case DropMail(e) => e in s.mail && !s.on && s.mail[e].status == Pending && s.mail[e].kind != Cancellation
    case FallDue(c) => c in s.cal
  }

  ghost function TakeRequest(s: State, a: RequestAct): State
    requires CanRequest(s, a)
  {
    match a
    case QueueChange(change) =>
      s.(cal := s.cal[s.next := CalRow(change, Pending, false, Waiting, None, None, {}, false, 0)], next := s.next + 1)
    case CancelBooking => s.(on := false)
    case QueueMail(kind) =>
      s.(mail := s.mail[s.next := MailRow(kind, Pending, Idle, false, false, false, false)], next := s.next + 1)
    case Tag(e, row) =>
      var t := s.(mail := s.mail[e := s.mail[e].(tagged := true)]);
      if row.None? then t
      else t.(cal := t.cal[row.value := t.cal[row.value].(mark := Some(Mark(e, false, 0, false, false)))])
    case DropMail(e) => s.(mail := s.mail - {e})
    case FallDue(c) => s.(cal := s.cal[c := s.cal[c].(due := true)])
  }

  // The calendar job: runCalendarJob, providerInvites, and the write of the
  // organizer's event (the one event that may notify the guest).

  /** What providerInvites does next once it reads the email's status. */
  function Decision(s: State, row: CalRow, others: bool): CalPc {
    if row.change != Delete && row.seen.Some? && row.seen.value.muted then Writing(EmailReplaces)
    else if others then Writing(OtherGuests)
    else if !s.delivers then Writing(NoTransport)
    else if row.seen.None? then Writing(Untagged)
    else
      var status := MailStatus(s, row.seen.value.email);
      if status != Some(Pending) && status != Some(Done) then Writing(EmailEnded)
      else if status == Some(Pending) && row.change == Delete then
        if row.seen.value.looks < WAIT_LOOKS then Looking else TakingBack
      else Muting
  }

  ghost predicate CanCal(s: State, c: Id, a: CalAct) {
    c in s.cal && var row := s.cal[c];
    match a
    case Claim => row.status == Pending && row.pc == Waiting && row.due && Head(s, c)
    case CheckBooking => row.pc == Started
    case NothingToWrite => row.pc == Ready
    case Decide(_) => row.pc == Ready
    case CountLook(end) => row.pc == Looking && Fails(end)
    case TakeBack => row.pc == TakingBack
    case Reread => row.pc == Rereading
    case RecordMute => row.pc == Muting
    case Write(_, end) => row.pc.Writing? && end != Skip
    case Throw(end) => row.pc != Waiting && !row.pc.Ending? && Fails(end)
    case Record => row.pc.Ending?
    case Die => row.pc != Waiting
  }

  /** The mail row a take-back writes, when the email is queued and nobody is sending it. */
  predicate TakesBack(s: State, e: Id) {
    e in s.mail && s.mail[e].status == Pending && s.mail[e].pc == Idle
  }

  ghost function CalAfter(s: State, row: CalRow, a: CalAct): CalRow {
    match a
    case Claim => row.(pc := Started, seen := row.mark)
    case CheckBooking => row.(pc := if row.change != Delete && !s.on then Ending(Skip) else Ready)
    case NothingToWrite => row.(pc := Ending(Finish))
    case Decide(others) => row.(pc := Decision(s, row, others))
    case CountLook(end) =>
      if row.seen.None? then row
      else row.(mark := Some(row.seen.value.(looks := row.seen.value.looks + 1)), pc := Ending(end))
    case TakeBack =>
      if row.seen.None? then row
      else row.(pc := if TakesBack(s, row.seen.value.email) then Writing(TookBack) else Rereading)
    case Reread =>
      if row.seen.None? then row
      else
        var status := MailStatus(s, row.seen.value.email);
        row.(pc := if status == Some(Pending) && row.seen.value.looks < MAX_LOOKS then Looking
                   else if status == Some(Done) then Muting
                   else Writing(if status == Some(Pending) then MidSend else EmailEnded))
    case RecordMute =>
      if row.seen.None? then row
      else row.(mark := Some(row.seen.value.(muted := true)), pc := Writing(EmailReplaces))
    case Write(lands, end) =>
      if !row.pc.Writing? then row
      else row.(whys := if lands then row.whys + {row.pc.why} else row.whys, pc := Ending(end))
    case Throw(end) => row.(pc := Ending(end))
    case Record => if row.pc.Ending? then row.(status := StatusAfter(row.pc.end), pc := Waiting) else row
    case Die => row.(pc := Waiting)
  }

  ghost function TakeCal(s: State, c: Id, a: CalAct): State
    requires CanCal(s, c, a)
  {
    var row := s.cal[c];
    var t := s.(cal := s.cal[c := CalAfter(s, row, a)]);
    if a == TakeBack && row.seen.Some? && TakesBack(s, row.seen.value.email) then
      t.(mail := s.mail[row.seen.value.email := s.mail[row.seen.value.email].(status := Skipped)])
    else if a.Write? && a.lands && row.change != Delete then t.(guestOn := true)
    else t
  }

  // The email job: deliver, and on an unsent end the worker's compensate and
  // afterGaveUp before the end is recorded.

  ghost predicate CanMail(s: State, e: Id, a: MailAct) {
    e in s.mail && var row := s.mail[e];
    match a
    case ClaimMail => row.status == Pending && row.pc == Idle
    case Accept => row.pc == Sending
    case Refuse => row.pc == Sending
    case SendFails(end) => row.pc == Sending && Fails(end)
    case RecordDone => row.pc == Accepted
    case RecordDoneFails(end) => row.pc == Accepted && Fails(end)
    case FindChange(found) =>
      && row.pc.Finding?
      && (found.Some? ==> Marks(s, found.value, e))
      && (found.None? ==> row.kind == Cancellation || forall c :: c in s.cal ==> !Marks(s, c, e))
    case CheckLive => row.pc.Checking?
    case QueueReinvite => row.pc.Queueing?
    case FollowUpFails => row.pc.Finding? || row.pc.Checking? || row.pc.Queueing?
    case RecordEnd => row.pc.MailEnding?
    case MailDies => row.pc != Idle
  }

  function AfterFailedSend(end: End): MailPc {
    if end == Retry then MailEnding(Retry) else Finding(end)
  }

  ghost function MailAfter(s: State, row: MailRow, a: MailAct): MailRow {
    match a
    case ClaimMail => row.(pc := Sending)
    case Accept => row.(pc := Accepted, accepted := true)
    case Refuse => row.(pc := Finding(Skip))
    case SendFails(end) => row.(pc := AfterFailedSend(end))
    case RecordDone => row.(status := Done, pc := Idle)
    case RecordDoneFails(end) => row.(pc := AfterFailedSend(end), lost := true)
    case FindChange(found) =>
      if !row.pc.Finding? then row
      else if row.kind == Cancellation then row.(pc := MailEnding(row.pc.end))
      else row.(pc := if found.Some? && found.value in s.cal && s.cal[found.value].change != Delete
                      then Checking(row.pc.end) else MailEnding(row.pc.end),
                early := !row.tagged)
    case CheckLive =>
      if !row.pc.Checking? then row
      else row.(pc := if s.on then Queueing(row.pc.end) else MailEnding(row.pc.end))
    case QueueReinvite => if row.pc.Queueing? then row.(pc := MailEnding(row.pc.end)) else row
    case FollowUpFails => row.(pc := MailEnding(Retry))
    case RecordEnd => if row.pc.MailEnding? then row.(status := StatusAfter(row.pc.end), pc := Idle) else row
    case MailDies => row.(pc := Idle, lost := row.lost || row.pc == Accepted)
  }

  ghost function TakeMail(s: State, e: Id, a: MailAct): State
    requires CanMail(s, e, a)
  {
    var t := s.(mail := s.mail[e := MailAfter(s, s.mail[e], a)]);
    if a == QueueReinvite && !HasReinvite(s, e) then
      t.(again := s.again[s.next := Reinvite(e, Pending, false, Resting, Unsettled)], next := s.next + 1)
    else t
  }

  // The reinvite job: the guest is taken off the organizer's event quietly,
  // then put back with the provider inviting, each step recorded once done. It
  // reads its email by id alone, so `former` is what one that stayed with the
  // booking taken over has come to.

  ghost predicate CanAgain(s: State, i: Id, a: ReinviteAct) {
    i in s.again && var row := s.again[i];
    match a
    case ClaimReinvite => row.status == Pending && row.pc == Resting && Head(s, i)
    case CheckOn => row.pc == Claimed
    case FindMarked(found, end) =>
      && row.pc == Lookup && Fails(end)
      && (found.Some? ==> Marks(s, found.value, row.email))
      && (found.None? ==> forall c :: c in s.cal ==> !Marks(s, c, row.email))
    case ReadMail(end, _) => row.pc.MailCheck? && Fails(end)
    case FindTarget(_) => row.pc.Targeting?
    case RemoveGuest => row.pc.Removing?
    case RecordRemoved => row.pc.Removed? && row.pc.c in s.cal
    case AddGuest => row.pc.Adding? && row.pc.c in s.cal
    case RecordAdded => row.pc.Added? && row.pc.c in s.cal
    case ReinviteThrows(end) => row.pc != Resting && !row.pc.ReinviteEnding? && Fails(end)
    case RecordReinvite => row.pc.ReinviteEnding?
    case ReinviteDies => row.pc != Resting
  }

  ghost function AgainAfter(s: State, row: Reinvite, a: ReinviteAct): Reinvite {
    match a
    case ClaimReinvite => row.(pc := Claimed, tried := true, outcome := Unsettled)
    case CheckOn => row.(pc := if s.on then Lookup else ReinviteEnding(Skip))
    case FindMarked(found, end) =>
      if found.None? || found.value !in s.cal || s.cal[found.value].mark.None?
         || s.cal[found.value].change == Delete then
        row.(pc := ReinviteEnding(Finish), outcome := Nothing)
      else
        var change := s.cal[found.value];
        if change.status == Pending then row.(pc := ReinviteEnding(end))
        else if !change.mark.value.muted || change.mark.value.reinvited then
          row.(pc := ReinviteEnding(Finish), outcome := Nothing)
        else row.(pc := MailCheck(found.value, change.mark.value))
    case ReadMail(end, former) =>
      if !row.pc.MailCheck? then row
      else
        var status := if row.email < s.first then former else MailStatus(s, row.email);
        if status == Some(Done) then row.(pc := ReinviteEnding(Finish), outcome := Nothing)
        else if status == Some(Pending) then row.(pc := ReinviteEnding(end))
        else row.(pc := Targeting(row.pc.c, row.pc.m))
    case FindTarget(has) =>
      if !row.pc.Targeting? then row
      else if !has then row.(pc := ReinviteEnding(Finish), outcome := NoTarget)
      else row.(pc := if row.pc.m.removed then Adding(row.pc.c, row.pc.m) else Removing(row.pc.c, row.pc.m))
    case RemoveGuest =>
      if !row.pc.Removing? then row else row.(pc := Removed(row.pc.c, row.pc.m.(removed := true)))
    case RecordRemoved => if !row.pc.Removed? then row else row.(pc := Adding(row.pc.c, row.pc.m))
    case AddGuest => if !row.pc.Adding? then row else row.(pc := Added(row.pc.c, row.pc.m))
    case RecordAdded => row.(pc := ReinviteEnding(Finish), outcome := Invited)
    case ReinviteThrows(end) => row.(pc := ReinviteEnding(end))
    case RecordReinvite =>
      if row.pc.ReinviteEnding? then row.(status := StatusAfter(row.pc.end), pc := Resting) else row
    case ReinviteDies => row.(pc := Resting)
  }

  ghost function TakeAgain(s: State, i: Id, a: ReinviteAct): State
    requires CanAgain(s, i, a)
  {
    var row := s.again[i];
    var t := s.(again := s.again[i := AgainAfter(s, row, a)]);
    match a
    case RemoveGuest => t.(guestOn := false)
    case RecordRemoved => t.(cal := s.cal[row.pc.c := s.cal[row.pc.c].(mark := Some(row.pc.m))])
    case AddGuest =>
      var c := s.cal[row.pc.c];
      t.(guestOn := true,
         cal := s.cal[row.pc.c := c.(reasked := true, notices := c.notices + if s.guestOn then 0 else 1)])
    case RecordAdded =>
      t.(cal := s.cal[row.pc.c := s.cal[row.pc.c].(mark := Some(row.pc.m.(reinvited := true)))])
    case _ => t
  }

  ghost predicate Can(s: State, a: Act) {
    match a
    case Request(r) => CanRequest(s, r)
    case Cal(c, x) => CanCal(s, c, x)
    case Mail(e, x) => CanMail(s, e, x)
    case Again(i, x) => CanAgain(s, i, x)
  }

  ghost function Take(s: State, a: Act): State
    requires Can(s, a)
  {
    match a
    case Request(r) => TakeRequest(s, r)
    case Cal(c, x) => TakeCal(s, c, x)
    case Mail(e, x) => TakeMail(s, e, x)
    case Again(i, x) => TakeAgain(s, i, x)
  }

  /**
   A calendar row that came with the booking: queued, at rest, and marked, if at
   all, by an email that did not come.
   */
  predicate CalCame(s: State, row: CalRow) {
    && row.change != Delete && row.status == Pending && row.pc == Waiting && !row.reasked && row.notices == 0
    && (row.mark.Some? ==>
          && row.mark.value.email < s.first && row.mark.value.looks <= MAX_LOOKS
          && !row.mark.value.removed && !row.mark.value.reinvited)
    && (EmailReplaces in row.whys ==> row.mark.Some? && row.mark.value.muted)
  }

  /** A reinvite that came with the booking: queued and at rest. */
  ghost predicate AgainCame(s: State, i: Id)
    requires i in s.again
  {
    var row := s.again[i];
    && row.email < s.first && row.status == Pending && row.pc == Resting && row.outcome == Unsettled
    && (row.tried ==> forall r :: r in s.again ==> i <= r)
  }

  /** A booking starts with nothing, or with the rows still queued for the one it took over. */
  ghost predicate Init(s: State) {
    && s.on && s.mail == map[] && s.first == s.next
    && (forall c {:trigger c in s.cal} {:trigger s.cal[c]} :: c in s.cal ==> c < s.first && CalCame(s, s.cal[c]))
    && (forall i {:trigger AgainCame(s, i)} :: i in s.again ==> i < s.first && AgainCame(s, i))
    && (forall c, d, e :: Marks(s, c, e) && Marks(s, d, e) ==> c == d)
    && (forall i, j :: i in s.again && j in s.again && s.again[i].email == s.again[j].email ==> i == j)
  }

  /** What a booking that takes over one in state `s` starts with: its queued calendar rows and reinvites. */
  function TakenOver(s: State): State {
    State(s.delivers, true, s.guestOn,
          map c | c in s.cal && s.cal[c].status == Pending :: s.cal[c], map[],
          map r | r in s.again && s.again[r].status == Pending :: s.again[r].(outcome := Unsettled), s.next, s.next)
  }

  /** `t` is what the steps `run`, one after the other, make of `s`. */
  ghost predicate Runs(s: State, run: seq<Act>, t: State)
    decreases |run|
  {
    if run == [] then t == s
    else Can(s, run[0]) && Runs(Take(s, run[0]), run[1..], t)
  }
}
