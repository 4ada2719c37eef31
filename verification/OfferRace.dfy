/** The offers of a case without the assumption that a call is one step. Relaunching the notices
    and the window job hold no lock at all; exercising, waiving, accepting and declining read
    their notice or invitation before they lock the case, or never lock it, and do not look at
    it again. Any command of the platform may come in between. */
module OfferRace {
  import opened Lifecycle
  import opened Counting
  import opened Rows
  import opened Rules
  import opened CaseSteps
  import opened CaseProperties
  import opened Platform
  import opened TransferTheorems

  /** A call between two of its reads and writes, named by what comes next. `ends` is the window
      end that a relaunch computed when it read the case; `holdings` are the rows it found. */
  datatype Ticket =
    // a relaunch that found the window open
    | WriteEnd(id: nat, ends: int)
    | Extend(id: nat, ends: int)
    | Find(id: nat, ends: int)
    | Ask(id: nat, ends: int, holdings: seq<Holding>, i: nat)
    | Create(id: nat, ends: int, holdings: seq<Holding>, i: nat)
    // the window job that has lapsed the notices
    | Tally(id: nat)
    | LookAt(id: nat)
    | Close(id: nat)
    | FindBuyer(id: nat)
    | AttachTo(id: nat, buyer: UserId)
    // holders and invited buyers whose notice or invitation was pending
    | Exercise(id: nat, user: UserId, notice: nat)
    | CountOthers(id: nat, notice: nat)
    | Waive(id: nat, notice: nat, last: bool)
    | Accept(id: nat, user: UserId, invitation: nat, presented: Option<int>)
    | Decline(id: nat, invitation: nat)

  datatype Desk = Desk(w: World, tickets: map<nat, Ticket>)

  /** `Drop` is a call that dies; `Whole` is any command in one step. */
  datatype Move =
    | ReadRelaunch(ticket: nat, id: nat, issuer: UserId, days: int)
    | Lapse(ticket: nat, id: nat)
    | ReadExercise(ticket: nat, id: nat, user: UserId, notice: nat)
    | ReadWaive(ticket: nat, id: nat, user: UserId, notice: nat)
    | ReadAccept(ticket: nat, id: nat, user: UserId, invitation: nat, presented: Option<int>)
    | ReadDecline(ticket: nat, id: nat, user: UserId, invitation: nat)
    | Step(ticket: nat)
    | Drop(ticket: nat)
    | Whole(cmd: Command)

  // ---- the steps ----

  function WithNotice(c: Case, notice: nat, status: NoticeStatus): Case {
    if notice < |c.notices| then c.(notices := c.notices[notice := c.notices[notice].(status := status)]) else c
  }

  function DeclinedAt(c: Case, invitation: nat): Case {
    if invitation < |c.invitations|
    then c.(invitations := c.invitations[invitation := c.invitations[invitation].(status := Declined)])
    else c
  }

  function OrSame(r: Result<Case>, c: Case): Case {
    if r.Ok? then r.value else c
  }

  /** What is checked under the lock: everything but that the invitation is pending. */
  function LateGate(w: World, c: Case, user: UserId, invitation: nat, presented: Option<int>): Result<()> {
    if invitation >= |c.invitations| then Err(NotFound)
    else if w.now > c.invitations[invitation].expiresAt then Err(BadRequest)
    else if user !in w.users then Err(NotFound)
    else if presented.Some? && presented.value != c.invitations[invitation].token then Err(Forbidden)
    else if presented.None? && w.users[user] != c.invitations[invitation].email then Err(Forbidden)
    else if c.buyer.Some? && c.buyer.value != user then Err(BadRequest)
    else if !c.status.KycReady? then Err(BadRequest)
    else Ok(())
  }

  function LateAccept(w: World, c: Case, user: UserId, invitation: nat, presented: Option<int>): Result<Case> {
    var _ :- LateGate(w, c, user, invitation, presented);
    if invitation < |c.invitations| then Attach(w, Taken(c, user, invitation), user, c.status, Some(user))
    else Err(NotFound)
  }

  /** A waiver commits its notice and, if it had counted no other pending one, the close. */
  function LateWaive(w: World, c: Case, notice: nat, last: bool): Result<Case> {
    var waived := WithNotice(c, notice, Waived);
    if last && c.status.PriorityWindow? then
      var ready :- Advance(waived, Some(PriorityWindow), KycReady, None);
      AttachKnownBuyer(w, ready, None)
    else Ok(waived)
  }

  predicate Asked(t: Ticket, c: Case)
    requires t.Ask?
  {
    t.i < |t.holdings| && IsCoHolder(t.holdings[t.i], c) && !HasNotice(c.notices, t.holdings[t.i].user)
  }

  /** The case after the next step of a call. */
  function CaseAfter(w: World, c: Case, t: Ticket): Case {
    match t
    case WriteEnd(_, ends) => c.(windowEnds := Some(ends))
    case Extend(_, ends) => c.(notices := ExtendPending(c.notices, ends))
    case Create(_, ends, holdings, i) =>
      if i < |holdings| then c.(notices := c.notices + [Notice(holdings[i].user, i, NoticePending, ends)]) else c
    case Close(_) => OrSame(Advance(c, Some(PriorityWindow), KycReady, None), c)
    case AttachTo(_, buyer) => OrSame(Attach(w, c, buyer, KycReady, None), c)
    case Exercise(_, user, notice) =>
      if notice < |c.notices|
      then OrSame(Attach(w, WithNotice(c, notice, Exercised), user, c.status, Some(user)), c)
      else c
    case Waive(_, notice, last) => OrSame(LateWaive(w, c, notice, last), c)
    case Accept(_, user, invitation, presented) => OrSame(LateAccept(w, c, user, invitation, presented), c)
    case Decline(_, invitation) => DeclinedAt(c, invitation)
    case _ => c
  }

  /** What the call does after that, if it goes on. */
  function TicketAfter(w: World, c: Case, t: Ticket): Option<Ticket> {
    match t
    case WriteEnd(id, ends) => Some(Extend(id, ends))
    case Extend(id, ends) => Some(Find(id, ends))
    case Find(id, ends) => Some(Ask(id, ends, w.holdings, 0))
    case Ask(id, ends, holdings, i) =>
      if i >= |holdings| then None
      else if Asked(t, c) then Some(Create(id, ends, holdings, i))
      else Some(Ask(id, ends, holdings, i + 1))
    case Create(id, ends, holdings, i) => Some(Ask(id, ends, holdings, i + 1))
    case Tally(id) => if AnyPendingNotice(c.notices) then None else Some(LookAt(id))
    case LookAt(id) => if c.status.PriorityWindow? then Some(Close(id)) else None
    case Close(id) => if Advance(c, Some(PriorityWindow), KycReady, None).Ok? then Some(FindBuyer(id)) else None
    case FindBuyer(id) => if c.status.KycReady? && c.buyer.Some? then Some(AttachTo(id, c.buyer.value)) else None
    case CountOthers(id, notice) => Some(Waive(id, notice, !AnyPendingNotice(WithNotice(c, notice, Waived).notices)))
    case _ => None
  }

  function Put(w: World, id: nat, c: Case): World {
    if id < |w.cases| then w.(cases := w.cases[id := c]) else w
  }

  function Kept(tickets: map<nat, Ticket>, k: nat, t: Option<Ticket>): map<nat, Ticket> {
    if t.Some? then tickets[k := t.value] else tickets - {k}
  }

  predicate Free(d: Desk, k: nat, id: nat) {
    k !in d.tickets && id < |d.w.cases|
  }

  function Begun(d: Desk, k: nat, t: Ticket, ok: bool): Desk {
    if ok then d.(tickets := d.tickets[k := t]) else d
  }

  predicate NoticePendingFor(c: Case, user: UserId, notice: nat) {
    notice < |c.notices| && c.notices[notice].holder == user && c.notices[notice].status.NoticePending?
  }

  function Play(d: Desk, m: Move): Desk {
    match m
    case ReadRelaunch(k, id, issuer, days) =>
      if !Free(d, k, id) then d
      else
        var c := d.w.cases[id];
        Begun(d, k, WriteEnd(id, RelaunchEnd(d.w, c, days)), IssuerAccess(d.w, c, issuer).Ok? && c.status.PriorityWindow?)
    case Lapse(k, id) =>
      if !Free(d, k, id) then d
      else
        var c := d.w.cases[id];
        Desk(Put(d.w, id, c.(notices := LapsePending(c.notices))), d.tickets[k := Tally(id)])
    case ReadExercise(k, id, user, notice) =>
      if !Free(d, k, id) then d
      else
        var c := d.w.cases[id];
        Begun(d, k, Exercise(id, user, notice),
              NoticePendingFor(c, user, notice) && d.w.now <= c.notices[notice].expiresAt)
    case ReadWaive(k, id, user, notice) =>
      if !Free(d, k, id) then d
      else Begun(d, k, CountOthers(id, notice), NoticePendingFor(d.w.cases[id], user, notice))
    case ReadAccept(k, id, user, invitation, presented) =>
      if !Free(d, k, id) then d
      else
        var c := d.w.cases[id];
        Begun(d, k, Accept(id, user, invitation, presented),
              invitation < |c.invitations| && c.invitations[invitation].status.InvitationPending?)
    case ReadDecline(k, id, user, invitation) =>
      if !Free(d, k, id) then d
      else Begun(d, k, Decline(id, invitation), DoDecline(d.w, d.w.cases[id], user, invitation).Ok?)
    case Step(k) =>
      if k !in d.tickets || d.tickets[k].id >= |d.w.cases| then d
      else
        var t := d.tickets[k];
        var c := d.w.cases[t.id];
        Desk(Put(d.w, t.id, CaseAfter(d.w, c, t)), Kept(d.tickets, k, TicketAfter(d.w, c, t)))
    case Drop(k) => d.(tickets := d.tickets - {k})
    case Whole(cmd) => d.(w := Next(d.w, cmd))
  }

  function Played(moves: seq<Move>): Desk {
    if moves == [] then Desk(EMPTY, map[]) else Play(Played(moves[..|moves| - 1]), moves[|moves| - 1])
  }

  lemma PlayedSnoc(moves: seq<Move>, m: Move)
    ensures Played(moves + [m]) == Play(Played(moves), m)
  {
    assert (moves + [m])[..|moves|] == moves;
  }

  // ---- what a move does to one case ----

  /** The call whose step a move is, when it is one on this case. */
  predicate StepsOn(d: Desk, m: Move, id: nat) {
    m.Step? && m.ticket in d.tickets && d.tickets[m.ticket].id == id
  }

  lemma CaseOfMove(d: Desk, m: Move, id: nat)
    requires id < |d.w.cases|
    ensures id < |Play(d, m).w.cases|
    ensures var c, v := d.w.cases[id], Play(d, m).w.cases[id];
      && (StepsOn(d, m, id) ==> v == CaseAfter(d.w, c, d.tickets[m.ticket]))
      && (m.Whole? ==> v == Next(d.w, m.cmd).cases[id])
      && (!StepsOn(d, m, id) && !m.Whole? ==> v == c || v == c.(notices := LapsePending(c.notices)))
  {
    if m.Whole? { CaseMoves(d.w, m.cmd, id); }
  }

  // ---- what every step on one case keeps ----

  /** Before its window a case has no notice. */
  predicate Early(c: Case) {
    Rank(c.status) < Rank(PriorityWindow) ==> c.notices == []
  }

  /** The calls that had found the window open. */
  predicate SawWindow(t: Ticket) {
    t.WriteEnd? || t.Extend? || t.Find? || t.Ask? || t.Create? || t.Close?
  }

  predicate PastReview(c: Case) {
    Rank(c.status) >= Rank(PriorityWindow)
  }

  lemma StepKeepsEarly(w: World, c: Case, t: Ticket)
    requires Early(c) && (SawWindow(t) ==> PastReview(c))
    ensures Early(CaseAfter(w, c, t))
    ensures PastReview(c) ==> PastReview(CaseAfter(w, c, t))
  {
  }

  lemma OffersStayPast(w: World, c: Case, cmd: CaseCommand)
    requires !LeavesOffers(cmd) && CaseStep(w, c, cmd).Ok?
    ensures PastReview(c) ==> PastReview(CaseStep(w, c, cmd).value)
  {
  }

  lemma OffersKeepEarly(w: World, c: Case, cmd: CaseCommand)
    requires !LeavesOffers(cmd) && Early(c) && CaseStep(w, c, cmd).Ok?
    ensures Early(CaseStep(w, c, cmd).value)
  {
  }

  lemma WholeKeepsEarly(w: World, c: Case, cmd: CaseCommand)
    requires Early(c) && CaseStep(w, c, cmd).Ok?
    ensures Early(CaseStep(w, c, cmd).value)
    ensures PastReview(c) ==> PastReview(CaseStep(w, c, cmd).value)
  {
    if LeavesOffers(cmd) {
      OffersUntouched(w, c, cmd);
      OnlyOffersMoveOffers(w, c, cmd);
    } else {
      OffersStayPast(w, c, cmd);
      OffersKeepEarly(w, c, cmd);
    }
  }

  lemma NewCaseAt(w: World, cmd: Command, id: nat)
    requires |w.cases| <= id < |Next(w, cmd).cases|
    ensures var c := Next(w, cmd).cases[id];
      c.status.ManagerReview? && c.notices == [] && c.invitations == []
  {
  }

  ghost predicate SoundFor(d: Desk, id: nat) {
    && (forall k | k in d.tickets :: d.tickets[k].id < |d.w.cases|)
    && (id < |d.w.cases| ==>
          && Early(d.w.cases[id])
          && forall k | k in d.tickets && d.tickets[k].id == id && SawWindow(d.tickets[k]) :: PastReview(d.w.cases[id]))
  }

  lemma MoveKeepsEarly(d: Desk, m: Move, id: nat)
    requires SoundFor(d, id) && id < |d.w.cases|
    ensures id < |Play(d, m).w.cases| && Early(Play(d, m).w.cases[id])
    ensures PastReview(d.w.cases[id]) ==> PastReview(Play(d, m).w.cases[id])
  {
    CaseOfMove(d, m, id);
    var c := d.w.cases[id];
    if StepsOn(d, m, id) {
      StepKeepsEarly(d.w, c, d.tickets[m.ticket]);
    } else if m.Whole? {
      CaseMoves(d.w, m.cmd, id);
      if m.cmd.OnCase? && m.cmd.id == id && CaseStep(d.w, c, m.cmd.step) == Ok(Play(d, m).w.cases[id]) {
        WholeKeepsEarly(d.w, c, m.cmd.step);
      }
    }
  }

  /** The tickets after a move are old ones, or new ones for a window that is open, or the
      continuation of the call that made a step. */
  lemma TicketsOfMove(d: Desk, m: Move, k: nat)
    requires k in Play(d, m).tickets
    ensures var t := Play(d, m).tickets[k];
      || (k in d.tickets && d.tickets[k] == t)
      || (t.id < |d.w.cases| && (SawWindow(t) ==> d.w.cases[t.id].status.PriorityWindow?))
      || (m == Step(k) && k in d.tickets && d.tickets[k].id == t.id && SawWindow(d.tickets[k]))
  {
  }

  lemma CasesOnlyGrow(d: Desk, m: Move)
    ensures |d.w.cases| <= |Play(d, m).w.cases|
  {
    if m.Whole? && d.w.cases != [] { CaseMoves(d.w, m.cmd, |d.w.cases| - 1); }
  }

  lemma MoveKeepsSound(d: Desk, m: Move, id: nat)
    requires SoundFor(d, id)
    ensures SoundFor(Play(d, m), id)
  {
    var v := Play(d, m);
    CasesOnlyGrow(d, m);
    if id < |d.w.cases| {
      MoveKeepsEarly(d, m, id);
    } else if id < |v.w.cases| {
      NewCaseAt(d.w, m.cmd, id);
    }
    forall k | k in v.tickets
      ensures v.tickets[k].id < |v.w.cases|
      ensures v.tickets[k].id == id && SawWindow(v.tickets[k]) ==> PastReview(v.w.cases[id])
    {
      TicketsOfMove(d, m, k);
    }
  }

  lemma {:induction false} PlayedSound(moves: seq<Move>, id: nat)
    ensures SoundFor(Played(moves), id)
  {
    if moves != [] {
      PlayedSound(moves[..|moves| - 1], id);
      MoveKeepsSound(Played(moves[..|moves| - 1]), moves[|moves| - 1], id);
    }
  }

  // ---- no pending notice once the window is closed ----

  predicate Clear(c: Case) {
    c.status.KycReady? ==> !AnyPendingNotice(c.notices)
  }

  /** The steps that leave a pending notice on a case whose window is closed: a relaunch that
      creates one now, the job closing over a notice that came after its count, and a waiver
      doing so when no known buyer takes the case further. */
  predicate SpoilsClear(c: Case, t: Ticket) {
    match t
    case Create(_, _, holdings, i) => c.status.KycReady? && i < |holdings|
    case Close(_) => c.status.PriorityWindow? && AnyPendingNotice(c.notices)
    case Waive(_, notice, last) =>
      last && c.status.PriorityWindow? && c.buyer.None? && AnyPendingNotice(WithNotice(c, notice, Waived).notices)
    case _ => false
  }

  lemma CreateSpoils(w: World, c: Case, t: Ticket)
    requires t.Create? && Clear(c)
    ensures !Clear(CaseAfter(w, c, t)) <==> SpoilsClear(c, t)
  {
    var d := CaseAfter(w, c, t);
    if t.i < |t.holdings| { assert d.notices[|c.notices|].status.NoticePending?; }
  }

  lemma WaiveSpoils(w: World, c: Case, t: Ticket)
    requires t.Waive? && Clear(c)
    ensures !Clear(CaseAfter(w, c, t)) <==> SpoilsClear(c, t)
  {
    var waived := WithNotice(c, t.notice, Waived);
    assert AnyPendingNotice(waived.notices) ==> AnyPendingNotice(c.notices);
    if t.last && c.status.PriorityWindow? && c.buyer.Some? {
      var ready := Advance(waived, Some(PriorityWindow), KycReady, None).value;
      if AttachKnownBuyer(w, ready, None).Ok? { AttachClimbs(w, ready, c.buyer.value, KycReady, None); }
    }
  }

  lemma ExtendSameStatuses(c: Case, ends: int)
    ensures AnyPendingNotice(ExtendPending(c.notices, ends)) <==> AnyPendingNotice(c.notices)
  {
    var e := ExtendPending(c.notices, ends);
    assert forall i | 0 <= i < |e| :: e[i].status == c.notices[i].status;
  }

  lemma AttachedIsClear(w: World, c: Case, d: Case, buyer: UserId, prior: Status, actor: Option<UserId>)
    requires Attach(w, c, buyer, prior, actor) == Ok(d)
    ensures Clear(d) && Rank(d.status) >= Rank(BuyerSelected)
    ensures c.status.PriorityWindow? || c.status.KycReady?
  {
    AttachClimbs(w, c, buyer, prior, actor);
  }

  lemma AttachStepsBuy(w: World, c: Case, t: Ticket)
    requires t.AttachTo? || t.Exercise? || t.Accept?
    ensures CaseAfter(w, c, t) != c ==>
      Rank(CaseAfter(w, c, t).status) >= Rank(BuyerSelected) && (c.status.PriorityWindow? || c.status.KycReady?)
  {
    match t {
      case AttachTo(_, buyer) =>
        if Attach(w, c, buyer, KycReady, None).Ok? {
          AttachedIsClear(w, c, CaseAfter(w, c, t), buyer, KycReady, None);
        }
      case Exercise(_, user, notice) =>
        var taken := WithNotice(c, notice, Exercised);
        if notice < |c.notices| && Attach(w, taken, user, c.status, Some(user)).Ok? {
          AttachedIsClear(w, taken, CaseAfter(w, c, t), user, c.status, Some(user));
        }
      case Accept(_, user, invitation, presented) =>
        if LateAccept(w, c, user, invitation, presented).Ok? {
          AttachedIsClear(w, Taken(c, user, invitation), CaseAfter(w, c, t), user, c.status, Some(user));
        }
    }
  }

  lemma StepSpoilsExactly(w: World, c: Case, t: Ticket)
    requires Clear(c) && (SawWindow(t) ==> PastReview(c))
    ensures !Clear(CaseAfter(w, c, t)) <==> SpoilsClear(c, t)
  {
    match t
    case Create(_, _, _, _) => CreateSpoils(w, c, t);
    case Waive(_, _, _) => WaiveSpoils(w, c, t);
    case Extend(_, ends) => ExtendSameStatuses(c, ends);
    case AttachTo(_, _) => AttachStepsBuy(w, c, t);
    case Exercise(_, _, _) => AttachStepsBuy(w, c, t);
    case Accept(_, _, _, _) => AttachStepsBuy(w, c, t);
    case Close(_) =>
    case _ =>
  }

  lemma OffersStayClear(w: World, c: Case, cmd: CaseCommand)
    requires !LeavesOffers(cmd) && Early(c) && Clear(c) && CaseStep(w, c, cmd).Ok?
    ensures Clear(CaseStep(w, c, cmd).value)
  {
    match cmd
    case ExerciseNotice(user, notice) => ExerciseClear(w, c, user, notice);
    case AcceptInvitation(user, v, presented) => AcceptClear(w, c, user, v, presented);
    case WaiveNotice(user, notice) => WaiveClear(w, c, user, notice);
    case IssuerApprove(issuer, rofr) => ApproveClear(w, c, issuer, rofr);
    case ExpireWindow => ExpireClear(w, c);
    case _ =>
  }

  lemma ExerciseClear(w: World, c: Case, user: UserId, notice: nat)
    requires DoExercise(w, c, user, notice).Ok?
    ensures Clear(DoExercise(w, c, user, notice).value)
  {
    AttachedIsClear(w, c.(notices := c.notices[notice := c.notices[notice].(status := Exercised)]),
      DoExercise(w, c, user, notice).value, user, c.status, Some(user));
  }

  lemma AcceptClear(w: World, c: Case, user: UserId, v: nat, presented: Option<int>)
    requires DoAccept(w, c, user, v, presented).Ok?
    ensures Clear(DoAccept(w, c, user, v, presented).value)
  {
    AttachedIsClear(w, Taken(c, user, v), DoAccept(w, c, user, v, presented).value, user, c.status, Some(user));
  }

  lemma WaiveClear(w: World, c: Case, user: UserId, notice: nat)
    requires Clear(c) && DoWaive(w, c, user, notice).Ok?
    ensures Clear(DoWaive(w, c, user, notice).value)
  {
    var waived := c.notices[notice := c.notices[notice].(status := Waived)];
    assert DoWaive(w, c, user, notice).value.notices == waived;
    assert AnyPendingNotice(waived) ==> AnyPendingNotice(c.notices);
  }

  lemma ApproveClear(w: World, c: Case, issuer: UserId, rofr: Option<bool>)
    requires Early(c) && DoIssuerApprove(w, c, issuer, rofr).Ok?
    ensures Clear(DoIssuerApprove(w, c, issuer, rofr).value)
  {
    var ready := Advance(c, Some(c.status), KycReady, Some(issuer)).value;
    if c.buyer.Some? && AttachKnownBuyer(w, ready, Some(issuer)).Ok? {
      AttachedIsClear(w, ready, AttachKnownBuyer(w, ready, Some(issuer)).value, c.buyer.value, KycReady, Some(issuer));
    }
  }

  lemma ExpireClear(w: World, c: Case)
    ensures Clear(DoExpireWindow(w, c))
  {
    assert DoExpireWindow(w, c).notices == LapsePending(c.notices);
    assert !AnyPendingNotice(LapsePending(c.notices));
  }

  lemma WholeStaysClear(w: World, c: Case, cmd: CaseCommand)
    requires Early(c) && Clear(c) && CaseStep(w, c, cmd).Ok?
    ensures Clear(CaseStep(w, c, cmd).value)
  {
    if LeavesOffers(cmd) {
      OffersUntouched(w, c, cmd);
      OnlyOffersMoveOffers(w, c, cmd);
    } else {
      OffersStayClear(w, c, cmd);
    }
  }

  predicate Spoils(d: Desk, m: Move, id: nat) {
    StepsOn(d, m, id) && id < |d.w.cases| && SpoilsClear(d.w.cases[id], d.tickets[m.ticket])
  }

  ghost predicate ClearFor(d: Desk, id: nat) {
    id < |d.w.cases| ==> Clear(d.w.cases[id])
  }

  lemma MoveSpoilsExactly(d: Desk, m: Move, id: nat)
    requires SoundFor(d, id) && ClearFor(d, id)
    ensures !ClearFor(Play(d, m), id) <==> Spoils(d, m, id)
  {
    var v := Play(d, m);
    if id < |d.w.cases| {
      CaseOfMove(d, m, id);
      var c := d.w.cases[id];
      if StepsOn(d, m, id) {
        StepSpoilsExactly(d.w, c, d.tickets[m.ticket]);
      } else if m.Whole? {
        CaseMoves(d.w, m.cmd, id);
        if m.cmd.OnCase? && m.cmd.id == id && CaseStep(d.w, c, m.cmd.step) == Ok(v.w.cases[id]) {
          WholeStaysClear(d.w, c, m.cmd.step);
        }
      } else {
        assert !AnyPendingNotice(LapsePending(c.notices));
      }
    } else if id < |v.w.cases| {
      NewCaseAt(d.w, m.cmd, id);
    }
  }

  ghost predicate ClearAt(moves: seq<Move>, id: nat, k: nat)
    requires k <= |moves|
  {
    ClearFor(Played(moves[..k]), id)
  }

  ghost predicate SpoilsAt(moves: seq<Move>, id: nat, k: nat)
    requires k < |moves|
  {
    Spoils(Played(moves[..k]), moves[k], id)
  }

  lemma NextClear(moves: seq<Move>, id: nat, k: nat)
    requires k < |moves| && ClearAt(moves, id, k)
    ensures ClearAt(moves, id, k + 1) <==> !SpoilsAt(moves, id, k)
  {
    assert moves[..k + 1][..k] == moves[..k];
    PlayedSound(moves[..k], id);
    MoveSpoilsExactly(Played(moves[..k]), moves[k], id);
  }

  /** All along an interleaved run a case in KYC_READY has no pending notice if and only if no
      relaunch creates one then and no close runs over one that came after its count. */
  lemma ClearExactly(moves: seq<Move>, id: nat)
    ensures (forall k | 0 <= k <= |moves| :: ClearAt(moves, id, k))
      <==> (forall k | 0 <= k < |moves| :: !SpoilsAt(moves, id, k))
  {
    var good := seq(|moves| + 1, k requires 0 <= k <= |moves| => ClearAt(moves, id, k));
    var bad := seq(|moves|, k requires 0 <= k < |moves| => SpoilsAt(moves, id, k));
    forall k | 0 <= k < |bad| && good[k] ensures good[k + 1] <==> !bad[k] {
      NextClear(moves, id, k);
    }
    assert moves[..0] == [];
    HoldsAllAlong(good, bad);
    assert forall k | 0 <= k <= |moves| :: good[k] == ClearAt(moves, id, k);
    assert forall k | 0 <= k < |moves| :: bad[k] == SpoilsAt(moves, id, k);
  }

  // ---- one end for the window and its pending notices ----

  ghost predicate EndsAgree(c: Case) {
    c.status.PriorityWindow? ==>
      c.windowEnds.Some? &&
      forall i | 0 <= i < |c.notices| && c.notices[i].status.NoticePending? :: c.notices[i].expiresAt == c.windowEnds.value
  }

  /** The steps of a relaunch that leave a pending notice with another end than the window's: they
      write an end that is not the window's, each to one of the two. */
  predicate DrivesApart(c: Case, t: Ticket) {
    c.status.PriorityWindow? &&
    match t
    case WriteEnd(_, ends) => c.windowEnds != Some(ends) && AnyPendingNotice(c.notices)
    case Extend(_, ends) => c.windowEnds != Some(ends) && AnyPendingNotice(c.notices)
    case Create(_, ends, holdings, i) => c.windowEnds != Some(ends) && i < |holdings|
    case _ => false
  }

  lemma ExtendApart(w: World, c: Case, t: Ticket)
    requires t.Extend? && EndsAgree(c)
    ensures !EndsAgree(CaseAfter(w, c, t)) <==> DrivesApart(c, t)
  {
    var d := CaseAfter(w, c, t);
    if c.status.PriorityWindow? && AnyPendingNotice(c.notices) {
      var i :| 0 <= i < |c.notices| && c.notices[i].status.NoticePending?;
      assert d.notices[i].status.NoticePending? && d.notices[i].expiresAt == t.ends;
    }
  }

  lemma CreateApart(w: World, c: Case, t: Ticket)
    requires t.Create? && EndsAgree(c)
    ensures !EndsAgree(CaseAfter(w, c, t)) <==> DrivesApart(c, t)
  {
    var d := CaseAfter(w, c, t);
    if t.i < |t.holdings| {
      assert d.notices[|c.notices|].status.NoticePending? && d.notices[|c.notices|].expiresAt == t.ends;
    }
  }

  lemma StepDrivesApartExactly(w: World, c: Case, t: Ticket)
    requires EndsAgree(c) && (SawWindow(t) ==> PastReview(c))
    ensures !EndsAgree(CaseAfter(w, c, t)) <==> DrivesApart(c, t)
  {
    match t
    case Extend(_, _) => ExtendApart(w, c, t);
    case Create(_, _, _, _) => CreateApart(w, c, t);
    case AttachTo(_, _) => AttachStepsBuy(w, c, t);
    case Exercise(_, _, _) => AttachStepsBuy(w, c, t);
    case Accept(_, _, _, _) => AttachStepsBuy(w, c, t);
    case _ =>
  }

  lemma RelaunchAgrees(w: World, c: Case, issuer: UserId, days: int)
    requires DoRelaunch(w, c, issuer, days).Ok?
    ensures EndsAgree(DoRelaunch(w, c, issuer, days).value)
  {
    var ends := RelaunchEnd(w, c, days);
    var kept := ExtendPending(c.notices, ends);
    MissingNoticesPending(w.holdings, c, kept, 0, ends);
    var d := DoRelaunch(w, c, issuer, days).value;
    forall i | 0 <= i < |d.notices| && d.notices[i].status.NoticePending? ensures d.notices[i].expiresAt == ends {
      if i < |kept| { assert d.notices[i] == kept[i]; }
    }
  }

  lemma ApproveAgrees(w: World, c: Case, issuer: UserId, rofr: Option<bool>)
    requires Early(c) && DoIssuerApprove(w, c, issuer, rofr).Ok?
    ensures EndsAgree(DoIssuerApprove(w, c, issuer, rofr).value)
  {
    TriggerKeepsWindow(w, c, issuer, w.opps[c.opp]);
    var ready := Advance(c, Some(c.status), KycReady, Some(issuer)).value;
    if c.buyer.Some? && AttachKnownBuyer(w, ready, Some(issuer)).Ok? {
      AttachedIsClear(w, ready, AttachKnownBuyer(w, ready, Some(issuer)).value, c.buyer.value, KycReady, Some(issuer));
    }
  }

  lemma WaiveAgrees(w: World, c: Case, user: UserId, notice: nat)
    requires EndsAgree(c) && DoWaive(w, c, user, notice).Ok?
    ensures EndsAgree(DoWaive(w, c, user, notice).value)
  {
    assert DoWaive(w, c, user, notice).value.notices == c.notices[notice := c.notices[notice].(status := Waived)];
  }

  lemma ExpireAgrees(w: World, c: Case)
    ensures !DoExpireWindow(w, c).status.PriorityWindow?
  {
  }

  lemma OffersAgree(w: World, c: Case, cmd: CaseCommand)
    requires !LeavesOffers(cmd) && Early(c) && EndsAgree(c) && CaseStep(w, c, cmd).Ok?
    ensures EndsAgree(CaseStep(w, c, cmd).value)
  {
    match cmd
    case ExerciseNotice(user, notice) =>
      AttachedIsClear(w, c.(notices := c.notices[notice := c.notices[notice].(status := Exercised)]),
        DoExercise(w, c, user, notice).value, user, c.status, Some(user));
    case AcceptInvitation(user, v, presented) =>
      AttachedIsClear(w, Taken(c, user, v), DoAccept(w, c, user, v, presented).value, user, c.status, Some(user));
    case WaiveNotice(user, notice) => WaiveAgrees(w, c, user, notice);
    case IssuerApprove(issuer, rofr) => ApproveAgrees(w, c, issuer, rofr);
    case OpenWindow(issuer) => TriggerKeepsWindow(w, c, issuer, w.opps[c.opp]);
    case Relaunch(issuer, days) => RelaunchAgrees(w, c, issuer, days);
    case ExpireWindow => ExpireAgrees(w, c);
    case InviteBuyer(_, _, _, _, _, _) =>
    case DeclineInvitation(_, _) =>
  }

  lemma WholeAgrees(w: World, c: Case, cmd: CaseCommand)
    requires Early(c) && EndsAgree(c) && CaseStep(w, c, cmd).Ok?
    ensures EndsAgree(CaseStep(w, c, cmd).value)
  {
    if LeavesOffers(cmd) {
      OffersUntouched(w, c, cmd);
      OnlyOffersMoveOffers(w, c, cmd);
    } else {
      OffersAgree(w, c, cmd);
    }
  }

  predicate MovesApart(d: Desk, m: Move, id: nat) {
    StepsOn(d, m, id) && id < |d.w.cases| && DrivesApart(d.w.cases[id], d.tickets[m.ticket])
  }

  ghost predicate AgreeFor(d: Desk, id: nat) {
    id < |d.w.cases| ==> EndsAgree(d.w.cases[id])
  }

  lemma MoveApartExactly(d: Desk, m: Move, id: nat)
    requires SoundFor(d, id) && AgreeFor(d, id)
    ensures !AgreeFor(Play(d, m), id) <==> MovesApart(d, m, id)
  {
    var v := Play(d, m);
    if id < |d.w.cases| {
      CaseOfMove(d, m, id);
      var c := d.w.cases[id];
      if StepsOn(d, m, id) {
        StepDrivesApartExactly(d.w, c, d.tickets[m.ticket]);
      } else if m.Whole? {
        CaseMoves(d.w, m.cmd, id);
        if m.cmd.OnCase? && m.cmd.id == id && CaseStep(d.w, c, m.cmd.step) == Ok(v.w.cases[id]) {
          WholeAgrees(d.w, c, m.cmd.step);
        }
      } else {
        assert forall i | 0 <= i < |c.notices| :: !LapsePending(c.notices)[i].status.NoticePending?;
      }
    } else if id < |v.w.cases| {
      NewCaseAt(d.w, m.cmd, id);
    }
  }

  ghost predicate AgreeAt(moves: seq<Move>, id: nat, k: nat)
    requires k <= |moves|
  {
    AgreeFor(Played(moves[..k]), id)
  }

  ghost predicate ApartAt(moves: seq<Move>, id: nat, k: nat)
    requires k < |moves|
  {
    MovesApart(Played(moves[..k]), moves[k], id)
  }

  lemma NextAgrees(moves: seq<Move>, id: nat, k: nat)
    requires k < |moves| && AgreeAt(moves, id, k)
    ensures AgreeAt(moves, id, k + 1) <==> !ApartAt(moves, id, k)
  {
    assert moves[..k + 1][..k] == moves[..k];
    PlayedSound(moves[..k], id);
    MoveApartExactly(Played(moves[..k]), moves[k], id);
  }

  /** All along an interleaved run every pending notice of an open window carries the window's end
      if and only if no step of a relaunch writes another one to either. */
  lemma EndsAgreeExactly(moves: seq<Move>, id: nat)
    ensures (forall k | 0 <= k <= |moves| :: AgreeAt(moves, id, k))
      <==> (forall k | 0 <= k < |moves| :: !ApartAt(moves, id, k))
  {
    var good := seq(|moves| + 1, k requires 0 <= k <= |moves| => AgreeAt(moves, id, k));
    var bad := seq(|moves|, k requires 0 <= k < |moves| => ApartAt(moves, id, k));
    forall k | 0 <= k < |bad| && good[k] ensures good[k + 1] <==> !bad[k] {
      NextAgrees(moves, id, k);
    }
    assert moves[..0] == [];
    HoldsAllAlong(good, bad);
    assert forall k | 0 <= k <= |moves| :: good[k] == AgreeAt(moves, id, k);
    assert forall k | 0 <= k < |moves| :: bad[k] == ApartAt(moves, id, k);
  }

  // ---- no second notice ----

  function NoticesOf(c: Case, user: UserId): nat {
    Count(c.notices, NoticeFor(user))
  }

  /** A step of a call gives a holder who has a notice another one if and only if it is a relaunch
      that asked before that notice was there. */
  lemma SecondNoticeExactly(w: World, c: Case, t: Ticket, user: UserId)
    requires HasNotice(c.notices, user)
    ensures NoticesOf(CaseAfter(w, c, t), user) > NoticesOf(c, user)
      <==> t.Create? && t.i < |t.holdings| && t.holdings[t.i].user == user
  {
    match t
    case Create(_, ends, holdings, i) =>
      if i < |holdings| { CountSnoc(c.notices, Notice(holdings[i].user, i, NoticePending, ends), NoticeFor(user)); }
    case Extend(_, ends) => CountPointwise(c.notices, ExtendPending(c.notices, ends), NoticeFor(user));
    case Exercise(_, _, _) => RewritesKeepHolders(w, c, t);
    case Waive(_, _, _) => RewritesKeepHolders(w, c, t);
    case Accept(_, _, _, _) => RewritesKeepHolders(w, c, t);
    case AttachTo(_, _) => RewritesKeepHolders(w, c, t);
    case _ =>
  }

  /** These steps write no notice but its status. */
  lemma RewritesKeepHolders(w: World, c: Case, t: Ticket)
    requires t.Exercise? || t.Waive? || t.Accept? || t.AttachTo?
    ensures var d := CaseAfter(w, c, t);
      |d.notices| == |c.notices| && forall i | 0 <= i < |c.notices| :: d.notices[i].holder == c.notices[i].holder
    ensures forall user :: NoticesOf(CaseAfter(w, c, t), user) == NoticesOf(c, user)
  {
    match t {
      case Exercise(_, holder, notice) =>
        if notice < |c.notices| && Attach(w, WithNotice(c, notice, Exercised), holder, c.status, Some(holder)).Ok? {
          AttachClimbs(w, WithNotice(c, notice, Exercised), holder, c.status, Some(holder));
        }
      case Waive(_, notice, last) =>
        if LateWaive(w, c, notice, last).Ok? { WaiveNotices(w, c, notice, last); }
      case Accept(_, holder, invitation, presented) =>
        if LateAccept(w, c, holder, invitation, presented).Ok? {
          AttachClimbs(w, Taken(c, holder, invitation), holder, c.status, Some(holder));
        }
      case AttachTo(_, buyer) =>
        if Attach(w, c, buyer, KycReady, None).Ok? { AttachClimbs(w, c, buyer, KycReady, None); }
    }
    var d := CaseAfter(w, c, t);
    forall user ensures NoticesOf(d, user) == NoticesOf(c, user) {
      CountPointwise(c.notices, d.notices, NoticeFor(user));
    }
  }

  lemma WaiveNotices(w: World, c: Case, notice: nat, last: bool)
    requires LateWaive(w, c, notice, last).Ok?
    ensures LateWaive(w, c, notice, last).value.notices == WithNotice(c, notice, Waived).notices
    ensures LateWaive(w, c, notice, last).value.invitations == c.invitations
  {
    var waived := WithNotice(c, notice, Waived);
    if last && c.status.PriorityWindow? {
      var ready := Advance(waived, Some(PriorityWindow), KycReady, None).value;
      if c.buyer.Some? { AttachClimbs(w, ready, c.buyer.value, KycReady, None); }
    }
  }

  // ---- one winner ----

  /** The step of a call succeeds in making someone the winner. */
  predicate WinsStep(w: World, c: Case, t: Ticket) {
    match t
    case Exercise(_, user, notice) =>
      notice < |c.notices| && Attach(w, WithNotice(c, notice, Exercised), user, c.status, Some(user)).Ok?
    case Accept(_, user, invitation, presented) => LateAccept(w, c, user, invitation, presented).Ok?
    case _ => false
  }

  predicate WinsMove(d: Desk, m: Move, id: nat) {
    || (m.Whole? && WinsCase(d.w, m.cmd, id))
    || (StepsOn(d, m, id) && id < |d.w.cases| && WinsStep(d.w, d.w.cases[id], d.tickets[m.ticket]))
  }

  function WinCount(moves: seq<Move>, id: nat): nat {
    if moves == [] then 0
    else
      var before := moves[..|moves| - 1];
      WinCount(before, id) + if WinsMove(Played(before), moves[|moves| - 1], id) then 1 else 0
  }

  predicate Bought(c: Case) {
    Rank(c.status) >= Rank(BuyerSelected)
  }

  lemma StepWins(w: World, c: Case, t: Ticket)
    ensures Bought(c) ==> !WinsStep(w, c, t) && Bought(CaseAfter(w, c, t))
    ensures WinsStep(w, c, t) ==> Bought(CaseAfter(w, c, t))
  {
    match t
    case Exercise(_, user, notice) =>
      if WinsStep(w, c, t) {
        AttachedIsClear(w, WithNotice(c, notice, Exercised), CaseAfter(w, c, t), user, c.status, Some(user));
      }
    case Accept(_, user, invitation, presented) =>
      if WinsStep(w, c, t) {
        AttachedIsClear(w, Taken(c, user, invitation), CaseAfter(w, c, t), user, c.status, Some(user));
      }
    case AttachTo(_, buyer) =>
      if Attach(w, c, buyer, KycReady, None).Ok? {
        AttachedIsClear(w, c, CaseAfter(w, c, t), buyer, KycReady, None);
      }
    case _ =>
  }

  lemma WholeWins(w: World, cmd: Command, id: nat)
    requires id < |w.cases|
    ensures id < |Next(w, cmd).cases|
    ensures Bought(w.cases[id]) ==> !WinsCase(w, cmd, id) && Bought(Next(w, cmd).cases[id])
    ensures WinsCase(w, cmd, id) ==> Bought(Next(w, cmd).cases[id])
  {
    CaseMoves(w, cmd, id);
    var c, v := w.cases[id], Next(w, cmd).cases[id];
    if WinsCase(w, cmd, id) {
      WinningStep(w, c, cmd.step);
      assert CaseStep(w, c, cmd.step) == Ok(v);
    } else if cmd.OnCase? && cmd.id == id && CaseStep(w, c, cmd.step) == Ok(v) {
      NeverBackToOffers(w, c, cmd.step);
    }
  }

  lemma WinningStep(w: World, c: Case, cmd: CaseCommand)
    requires (cmd.ExerciseNotice? || cmd.AcceptInvitation?) && CaseStep(w, c, cmd).Ok?
    ensures !Bought(c) && Bought(CaseStep(w, c, cmd).value)
  {
    if cmd.ExerciseNotice? {
      AttachedIsClear(w, c.(notices := c.notices[cmd.notice := c.notices[cmd.notice].(status := Exercised)]),
        DoExercise(w, c, cmd.user, cmd.notice).value, cmd.user, c.status, Some(cmd.user));
    } else {
      AttachedIsClear(w, Taken(c, cmd.user, cmd.invitation),
        DoAccept(w, c, cmd.user, cmd.invitation, cmd.presented).value, cmd.user, c.status, Some(cmd.user));
    }
  }

  lemma MoveWins(d: Desk, m: Move, id: nat)
    requires id < |d.w.cases|
    ensures id < |Play(d, m).w.cases|
    ensures Bought(d.w.cases[id]) ==> !WinsMove(d, m, id) && Bought(Play(d, m).w.cases[id])
    ensures WinsMove(d, m, id) ==> Bought(Play(d, m).w.cases[id])
  {
    CaseOfMove(d, m, id);
    if StepsOn(d, m, id) {
      StepWins(d.w, d.w.cases[id], d.tickets[m.ticket]);
    } else if m.Whole? {
      WholeWins(d.w, m.cmd, id);
    }
  }

  /** However the calls are interleaved, at most one exercise or acceptance succeeds on a case. */
  lemma {:induction false} AtMostOneWin(moves: seq<Move>, id: nat)
    ensures WinCount(moves, id) <= 1
    ensures WinCount(moves, id) == 1 ==> id < |Played(moves).w.cases| && Bought(Played(moves).w.cases[id])
  {
    if moves != [] {
      var before, m := moves[..|moves| - 1], moves[|moves| - 1];
      AtMostOneWin(before, id);
      if id < |Played(before).w.cases| { MoveWins(Played(before), m, id); }
    }
  }

  // ---- the winner that a case shows ----

  /** The late waiver of an exercised notice, or the late refusal of an accepted invitation. */
  predicate Hides(c: Case, t: Ticket) {
    || (t.Waive? && t.notice < |c.notices| && c.notices[t.notice].status.Exercised?)
    || (t.Decline? && t.invitation < |c.invitations| && c.invitations[t.invitation].status.Accepted?)
  }

  lemma NoWinnerNoWin(c: Case)
    requires Winners(c) == 0
    ensures forall i | 0 <= i < |c.notices| :: !c.notices[i].status.Exercised?
    ensures forall i | 0 <= i < |c.invitations| :: !c.invitations[i].status.Accepted?
  {
    CountZero(c.notices, IsExercised());
    CountZero(c.invitations, IsAccepted());
    assert forall i | 0 <= i < |c.notices| :: c.notices[i] in c.notices;
    assert forall i | 0 <= i < |c.invitations| :: c.invitations[i] in c.invitations;
  }

  lemma ExerciseShown(w: World, c: Case, t: Ticket)
    requires t.Exercise? && WinsStep(w, c, t) && Winners(c) == 0
    ensures Winners(CaseAfter(w, c, t)) == 1
  {
    NoWinnerNoWin(c);
    AttachClimbs(w, WithNotice(c, t.notice, Exercised), t.user, c.status, Some(t.user));
    CountUpdate(c.notices, t.notice, c.notices[t.notice].(status := Exercised), IsExercised());
  }

  lemma AcceptShown(w: World, c: Case, t: Ticket)
    requires t.Accept? && WinsStep(w, c, t) && Winners(c) == 0
    ensures Winners(CaseAfter(w, c, t)) == 1
  {
    NoWinnerNoWin(c);
    var v := c.invitations[t.invitation].(status := Accepted, invitedUser := Some(t.user));
    var won := c.invitations[t.invitation := v];
    AttachClimbs(w, Taken(c, t.user, t.invitation), t.user, c.status, Some(t.user));
    CountUpdate(c.invitations, t.invitation, v, IsAccepted());
    CountPointwise(won, RevokeOthers(won, t.invitation), IsAccepted());
  }

  lemma WaiveShown(w: World, c: Case, t: Ticket)
    requires t.Waive? && (Winners(c) > 0 ==> Bought(c))
    ensures Winners(CaseAfter(w, c, t)) == Winners(c) - (if Hides(c, t) then 1 else 0)
  {
    if t.notice < |c.notices| {
      CountUpdate(c.notices, t.notice, c.notices[t.notice].(status := Waived), IsExercised());
    }
    if LateWaive(w, c, t.notice, t.last).Ok? {
      WaiveNotices(w, c, t.notice, t.last);
    } else {
      NoWinnerNoWin(c);
    }
  }

  lemma DeclineShown(w: World, c: Case, t: Ticket)
    requires t.Decline?
    ensures Winners(CaseAfter(w, c, t)) == Winners(c) - (if Hides(c, t) then 1 else 0)
  {
    if t.invitation < |c.invitations| {
      CountUpdate(c.invitations, t.invitation, c.invitations[t.invitation].(status := Declined), IsAccepted());
    }
  }

  lemma RestShown(w: World, c: Case, t: Ticket)
    requires !t.Waive? && !t.Decline? && !WinsStep(w, c, t)
    ensures Winners(CaseAfter(w, c, t)) == Winners(c)
  {
    match t
    case Create(_, ends, holdings, i) =>
      if i < |holdings| { CountSnoc(c.notices, Notice(holdings[i].user, i, NoticePending, ends), IsExercised()); }
    case Extend(_, ends) => CountPointwise(c.notices, ExtendPending(c.notices, ends), IsExercised());
    case AttachTo(_, buyer) =>
      if Attach(w, c, buyer, KycReady, None).Ok? { AttachClimbs(w, c, buyer, KycReady, None); }
    case _ =>
  }

  lemma StepShown(w: World, c: Case, t: Ticket)
    requires Winners(c) > 0 ==> Bought(c)
    ensures Winners(CaseAfter(w, c, t))
      == Winners(c) + (if WinsStep(w, c, t) then 1 else 0) - (if Hides(c, t) then 1 else 0)
  {
    if t.Waive? {
      WaiveShown(w, c, t);
    } else if t.Decline? {
      DeclineShown(w, c, t);
    } else if WinsStep(w, c, t) {
      StepWins(w, c, t);
      if t.Exercise? { ExerciseShown(w, c, t); } else { AcceptShown(w, c, t); }
    } else {
      RestShown(w, c, t);
    }
  }

  predicate HidesWinner(d: Desk, m: Move, id: nat) {
    StepsOn(d, m, id) && id < |d.w.cases| && Hides(d.w.cases[id], d.tickets[m.ticket])
  }

  function ShownFor(d: Desk, id: nat): nat {
    if id < |d.w.cases| then Winners(d.w.cases[id]) else 0
  }

  lemma MoveShown(d: Desk, m: Move, id: nat)
    requires ShownFor(d, id) > 0 ==> Bought(d.w.cases[id])
    ensures ShownFor(Play(d, m), id)
      == ShownFor(d, id) + (if WinsMove(d, m, id) then 1 else 0) - (if HidesWinner(d, m, id) then 1 else 0)
  {
    if id < |d.w.cases| {
      CaseOfMove(d, m, id);
      var c := d.w.cases[id];
      if StepsOn(d, m, id) {
        StepShown(d.w, c, d.tickets[m.ticket]);
      } else if m.Whole? {
        WinStep(d.w, m.cmd, id);
      } else {
        CountPointwise(c.notices, LapsePending(c.notices), IsExercised());
      }
    } else if m.Whole? {
      WinStep(d.w, m.cmd, id);
    }
  }

  /** A case never shows more winners than there were. */
  lemma {:induction false} ShownBounded(moves: seq<Move>, id: nat)
    ensures ShownFor(Played(moves), id) <= WinCount(moves, id)
  {
    if moves != [] {
      var before, m := moves[..|moves| - 1], moves[|moves| - 1];
      ShownBounded(before, id);
      AtMostOneWin(before, id);
      MoveShown(Played(before), m, id);
    }
  }

  ghost predicate ShowsAt(moves: seq<Move>, id: nat, k: nat)
    requires k <= |moves|
  {
    ShownFor(Played(moves[..k]), id) == WinCount(moves[..k], id)
  }

  ghost predicate HidesAt(moves: seq<Move>, id: nat, k: nat)
    requires k < |moves|
  {
    HidesWinner(Played(moves[..k]), moves[k], id)
  }

  lemma NextShows(moves: seq<Move>, id: nat, k: nat)
    requires k < |moves| && ShowsAt(moves, id, k)
    ensures ShowsAt(moves, id, k + 1) <==> !HidesAt(moves, id, k)
  {
    var before := moves[..k];
    assert moves[..k + 1][..k] == before;
    AtMostOneWin(before, id);
    MoveShown(Played(before), moves[k], id);
  }

  /** All along an interleaved run a case shows exactly its winner if and only if no late waiver or
      refusal overwrites it. */
  lemma ShownExactly(moves: seq<Move>, id: nat)
    ensures (forall k | 0 <= k <= |moves| :: ShowsAt(moves, id, k))
      <==> (forall k | 0 <= k < |moves| :: !HidesAt(moves, id, k))
  {
    var good := seq(|moves| + 1, k requires 0 <= k <= |moves| => ShowsAt(moves, id, k));
    var bad := seq(|moves|, k requires 0 <= k < |moves| => HidesAt(moves, id, k));
    forall k | 0 <= k < |bad| && good[k] ensures good[k + 1] <==> !bad[k] {
      NextShows(moves, id, k);
    }
    assert moves[..0] == [];
    HoldsAllAlong(good, bad);
    assert forall k | 0 <= k <= |moves| :: good[k] == ShowsAt(moves, id, k);
    assert forall k | 0 <= k < |moves| :: bad[k] == HidesAt(moves, id, k);
  }

  // ---- undisturbed, each call is its command ----

  /** `n` steps of one call. */
  function Steps(d: Desk, k: nat, n: nat): Desk
    decreases n
  {
    if n == 0 then d else Steps(Play(d, Step(k)), k, n - 1)
  }

  /** The same on the case alone: the case and what the call does next. */
  function Course(w: World, c: Case, t: Option<Ticket>, n: nat): (Case, Option<Ticket>)
    decreases n
  {
    if n == 0 || t.None? then (c, t) else Course(w, CaseAfter(w, c, t.value), TicketAfter(w, c, t.value), n - 1)
  }

  /** The desk once a new call has brought the case to `c` and is about to do `t`. */
  function Onward(d: Desk, k: nat, id: nat, c: Case, t: Option<Ticket>): Desk {
    Desk(Put(d.w, id, c), if t.Some? then d.tickets[k := t.value] else d.tickets)
  }

  lemma StepOnward(d: Desk, k: nat, id: nat, c: Case, t: Ticket)
    requires Free(d, k, id) && t.id == id
    ensures Play(Onward(d, k, id, c, Some(t)), Step(k)) == Onward(d, k, id, CaseAfter(d.w, c, t), TicketAfter(d.w, c, t))
    ensures TicketAfter(d.w, c, t).Some? ==> TicketAfter(d.w, c, t).value.id == id
  {
    var x := Onward(d, k, id, c, Some(t));
    CasesUnread(d.w, x.w, c, t);
    var after, next := CaseAfter(d.w, c, t), TicketAfter(d.w, c, t);
    assert Play(x, Step(k)) == Desk(Put(x.w, id, after), Kept(x.tickets, k, next));
    assert x.w.cases[id := after] == d.w.cases[id := after];
    KeptOnward(d.tickets, k, t, next);
  }

  lemma KeptOnward(tickets: map<nat, Ticket>, k: nat, t: Ticket, next: Option<Ticket>)
    requires k !in tickets
    ensures Kept(tickets[k := t], k, next) == if next.Some? then tickets[k := next.value] else tickets
  {
    assert tickets[k := t] - {k} == tickets;
  }

  /** No step of a call reads the table of cases. */
  lemma CasesUnread(w: World, v: World, c: Case, t: Ticket)
    requires v == w.(cases := v.cases)
    ensures CaseAfter(v, c, t) == CaseAfter(w, c, t) && TicketAfter(v, c, t) == TicketAfter(w, c, t)
  {
    match t
    case AttachTo(_, buyer) => AttachUnread(w, v, c, buyer, KycReady, None);
    case Exercise(_, user, notice) => AttachUnread(w, v, WithNotice(c, notice, Exercised), user, c.status, Some(user));
    case Waive(_, notice, last) =>
      var ready := Advance(WithNotice(c, notice, Waived), Some(PriorityWindow), KycReady, None);
      if ready.Ok? && c.buyer.Some? { AttachUnread(w, v, ready.value, c.buyer.value, KycReady, None); }
    case Accept(_, user, invitation, _) =>
      if invitation < |c.invitations| { AttachUnread(w, v, Taken(c, user, invitation), user, c.status, Some(user)); }
    case _ =>
  }

  lemma AttachUnread(w: World, v: World, c: Case, buyer: UserId, prior: Status, actor: Option<UserId>)
    requires v == w.(cases := v.cases)
    ensures Attach(v, c, buyer, prior, actor) == Attach(w, c, buyer, prior, actor)
  {
  }

  lemma {:induction false} StepsOnward(d: Desk, k: nat, id: nat, c: Case, t: Option<Ticket>, n: nat)
    requires Free(d, k, id) && (t.Some? ==> t.value.id == id)
    ensures var x := Course(d.w, c, t, n); Steps(Onward(d, k, id, c, t), k, n) == Onward(d, k, id, x.0, x.1)
    decreases n
  {
    if n > 0 {
      if t.Some? {
        StepOnward(d, k, id, c, t.value);
        StepsOnward(d, k, id, CaseAfter(d.w, c, t.value), TicketAfter(d.w, c, t.value), n - 1);
      } else {
        StepsOnward(d, k, id, c, t, n - 1);
      }
    }
  }

  /** A call that runs from its first read to its end with the outcome of a command is that command. */
  lemma CourseIsWhole(d: Desk, k: nat, id: nat, c: Case, t: Option<Ticket>, n: nat, step: CaseCommand)
    requires Free(d, k, id) && (t.Some? ==> t.value.id == id)
    requires Course(d.w, c, t, n) == (OrSame(CaseStep(d.w, d.w.cases[id], step), d.w.cases[id]), None)
    ensures Steps(Onward(d, k, id, c, t), k, n) == Play(d, Whole(OnCase(id, step)))
  {
    StepsOnward(d, k, id, c, t, n);
    PutSame(d.w, id);
  }

  lemma PutSame(w: World, id: nat)
    requires id < |w.cases|
    ensures Put(w, id, w.cases[id]) == w
  {
    assert w.cases[id := w.cases[id]] == w.cases;
  }

  lemma ExerciseIsWhole(d: Desk, k: nat, id: nat, user: UserId, notice: nat)
    requires Free(d, k, id)
    ensures Steps(Play(d, ReadExercise(k, id, user, notice)), k, 1) == Play(d, Whole(OnCase(id, ExerciseNotice(user, notice))))
  {
    var c := d.w.cases[id];
    var ok := NoticePendingFor(c, user, notice) && d.w.now <= c.notices[notice].expiresAt;
    PutSame(d.w, id);
    CourseIsWhole(d, k, id, c, if ok then Some(Exercise(id, user, notice)) else None, 1, ExerciseNotice(user, notice));
  }

  lemma AcceptIsWhole(d: Desk, k: nat, id: nat, user: UserId, v: nat, presented: Option<int>)
    requires Free(d, k, id)
    ensures Steps(Play(d, ReadAccept(k, id, user, v, presented)), k, 1)
      == Play(d, Whole(OnCase(id, AcceptInvitation(user, v, presented))))
  {
    var c := d.w.cases[id];
    var ok := v < |c.invitations| && c.invitations[v].status.InvitationPending?;
    PutSame(d.w, id);
    AcceptCourse(d.w, c, id, user, v, presented);
    CourseIsWhole(d, k, id, c, if ok then Some(Accept(id, user, v, presented)) else None, 1,
                  AcceptInvitation(user, v, presented));
  }

  lemma AcceptCourse(w: World, c: Case, id: nat, user: UserId, v: nat, presented: Option<int>)
    ensures var ok := v < |c.invitations| && c.invitations[v].status.InvitationPending?;
      Course(w, c, if ok then Some(Accept(id, user, v, presented)) else None, 1)
      == (OrSame(DoAccept(w, c, user, v, presented), c), None)
  {
    if v < |c.invitations| && c.invitations[v].status.InvitationPending? {
      assert LateGate(w, c, user, v, presented) == InvitationGate(w, c, user, v, presented);
    }
  }

  lemma DeclineIsWhole(d: Desk, k: nat, id: nat, user: UserId, v: nat)
    requires Free(d, k, id)
    ensures Steps(Play(d, ReadDecline(k, id, user, v)), k, 1) == Play(d, Whole(OnCase(id, DeclineInvitation(user, v))))
  {
    var c := d.w.cases[id];
    PutSame(d.w, id);
    CourseIsWhole(d, k, id, c, if DoDecline(d.w, c, user, v).Ok? then Some(Decline(id, v)) else None, 1, DeclineInvitation(user, v));
  }

  lemma WaiveIsWhole(d: Desk, k: nat, id: nat, user: UserId, notice: nat)
    requires Free(d, k, id)
    ensures Steps(Play(d, ReadWaive(k, id, user, notice)), k, 2) == Play(d, Whole(OnCase(id, WaiveNotice(user, notice))))
  {
    var c := d.w.cases[id];
    PutSame(d.w, id);
    WaiveCourse(d.w, c, id, user, notice);
    CourseIsWhole(d, k, id, c, if NoticePendingFor(c, user, notice) then Some(CountOthers(id, notice)) else None, 2,
                  WaiveNotice(user, notice));
  }

  lemma WaiveCourse(w: World, c: Case, id: nat, user: UserId, notice: nat)
    ensures Course(w, c, if NoticePendingFor(c, user, notice) then Some(CountOthers(id, notice)) else None, 2)
      == (OrSame(DoWaive(w, c, user, notice), c), None)
  {
    if NoticePendingFor(c, user, notice) {
      var last := !AnyPendingNotice(WithNotice(c, notice, Waived).notices);
      assert LateWaive(w, c, notice, last) == DoWaive(w, c, user, notice);
      assert Course(w, c, Some(CountOthers(id, notice)), 2) == Course(w, c, Some(Waive(id, notice, last)), 1);
    }
  }

  /** The job: lapse, count, look, close, find the buyer, attach. */
  lemma JobIsWhole(d: Desk, k: nat, id: nat)
    requires Free(d, k, id)
    ensures Steps(Play(d, Lapse(k, id)), k, 5) == Play(d, Whole(OnCase(id, ExpireWindow)))
  {
    var c := d.w.cases[id];
    JobCourse(d.w, c, id);
    CourseIsWhole(d, k, id, c.(notices := LapsePending(c.notices)), Some(Tally(id)), 5, ExpireWindow);
  }

  lemma JobCourse(w: World, c: Case, id: nat)
    ensures Course(w, c.(notices := LapsePending(c.notices)), Some(Tally(id)), 5) == (DoExpireWindow(w, c), None)
  {
    var lapsed := c.(notices := LapsePending(c.notices));
    assert !AnyPendingNotice(lapsed.notices);
    assert Course(w, lapsed, Some(Tally(id)), 5) == Course(w, lapsed, Some(LookAt(id)), 4);
    if c.status.PriorityWindow? {
      assert Course(w, lapsed, Some(LookAt(id)), 4) == Course(w, lapsed, Some(Close(id)), 3);
      CloseCourse(w, lapsed, id);
    } else {
      assert Course(w, lapsed, Some(LookAt(id)), 4) == Course(w, lapsed, None, 3);
    }
  }

  lemma CloseCourse(w: World, c: Case, id: nat)
    requires c.status.PriorityWindow?
    ensures var ready := Advance(c, Some(PriorityWindow), KycReady, None).value;
      Course(w, c, Some(Close(id)), 3) == (OrSame(AttachKnownBuyer(w, ready, None), ready), None)
  {
    var ready := Advance(c, Some(PriorityWindow), KycReady, None).value;
    assert Course(w, c, Some(Close(id)), 3) == Course(w, ready, Some(FindBuyer(id)), 2);
    if c.buyer.Some? {
      assert Course(w, ready, Some(FindBuyer(id)), 2) == Course(w, ready, Some(AttachTo(id, c.buyer.value)), 1)
        == Course(w, OrSame(Attach(w, ready, c.buyer.value, KycReady, None), ready), None, 0);
    } else {
      assert Course(w, ready, Some(FindBuyer(id)), 2) == Course(w, ready, None, 1);
    }
  }

  /** The relaunch: read, write the end, extend, find, and ask and create for each. */
  lemma RelaunchIsWhole(d: Desk, k: nat, id: nat, issuer: UserId, days: int) returns (n: nat)
    requires Free(d, k, id)
    ensures Steps(Play(d, ReadRelaunch(k, id, issuer, days)), k, n) == Play(d, Whole(OnCase(id, Relaunch(issuer, days))))
  {
    var c := d.w.cases[id];
    PutSame(d.w, id);
    if DoRelaunch(d.w, c, issuer, days).Ok? {
      n := RelaunchCourse(d.w, c, id, RelaunchEnd(d.w, c, days));
      CourseIsWhole(d, k, id, c, Some(WriteEnd(id, RelaunchEnd(d.w, c, days))), n, Relaunch(issuer, days));
    } else {
      n := 0;
    }
  }

  lemma RelaunchCourse(w: World, c: Case, id: nat, ends: int) returns (n: nat)
    ensures Course(w, c, Some(WriteEnd(id, ends)), n)
      == (c.(windowEnds := Some(ends),
             notices := AddMissingNotices(w.holdings, c, ExtendPending(c.notices, ends), 0, ends)), None)
  {
    var dated := c.(windowEnds := Some(ends));
    var extended := dated.(notices := ExtendPending(c.notices, ends));
    var m := AskCourse(w, extended, id, ends, 0);
    n := m + 3;
    assert Course(w, c, Some(WriteEnd(id, ends)), n) == Course(w, dated, Some(Extend(id, ends)), m + 2)
      == Course(w, extended, Some(Find(id, ends)), m + 1) == Course(w, extended, Some(Ask(id, ends, w.holdings, 0)), m);
    SameDealSameMissing(w.holdings, c, extended, extended.notices, 0, ends);
  }

  /** Asking and creating, one co-holder after the other, adds the missing notices. */
  lemma {:induction false} AskCourse(w: World, c: Case, id: nat, ends: int, i: nat) returns (n: nat)
    requires i <= |w.holdings|
    ensures Course(w, c, Some(Ask(id, ends, w.holdings, i)), n)
      == (c.(notices := AddMissingNotices(w.holdings, c, c.notices, i, ends)), None)
    decreases |w.holdings| - i
  {
    var t := Ask(id, ends, w.holdings, i);
    if i == |w.holdings| {
      n := 1;
    } else if Asked(t, c) {
      var more := c.(notices := c.notices + [Notice(w.holdings[i].user, i, NoticePending, ends)]);
      var m := AskCourse(w, more, id, ends, i + 1);
      n := m + 2;
      assert Course(w, c, Some(t), n) == Course(w, c, Some(Create(id, ends, w.holdings, i)), m + 1)
        == Course(w, more, Some(Ask(id, ends, w.holdings, i + 1)), m);
      SameDealSameMissing(w.holdings, c, more, more.notices, i + 1, ends);
    } else {
      var m := AskCourse(w, c, id, ends, i + 1);
      n := m + 1;
      assert Course(w, c, Some(t), n) == Course(w, c, Some(Ask(id, ends, w.holdings, i + 1)), m);
    }
  }

  lemma {:induction false} SameDealSameMissing(holdings: seq<Holding>, c: Case, d: Case, notices: seq<Notice>, i: nat, ends: int)
    requires i <= |holdings| && d.opp == c.opp && d.seller == c.seller
    ensures AddMissingNotices(holdings, d, notices, i, ends) == AddMissingNotices(holdings, c, notices, i, ends)
    decreases |holdings| - i
  {
    if i < |holdings| {
      if IsCoHolder(holdings[i], c) && !HasNotice(notices, holdings[i].user) {
        SameDealSameMissing(holdings, c, d, notices + [Notice(holdings[i].user, i, NoticePending, ends)], i + 1, ends);
      } else {
        SameDealSameMissing(holdings, c, d, notices, i + 1, ends);
      }
    }
  }
}
